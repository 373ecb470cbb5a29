/** Index resolution over the bone arena (`Bone::loadBones`,
    libvpvl2/src/core/pmd/Bone.cc). Each bone's raw parent, target and child
    indices are checked against the bone count and turned into references;
    a parent also turns the bone's offset into one relative to the parent's
    origin. The first index out of range stops the pass and nothing already
    done is undone. */
module PmdLoad {
  import opened Geometry
  import opened PmdBone

  /** An index is usable when it is negative ("none") or below the count. */
  predicate BoneInRange(b: Bone, n: nat)
  {
    b.parentBoneIndex < n && b.targetBoneIndex < n && b.childBoneIndex < n
  }

  /** The bone at `i` after the body of the `loadBones` loop ran for it, and
      whether the loop goes on. A failing check leaves the stages before it
      applied: the index always, the parent stage if it passed, and so on. */
  function ResolveBone(s: seq<Bone>, i: nat): (r: (Bone, bool))
    requires i < |s|
    ensures r.1 <==> BoneInRange(s[i], |s|)
    ensures r.0.index == i && Stripped(r.0) == Stripped(s[i])
  {
    var n := |s|;
    var b0 := s[i].(index := i);
    var p := b0.parentBoneIndex;
    if p >= n then (b0, false)
    else
      var b1 := if p >= 0 then b0.(offset := b0.offset.Sub(s[p].origin), parentBoneRef := Some(p)) else b0;
      var t := b1.targetBoneIndex;
      if t >= n then (b1, false)
      else
        var b2 := if t >= 0 then b1.(targetBoneRef := Some(t)) else b1;
        var c := b2.childBoneIndex;
        if c >= n then (b2, false)
        else
          var b3 := if c >= 0 then b2.(childBoneRef := Some(c)) else b2;
          (b3, true)
  }

  /** The loop of `loadBones` from position `i` on. */
  function Load(s: seq<Bone>, i: nat): (seq<Bone>, bool)
    requires i <= |s|
    decreases |s| - i
  {
    if i == |s| then (s, true)
    else
      var (b, ok) := ResolveBone(s, i);
      if ok then Load(s[i := b], i + 1) else (s[i := b], false)
  }

  /** The body of the `loadBones` loop for bone `i`: set its index, then
      check and resolve the parent, the target and the child in turn,
      storing the bone after each stage and stopping at the first index out
      of range. */
  method ResolveBoneAt(bones: array<Bone>, i: nat) returns (ok: bool)
    requires i < bones.Length
    modifies bones
    ensures bones[..] == old(bones[..])[i := ResolveBone(old(bones[..]), i).0]
    ensures ok == ResolveBone(old(bones[..]), i).1
  {
    var n := bones.Length;
    var bone := bones[i].(index := i);
    bones[i] := bone;
    var parent := bone.parentBoneIndex;
    if parent >= 0 {
      if parent >= n {
        return false;
      }
      bone := bone.(offset := bone.offset.Sub(bones[parent].origin), parentBoneRef := Some(parent));
      bones[i] := bone;
    }
    var target := bone.targetBoneIndex;
    if target >= 0 {
      if target >= n {
        return false;
      }
      bone := bone.(targetBoneRef := Some(target));
      bones[i] := bone;
    }
    var child := bone.childBoneIndex;
    if child >= 0 {
      if child >= n {
        return false;
      }
      bone := bone.(childBoneRef := Some(child));
      bones[i] := bone;
    }
    return true;
  }

  /** `loadBones`. */
  method LoadBones(bones: array<Bone>) returns (ok: bool)
    modifies bones
    ensures (bones[..], ok) == Load(old(bones[..]), 0)
  {
    var n := bones.Length;
    var i := 0;
    while i < n
      invariant 0 <= i <= n
      invariant Load(bones[..], i) == Load(old(bones[..]), 0)
    {
      ok := ResolveBoneAt(bones, i);
      if !ok {
        return;
      }
      i := i + 1;
    }
    return true;
  }

  /** The first bone at or after `i` with an index out of range, or `|s|`. */
  function FirstBad(s: seq<Bone>, i: nat): (k: nat)
    requires i <= |s|
    ensures i <= k <= |s|
    ensures forall j :: i <= j < k ==> BoneInRange(s[j], |s|)
    ensures k < |s| ==> !BoneInRange(s[k], |s|)
    decreases |s| - i
  {
    if i == |s| || !BoneInRange(s[i], |s|) then i else FirstBad(s, i + 1)
  }

  /** What the loop body makes of bone `j` of the original arena `s` when all
      three of its indices are in range: its index is `j`; each non-negative
      index becomes a reference; a parent rebases the offset on the parent's
      origin; everything else is kept. */
  predicate ResolvedFrom(b: Bone, s: seq<Bone>, j: nat)
    requires j < |s| && BoneInRange(s[j], |s|)
  {
    var o := s[j];
    b.index == j && Stripped(b) == Stripped(o) &&
    b.parentBoneRef == (if o.parentBoneIndex >= 0 then Some(o.parentBoneIndex as nat) else o.parentBoneRef) &&
    b.offset == (if o.parentBoneIndex >= 0 then o.offset.Sub(s[o.parentBoneIndex].origin) else o.offset) &&
    b.targetBoneRef == (if o.targetBoneIndex >= 0 then Some(o.targetBoneIndex as nat) else o.targetBoneRef) &&
    b.childBoneRef == (if o.childBoneIndex >= 0 then Some(o.childBoneIndex as nat) else o.childBoneRef)
  }

  /** Resolving bone `i` reads only the bone itself and the other bones'
      origins, which the pass never changes. */
  lemma ResolveBoneAgrees(s: seq<Bone>, s0: seq<Bone>, i: nat)
    requires i < |s| == |s0| && s[i] == s0[i]
    requires forall j :: 0 <= j < |s| ==> Stripped(s[j]) == Stripped(s0[j])
    ensures ResolveBone(s, i) == ResolveBone(s0, i)
  {
    var p := s[i].parentBoneIndex;
    if 0 <= p < |s| {
      assert s[p].origin == Stripped(s[p]).origin == Stripped(s0[p]).origin == s0[p].origin;
    }
  }

  /** The pass from position `i` over an arena `s` whose bones from `i` on are
      still those of the original `s0`. */
  lemma {:induction false} LoadFrom(s: seq<Bone>, s0: seq<Bone>, i: nat)
    requires i <= |s| == |s0|
    requires forall j :: 0 <= j < |s| ==> Stripped(s[j]) == Stripped(s0[j])
    requires forall j :: i <= j < |s| ==> s[j] == s0[j]
    ensures |Load(s, i).0| == |s|
    ensures Load(s, i).1 <==> FirstBad(s0, i) == |s|
    ensures forall j :: 0 <= j < i ==> Load(s, i).0[j] == s[j]
    ensures forall j :: i <= j < FirstBad(s0, i) ==> ResolvedFrom(Load(s, i).0[j], s0, j)
    ensures forall j :: FirstBad(s0, i) < j < |s| ==> Load(s, i).0[j] == s0[j]
    ensures FirstBad(s0, i) < |s| ==>
      Load(s, i).0[FirstBad(s0, i)].index == FirstBad(s0, i) &&
      Stripped(Load(s, i).0[FirstBad(s0, i)]) == Stripped(s0[FirstBad(s0, i)])
    decreases |s| - i
  {
    if i < |s| {
      ResolveBoneAgrees(s, s0, i);
      var (b, ok) := ResolveBone(s, i);
      var s' := s[i := b];
      if ok {
        assert ResolvedFrom(b, s0, i);
        LoadFrom(s', s0, i + 1);
        assert Load(s, i) == Load(s', i + 1);
        assert FirstBad(s0, i) == FirstBad(s0, i + 1);
      } else {
        assert Load(s, i) == (s', false);
        assert FirstBad(s0, i) == i;
      }
    }
  }

  /** The outcome of `loadBones` on an arena `s`: with `k` the first bone that
      has an index out of range, it succeeds exactly when there is none;
      every bone before `k` is resolved; bone `k` only has its index set (and
      possibly some of its references); bones after `k` are untouched. */
  lemma LoadOutcome(s: seq<Bone>)
    ensures |Load(s, 0).0| == |s|
    ensures Load(s, 0).1 <==> FirstBad(s, 0) == |s|
    ensures forall j :: 0 <= j < FirstBad(s, 0) ==> ResolvedFrom(Load(s, 0).0[j], s, j)
    ensures forall j :: FirstBad(s, 0) < j < |s| ==> Load(s, 0).0[j] == s[j]
    ensures FirstBad(s, 0) < |s| ==> Load(s, 0).0[FirstBad(s, 0)].index == FirstBad(s, 0)
  {
    LoadFrom(s, s, 0);
  }

  /** `loadBones` fails exactly when some bone has a parent, target or child
      index at or above the bone count; negative indices are accepted. */
  lemma LoadSucceedsIff(s: seq<Bone>)
    ensures Load(s, 0).1 <==> forall j :: 0 <= j < |s| ==> BoneInRange(s[j], |s|)
  {
    LoadOutcome(s);
  }

  /** Loading never changes what the bones serialize to, and never changes
      the size estimate. */
  lemma LoadKeepsRecords(s: seq<Bone>)
    ensures |Load(s, 0).0| == |s|
    ensures forall j :: 0 <= j < |s| ==> Write(Load(s, 0).0[j]) == Write(s[j])
    ensures TotalSize(Load(s, 0).0) == TotalSize(s)
  {
    LoadFrom(s, s, 0);
    var r := Load(s, 0).0;
    var k := FirstBad(s, 0);
    forall j | 0 <= j < |s| ensures Stripped(r[j]) == Stripped(s[j]) {
      if j < k { assert ResolvedFrom(r[j], s, j); }
    }
    forall j | 0 <= j < |s| ensures Write(r[j]) == Write(s[j]) {
      WriteIgnoresResolution(r[j], s[j]);
    }
    TotalSizeOfSameConstraints(r, s);
  }

  lemma {:induction false} TotalSizeOfSameConstraints(r: seq<Bone>, s: seq<Bone>)
    requires |r| == |s|
    requires forall j :: 0 <= j < |s| ==> Stripped(r[j]) == Stripped(s[j])
    ensures TotalSize(r) == TotalSize(s)
  {
    if s != [] {
      var n := |s| - 1;
      assert r[n].constraint == Stripped(r[n]).constraint == Stripped(s[n]).constraint == s[n].constraint;
      TotalSizeOfSameConstraints(r[..n], s[..n]);
    }
  }

  /** After a successful load of freshly read bones (offset equal to origin
      and no references yet), every bone's parent is the bone its record
      names, and its offset plus `destinationOrigin` gives back its origin. */
  lemma LoadedOffsets(s: seq<Bone>)
    requires forall j :: 0 <= j < |s| ==> s[j].offset == s[j].origin && s[j].parentBoneRef.None?
    requires Load(s, 0).1
    ensures |Load(s, 0).0| == |s|
    ensures forall j :: 0 <= j < |s| ==>
      var b := Load(s, 0).0[j];
      b.index == j &&
      (b.parentBoneRef.Some? <==> s[j].parentBoneIndex >= 0) &&
      (b.parentBoneRef.Some? ==> b.parentBoneRef.value == s[j].parentBoneIndex < |s|)
    ensures forall j :: 0 <= j < |s| ==>
      var r := Load(s, 0).0;
      (r[j].parentBoneRef.Some? ==> r[j].parentBoneRef.value < |r|) &&
      r[j].offset.Add(DestinationOrigin(r, j)) == r[j].origin
  {
    LoadOutcome(s);
    var r := Load(s, 0).0;
    forall j | 0 <= j < |s|
      ensures (r[j].parentBoneRef.Some? ==> r[j].parentBoneRef.value < |r|)
      ensures r[j].parentBoneRef.Some? ==> r[j].offset.Add(DestinationOrigin(r, j)) == r[j].origin
    {
      assert ResolvedFrom(r[j], s, j);
      if r[j].parentBoneRef.Some? {
        var p := s[j].parentBoneIndex;
        assert ResolvedFrom(r[p], s, p);
        assert r[p].origin == Stripped(r[p]).origin == Stripped(s[p]).origin;
        assert r[j].origin == Stripped(r[j]).origin == Stripped(s[j]).origin;
      }
    }
    forall j | 0 <= j < |s|
      ensures r[j].offset.Add(DestinationOrigin(r, j)) == r[j].origin
    {
      assert ResolvedFrom(r[j], s, j);
      if r[j].parentBoneRef.None? {
        assert r[j].origin == Stripped(r[j]).origin == Stripped(s[j]).origin;
      }
    }
  }
}
