/** Decoding of one IK record into a constraint on its root bone
    (`Bone::readIKConstraint`, libvpvl2/src/core/pmd/Bone.cc). The record is
    tolerant: a root or target out of range drops the whole constraint, an
    effector out of range drops only that link, and the bytes consumed do not
    depend on either. */
module PmdIK {
  import opened Geometry
  import opened PmdBone

  /** `checkBound(v, 0, n)`. */
  predicate InBounds(v: int, n: nat)
  {
    0 <= v < n
  }

  /** The links that name an existing bone, in record order. */
  function KeptLinks(links: seq<uint16>, n: nat): (r: seq<nat>)
    ensures |r| <= |links|
  {
    if links == [] then []
    else
      var last := links[|links| - 1];
      KeptLinks(links[..|links| - 1], n) + (if InBounds(last as int, n) then [last as nat] else [])
  }

  /** The number of links dropped for being out of range. */
  function DroppedLinks(links: seq<uint16>, n: nat): nat
  {
    if links == [] then 0
    else DroppedLinks(links[..|links| - 1], n) + (if InBounds(links[|links| - 1] as int, n) then 0 else 1)
  }

  /** A bone is an effector exactly when some link names it and it is in
      range; every link is either kept or counted as dropped. */
  lemma {:induction false} KeptLinksMembers(links: seq<uint16>, n: nat)
    ensures forall x :: x in KeptLinks(links, n) <==> x < n && exists k :: 0 <= k < |links| && links[k] as int == x
    ensures |KeptLinks(links, n)| + DroppedLinks(links, n) == |links|
  {
    if links != [] {
      var init := links[..|links| - 1];
      KeptLinksMembers(init, n);
      forall x ensures x in KeptLinks(links, n) <==> x < n && exists k :: 0 <= k < |links| && links[k] as int == x {
        if x < n && exists k :: 0 <= k < |links| && links[k] as int == x {
          var k :| 0 <= k < |links| && links[k] as int == x;
          if k < |links| - 1 { assert init[k] == links[k]; }
        }
        if x in KeptLinks(init, n) {
          var k :| 0 <= k < |init| && init[k] as int == x;
          assert links[k] == init[k];
        }
      }
    }
  }

  /** Kept links appear in record order: the effectors of the links of
      `a + b` are those of `a` followed by those of `b`. */
  lemma {:induction false} KeptLinksAppend(a: seq<uint16>, b: seq<uint16>, n: nat)
    ensures KeptLinks(a + b, n) == KeptLinks(a, n) + KeptLinks(b, n)
    decreases |b|
  {
    if b == [] {
      assert a + b == a;
    } else {
      var init := b[..|b| - 1];
      assert (a + b)[..|a + b| - 1] == a + init;
      assert (a + b)[|a + b| - 1] == b[|b| - 1];
      KeptLinksAppend(a, init, n);
    }
  }

  /** The arena after the record was applied: the root bone gets a new
      constraint when both the root and the target are in range. */
  function AttachConstraint(s: seq<Bone>, unit: IKUnit, links: seq<uint16>): (r: seq<Bone>)
    ensures |r| == |s|
  {
    var n := |s|;
    if InBounds(unit.targetBoneID as int, n) && InBounds(unit.rootBoneID as int, n) then
      var root := unit.rootBoneID as nat;
      s[root := s[root].(constraint := Some(IKConstraint(KeptLinks(links, n), root,
                                                          unit.targetBoneID as nat,
                                                          unit.iterations as int, unit.angle)))]
    else s
  }

  /** `readIKConstraint` on a decoded header and the record's link list. */
  method ReadIKConstraint(bones: array<Bone>, unit: IKUnit, links: seq<uint16>) returns (size: nat)
    requires |links| == unit.nlinks as int
    modifies bones
    ensures bones[..] == AttachConstraint(old(bones[..]), unit, links)
    ensures size == IKUnitSize + LinkSize * unit.nlinks as nat
  {
    var nlinks := unit.nlinks as int;
    var nbones := bones.Length;
    var targetIndex := unit.targetBoneID as int;
    var rootIndex := unit.rootBoneID as int;
    if InBounds(targetIndex, nbones) && InBounds(rootIndex, nbones) {
      var effectors: seq<nat> := [];
      var i := 0;
      while i < nlinks
        invariant 0 <= i <= nlinks
        invariant effectors == KeptLinks(links[..i], nbones)
      {
        assert links[..i + 1][..i] == links[..i];
        var boneIndex := links[i] as int;
        if InBounds(boneIndex, nbones) {
          effectors := effectors + [boneIndex];
        }
        i := i + 1;
      }
      assert links[..i] == links;
      bones[rootIndex] := bones[rootIndex].(constraint := Some(IKConstraint(effectors, rootIndex, targetIndex,
                                                                           unit.iterations as int, unit.angle)));
    }
    size := IKUnitSize + LinkSize * nlinks;
  }

  /** What a record does to the arena: only the root bone may change, and only
      in its constraint; when it changes, the constraint names the root and
      the target, copies the iteration count and the angle, and keeps exactly
      the in-range links. When root or target is out of range nothing changes. */
  lemma AttachConstraintEffect(s: seq<Bone>, unit: IKUnit, links: seq<uint16>)
    ensures var r := AttachConstraint(s, unit, links);
      forall j :: 0 <= j < |s| && j != unit.rootBoneID as int ==> r[j] == s[j]
    ensures var r := AttachConstraint(s, unit, links);
      !(InBounds(unit.targetBoneID as int, |s|) && InBounds(unit.rootBoneID as int, |s|)) ==> r == s
    ensures var r := AttachConstraint(s, unit, links);
      InBounds(unit.targetBoneID as int, |s|) && InBounds(unit.rootBoneID as int, |s|) ==>
        var root := unit.rootBoneID as nat;
        r[root].(constraint := s[root].constraint) == s[root] &&
        r[root].constraint.Some? &&
        r[root].constraint.value.root == root &&
        r[root].constraint.value.target == unit.targetBoneID as nat &&
        r[root].constraint.value.iterations == unit.iterations as int &&
        r[root].constraint.value.angle == unit.angle &&
        (forall x :: x in r[root].constraint.value.effectors <==>
           x < |s| && exists k :: 0 <= k < |links| && links[k] as int == x)
  {
    KeptLinksMembers(links, |s|);
  }

  /** The size a record reports equals what the size estimate counts for the
      root's new constraint plus two bytes per dropped link: the estimate
      undercounts a record whose links were filtered. */
  lemma ConsumedVersusEstimate(s: seq<Bone>, unit: IKUnit, links: seq<uint16>)
    requires |links| == unit.nlinks as int
    requires InBounds(unit.targetBoneID as int, |s|) && InBounds(unit.rootBoneID as int, |s|)
    ensures EstimateIKConstraintsSize(AttachConstraint(s, unit, links)[unit.rootBoneID as int])
            + LinkSize * DroppedLinks(links, |s|)
            == IKUnitSize + LinkSize * unit.nlinks as nat
  {
    KeptLinksMembers(links, |s|);
  }
}
