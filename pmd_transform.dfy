/** The per-bone pose update (`Bone::performTransform` and
    `Bone::getLocalTransform`, libvpvl2/src/core/pmd/Bone.cc). The rotation is
    chosen by the bone type, the translation is the offset plus the animated
    local position, a parent's world transform is applied on the left, and the
    skinning transform moves the bone's origin back to zero first. */
module PmdTransform {
  import opened Geometry
  import opened PmdBone

  /** Every resolved reference names a bone of the arena. */
  predicate RefsValid(s: seq<Bone>)
  {
    forall j :: 0 <= j < |s| ==>
      (s[j].parentBoneRef.Some? ==> s[j].parentBoneRef.value < |s|) &&
      (s[j].targetBoneRef.Some? ==> s[j].targetBoneRef.value < |s|) &&
      (s[j].childBoneRef.Some? ==> s[j].childBoneRef.value < |s|)
  }

  /** A bone with its pose cleared: what a pose update leaves alone. */
  function Unposed(b: Bone): Bone
  {
    b.(worldTransform := TIdentity, localTransform := TIdentity)
  }

  /** `getLocalTransform(world, out)`: world · Translation(−origin). */
  function LocalTransformOf(b: Bone, world: Transform): Transform
  {
    TMul(world, Translation(b.origin.Neg()))
  }

  /** The rotation `performTransform` installs for bone `i`. */
  function RotationOf(s: seq<Bone>, i: nat): Quat
    requires i < |s| && RefsValid(s)
  {
    var b := s[i];
    if b.boneType == UnderRotate && b.targetBoneRef.Some? then
      QMul(b.rotation, s[b.targetBoneRef.value].rotation)
    else if b.boneType == FollowRotate && b.childBoneRef.Some? then
      QSlerp(QIdentity, b.rotation, b.targetBoneIndex as real * 0.01)
    else b.rotation
  }

  /** The bone's own transform before its parent is applied. */
  function OwnTransform(s: seq<Bone>, i: nat): Transform
    requires i < |s| && RefsValid(s)
  {
    TRotTrans(RotationOf(s, i), s[i].offset.Add(s[i].localPosition))
  }

  /** Bone `i` after `performTransform`. The own transform is stored in the
      world transform before the parent's is read, so a bone that is its own
      parent is multiplied by its own transform. */
  function Transformed(s: seq<Bone>, i: nat): (b: Bone)
    requires i < |s| && RefsValid(s)
    ensures Unposed(b) == Unposed(s[i])
    ensures b.localTransform == LocalTransformOf(s[i], b.worldTransform)
    ensures s[i].parentBoneRef.None? ==> b.worldTransform == OwnTransform(s, i)
    ensures s[i].parentBoneRef == Some(i) ==> b.worldTransform == TMul(OwnTransform(s, i), OwnTransform(s, i))
  {
    var own := OwnTransform(s, i);
    var stored := s[i := s[i].(worldTransform := own)];
    var world := if s[i].parentBoneRef.Some? then TMul(stored[s[i].parentBoneRef.value].worldTransform, own) else own;
    s[i].(worldTransform := world, localTransform := LocalTransformOf(s[i], world))
  }

  /** `performTransform` on bone `i` of the arena. */
  method PerformTransform(bones: array<Bone>, i: nat)
    requires i < bones.Length && RefsValid(bones[..])
    modifies bones
    ensures bones[..] == old(bones[..])[i := Transformed(old(bones[..]), i)]
  {
    var bone := bones[i];
    var rotation: Quat;
    if bone.boneType == UnderRotate && bone.targetBoneRef.Some? {
      rotation := QMul(bone.rotation, bones[bone.targetBoneRef.value].rotation);
    } else if bone.boneType == FollowRotate && bone.childBoneRef.Some? {
      var coef := bone.targetBoneIndex as real * 0.01;
      rotation := QSlerp(QIdentity, bone.rotation, coef);
    } else {
      rotation := bone.rotation;
    }
    var world := TRotTrans(rotation, bone.offset.Add(bone.localPosition));
    bones[i] := bone.(worldTransform := world);
    if bone.parentBoneRef.Some? {
      world := TMul(bones[bone.parentBoneRef.value].worldTransform, world);
    }
    bones[i] := bone.(worldTransform := world, localTransform := LocalTransformOf(bone, world));
  }

  /** Every parent comes before its child in the arena. */
  predicate ParentsFirst(s: seq<Bone>)
  {
    forall j :: 0 <= j < |s| && s[j].parentBoneRef.Some? ==> s[j].parentBoneRef.value < j
  }

  /** The world transform the pose chain defines: the product of the bones'
      own transforms from the root down to bone `j`. */
  function Chain(s: seq<Bone>, j: nat): Transform
    requires j < |s| && RefsValid(s) && ParentsFirst(s)
    decreases j
  {
    if s[j].parentBoneRef.Some? then TMul(Chain(s, s[j].parentBoneRef.value), OwnTransform(s, j))
    else OwnTransform(s, j)
  }

  /** The arena after `performTransform` ran on bones `0 .. k-1` in order. */
  function TransformPrefix(s: seq<Bone>, k: nat): (r: seq<Bone>)
    requires k <= |s| && RefsValid(s)
    ensures |r| == |s|
    ensures forall j :: 0 <= j < |s| ==>
      Unposed(r[j]) == Unposed(s[j])
  {
    if k == 0 then s
    else
      var t := TransformPrefix(s, k - 1);
      SameRefs(s, t);
      t[k - 1 := Transformed(t, k - 1)]
  }

  /** Transforming a bone reads other bones only for their rotation and their
      world transform. */
  lemma OwnTransformAgrees(s: seq<Bone>, t: seq<Bone>, i: nat)
    requires |s| == |t| && i < |s| && RefsValid(s) && RefsValid(t)
    requires forall j :: 0 <= j < |s| ==>
      Unposed(t[j]) == Unposed(s[j])
    ensures OwnTransform(t, i) == OwnTransform(s, i)
  {
    assert t[i].rotation == s[i].rotation;
    var b := s[i];
    if b.targetBoneRef.Some? {
      var k := b.targetBoneRef.value;
      assert t[k].rotation == s[k].rotation;
    }
  }

  /** An arena that differs from `s` only in world and skinning transforms
      has the same references. */
  lemma SameRefs(s: seq<Bone>, t: seq<Bone>)
    requires |s| == |t| && RefsValid(s)
    requires forall j :: 0 <= j < |s| ==>
      Unposed(t[j]) == Unposed(s[j])
    ensures RefsValid(t)
  {
    assert forall j :: 0 <= j < |s| ==>
      t[j].parentBoneRef == s[j].parentBoneRef && t[j].targetBoneRef == s[j].targetBoneRef &&
      t[j].childBoneRef == s[j].childBoneRef;
  }

  /** Bones `0 .. k-1` of `r` carry the world transforms of the pose chain of
      `s` and the matching skinning transforms. */
  predicate Posed(r: seq<Bone>, s: seq<Bone>, k: nat)
    requires k <= |r| && k <= |s| && RefsValid(s) && ParentsFirst(s)
  {
    forall j :: 0 <= j < k ==>
      r[j].worldTransform == Chain(s, j) && r[j].localTransform == LocalTransformOf(s[j], Chain(s, j))
  }

  /** Transforming bone `i` after all bones before it carry their chained
      transforms gives bone `i` its own chained transforms. */
  lemma TransformedChain(s: seq<Bone>, t: seq<Bone>, i: nat)
    requires i < |s| == |t| && RefsValid(s) && RefsValid(t) && ParentsFirst(s)
    requires forall j :: 0 <= j < |s| ==> Unposed(t[j]) == Unposed(s[j])
    requires Posed(t, s, i)
    ensures Posed(t[i := Transformed(t, i)], s, i + 1)
  {
    OwnTransformAgrees(s, t, i);
    assert t[i].origin == Unposed(t[i]).origin == Unposed(s[i]).origin == s[i].origin;
    assert t[i].parentBoneRef == Unposed(t[i]).parentBoneRef == Unposed(s[i]).parentBoneRef == s[i].parentBoneRef;
    if t[i].parentBoneRef.Some? {
      assert t[t[i].parentBoneRef.value].worldTransform == Chain(s, t[i].parentBoneRef.value);
    }
  }

  /** Updating the bones in arena order, with parents before children, leaves
      every bone below `k` with the world transform of the pose chain and the
      matching skinning transform. */
  lemma {:induction false} TransformPrefixChain(s: seq<Bone>, k: nat)
    requires k <= |s| && RefsValid(s) && ParentsFirst(s)
    ensures Posed(TransformPrefix(s, k), s, k)
  {
    if k > 0 {
      TransformPrefixChain(s, k - 1);
      var t := TransformPrefix(s, k - 1);
      SameRefs(s, t);
      TransformedChain(s, t, k - 1);
    }
  }

  /** One full update pass over an arena whose parents come first gives every
      bone its chained world transform. */
  lemma PoseChain(s: seq<Bone>)
    requires RefsValid(s) && ParentsFirst(s)
    ensures forall j :: 0 <= j < |s| ==>
      TransformPrefix(s, |s|)[j].worldTransform == Chain(s, j) &&
      TransformPrefix(s, |s|)[j].localTransform == LocalTransformOf(s[j], Chain(s, j))
  {
    TransformPrefixChain(s, |s|);
    assert Posed(TransformPrefix(s, |s|), s, |s|);
  }
}
