/** A PMD bone: the on-disk record, the in-memory bone, the record reader
    and writer, the size estimates, the effector list and the type
    predicates (libvpvl2/src/core/pmd/Bone.cc).

    Bones live in an arena: a model holds its bones in one array and a bone
    refers to another one by its position in that array. */
module PmdBone {
  import opened Geometry

  /** Width in bytes of the bone name field of a PMD bone record. */
  const NameSize: nat := 20

  /** The packed `BoneUnit`: name, parent, child, type, target, position. */
  const BoneUnitSize: nat := NameSize + 2 + 2 + 1 + 2 + 3 * 4

  /** The packed `IKUnit` header: root, target, link count, iterations, angle. */
  const IKUnitSize: nat := 2 + 2 + 1 + 2 + 4

  /** Each IK link is one unsigned 16-bit bone index. */
  const LinkSize: nat := 2

  /** Bone type codes of the PMD format. */
  const Rotate: uint8 := 0
  const RotateAndMove: uint8 := 1
  const IKDestination: uint8 := 2
  const Unknown: uint8 := 3
  const UnderIK: uint8 := 4
  const UnderRotate: uint8 := 5
  const IKTarget: uint8 := 6
  const Invisible: uint8 := 7
  const Twist: uint8 := 8
  const FollowRotate: uint8 := 9

  /** A decoded `BoneUnit`; the name stays the raw bytes of the record. */
  datatype BoneUnit = BoneUnit(
    name: seq<uint8>,
    parentBoneID: int16,
    childBoneID: int16,
    boneType: uint8,
    targetBoneID: int16,
    position: Vec3)

  /** A decoded `IKUnit`. */
  datatype IKUnit = IKUnit(
    rootBoneID: int16,
    targetBoneID: int16,
    nlinks: uint8,
    iterations: uint16,
    angle: real)

  /** An IK constraint owned by its root bone; bones are arena positions. */
  datatype IKConstraint = IKConstraint(
    effectors: seq<nat>,
    root: nat,
    target: nat,
    iterations: int,
    angle: real)

  /** The fields of a PMD bone. The three `*BoneIndex` fields are the raw
      record values (negative for "none"); the `*BoneRef` fields are the
      resolved arena positions. `inverseKinematicsEnabled` is what
      `IBone::setInverseKinematicsEnable` last stored: the rigid body's
      `setBoneRef` calls it, but Bone.cc neither declares that member nor
      holds the flag, so the model keeps it here, starting enabled, and
      nothing in Bone.cc reads it. */
  datatype Bone = Bone(
    name: seq<uint8>,
    parentBoneRef: Option<nat>,
    targetBoneRef: Option<nat>,
    childBoneRef: Option<nat>,
    constraint: Option<IKConstraint>,
    origin: Vec3,
    offset: Vec3,
    localPosition: Vec3,
    rotation: Quat,
    worldTransform: Transform,
    localTransform: Transform,
    boneType: uint8,
    index: int,
    parentBoneIndex: int,
    targetBoneIndex: int,
    childBoneIndex: int,
    simulated: bool,
    inverseKinematicsEnabled: bool)

  /** A freshly constructed bone: no name, no references, no constraint,
      identity rotation and transforms, type unknown, index -1. */
  function NewBone(): (b: Bone)
    ensures b.parentBoneRef.None? && b.targetBoneRef.None? && b.childBoneRef.None?
    ensures b.constraint.None? && b.index == -1 && b.boneType == Unknown
  {
    Bone([], None, None, None, None, Zero, Zero, Zero, QIdentity,
         TIdentity, TIdentity, Unknown, -1, 0, 0, 0, false, true)
  }

  /** `readBone`: copies the record into the bone (the offset starts equal to
      the origin) and reports the bytes consumed. */
  function ReadBone(b: Bone, unit: BoneUnit): (r: (Bone, nat))
    ensures r.1 == BoneUnitSize
    ensures r.0.origin == unit.position && r.0.offset == unit.position
    ensures r.0.name == unit.name && r.0.boneType == unit.boneType
    ensures r.0.parentBoneIndex == unit.parentBoneID as int && r.0.childBoneIndex == unit.childBoneID as int
    ensures r.0.targetBoneIndex == unit.targetBoneID as int
    ensures r.0.(name := b.name, childBoneIndex := b.childBoneIndex, parentBoneIndex := b.parentBoneIndex,
                 targetBoneIndex := b.targetBoneIndex, boneType := b.boneType, origin := b.origin,
                 offset := b.offset) == b
  {
    (b.(name := unit.name,
        childBoneIndex := unit.childBoneID as int,
        parentBoneIndex := unit.parentBoneID as int,
        targetBoneIndex := unit.targetBoneID as int,
        boneType := unit.boneType,
        origin := unit.position,
        offset := unit.position),
     BoneUnitSize)
  }

  /** `write`: the record of a bone. The indices are narrowed to 16 bits and
      the position written is the origin, never the parent-relative offset. */
  function Write(b: Bone): BoneUnit
  {
    BoneUnit(b.name, ToInt16(b.parentBoneIndex), ToInt16(b.childBoneIndex),
             b.boneType, ToInt16(b.targetBoneIndex), b.origin)
  }

  /** Reading a record and writing the bone back gives the same record. */
  lemma ReadWriteRoundTrip(b: Bone, unit: BoneUnit)
    ensures Write(ReadBone(b, unit).0) == unit
  {
  }

  /** The fields `loadBones` never changes: everything but the index, the
      offset and the three resolved references. */
  function Stripped(b: Bone): Bone
  {
    b.(index := -1, offset := Zero,
       parentBoneRef := None, targetBoneRef := None, childBoneRef := None)
  }

  /** What `write` emits depends only on the fields `loadBones` keeps, so
      resolving the references never changes the serialized record. */
  lemma WriteIgnoresResolution(a: Bone, b: Bone)
    requires Stripped(a) == Stripped(b)
    ensures Write(a) == Write(b)
  {
    assert a.name == Stripped(a).name && b.name == Stripped(b).name;
    assert a.origin == Stripped(a).origin && b.origin == Stripped(b).origin;
    assert a.parentBoneIndex == Stripped(a).parentBoneIndex;
    assert b.parentBoneIndex == Stripped(b).parentBoneIndex;
  }

  /** `estimateBoneSize`. */
  function EstimateBoneSize(b: Bone): nat
  {
    BoneUnitSize
  }

  /** `estimateIKConstraintsSize`: nothing without a constraint, otherwise the
      header plus one link per effector kept. */
  function EstimateIKConstraintsSize(b: Bone): (r: nat)
    ensures r == 0 <==> b.constraint.None?
    ensures b.constraint.Some? ==> r >= IKUnitSize
  {
    if b.constraint.Some? then IKUnitSize + LinkSize * |b.constraint.value.effectors| else 0
  }

  /** The sum `estimateTotalSize` accumulates over a bone sequence. */
  function TotalSize(s: seq<Bone>): nat
  {
    if s == [] then 0
    else TotalSize(s[..|s| - 1]) + EstimateBoneSize(s[|s| - 1]) + EstimateIKConstraintsSize(s[|s| - 1])
  }

  /** The total is additive over concatenation. */
  lemma {:induction false} TotalSizeAppend(s: seq<Bone>, t: seq<Bone>)
    ensures TotalSize(s + t) == TotalSize(s) + TotalSize(t)
    decreases |t|
  {
    if t == [] {
      assert s + t == s;
    } else {
      var u := t[..|t| - 1];
      assert (s + t)[..|s + t| - 1] == s + u;
      assert (s + t)[|s + t| - 1] == t[|t| - 1];
      TotalSizeAppend(s, u);
    }
  }

  /** Every bone contributes at least its fixed-size record, and exactly that
      when no bone owns a constraint. */
  lemma {:induction false} TotalSizeBounds(s: seq<Bone>)
    ensures TotalSize(s) >= |s| * BoneUnitSize
    ensures (forall j :: 0 <= j < |s| ==> s[j].constraint.None?) ==> TotalSize(s) == |s| * BoneUnitSize
  {
    if s != [] {
      TotalSizeBounds(s[..|s| - 1]);
    }
  }

  /** `estimateTotalSize`. */
  method EstimateTotalSize(bones: array<Bone>) returns (size: nat)
    ensures size == TotalSize(bones[..])
    ensures size >= bones.Length * BoneUnitSize
  {
    size := 0;
    var i := 0;
    while i < bones.Length
      invariant 0 <= i <= bones.Length
      invariant size == TotalSize(bones[..i])
    {
      assert bones[..i + 1][..i] == bones[..i];
      size := size + EstimateBoneSize(bones[i]);
      size := size + EstimateIKConstraintsSize(bones[i]);
      i := i + 1;
    }
    assert bones[..i] == bones[..];
    TotalSizeBounds(bones[..]);
  }

  /** `getEffectorBones`: appends the constraint's effectors, if any, to `value`. */
  method GetEffectorBones(b: Bone, value: seq<nat>) returns (r: seq<nat>)
    ensures b.constraint.None? ==> r == value
    ensures b.constraint.Some? ==> r == value + b.constraint.value.effectors
  {
    r := value;
    if b.constraint.Some? {
      var effectors := b.constraint.value.effectors;
      var i := 0;
      while i < |effectors|
        invariant 0 <= i <= |effectors|
        invariant r == value + effectors[..i]
      {
        assert effectors[..i + 1] == effectors[..i] + [effectors[i]];
        r := r + [effectors[i]];
        i := i + 1;
      }
      assert effectors[..i] == effectors;
    }
  }

  /** `destinationOrigin`: the parent's origin, or zero for a root bone. */
  function DestinationOrigin(s: seq<Bone>, j: nat): Vec3
    requires j < |s|
    requires s[j].parentBoneRef.Some? ==> s[j].parentBoneRef.value < |s|
  {
    if s[j].parentBoneRef.Some? then s[s[j].parentBoneRef.value].origin else Zero
  }

  predicate IsMovable(b: Bone) { b.boneType == RotateAndMove }
  predicate IsRotateable(b: Bone) { b.boneType == Rotate || b.boneType == RotateAndMove }
  predicate IsVisible(b: Bone) { b.boneType != Invisible }
  predicate IsInteractive(b: Bone) { IsRotateable(b) }
  predicate HasInverseKinematics(b: Bone) { b.boneType == IKDestination }
  predicate HasFixedAxes(b: Bone) { b.boneType == Twist }

  /** How the capabilities relate: interactive means rotateable, a movable
      bone is rotateable and visible, an IK bone is neither movable nor
      rotateable, and every predicate depends on the type byte alone. */
  lemma CapabilityPredicates(b: Bone, c: Bone)
    ensures IsInteractive(b) <==> IsRotateable(b)
    ensures IsMovable(b) ==> IsRotateable(b) && IsVisible(b)
    ensures HasInverseKinematics(b) ==> !IsRotateable(b) && !HasFixedAxes(b)
    ensures !IsVisible(b) ==> !IsRotateable(b)
    ensures b.boneType == c.boneType ==>
      (IsMovable(b) == IsMovable(c) && IsRotateable(b) == IsRotateable(c) &&
       IsVisible(b) == IsVisible(c) && HasInverseKinematics(b) == HasInverseKinematics(c) &&
       HasFixedAxes(b) == HasFixedAxes(c))
  {
  }
}
