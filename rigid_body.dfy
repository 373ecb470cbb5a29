/** A rigid body of a model bound to one of its bones
    (libvpvl2/src/core/internal/BaseRigidBody.cc and
    libvpvl2/include/vpvl2/internal/BaseRigidBody.h).

    The Bullet body is an abstract record: its collision flags, the motion
    state it reads its pose from, its centre-of-mass and interpolation
    transforms, its constant construction parameters and its accumulated
    forces. Dynamics, inertia and the broad phase are not modelled. Bones are
    the model's bone arena; a body refers to its bone by arena position, or to
    the shared null bone when it is unbound. */
module RigidBodies {
  import opened Geometry
  import opened PmdBone
  import opened PmdTransform

  datatype ObjectType = StaticObject | DynamicObject | AlignedObject

  datatype ShapeType = SphereShape | BoxShape | CapsuleShape | UnknownShape

  /** The Bullet collision shapes `createShape` can build. */
  datatype CollisionShape =
    | Sphere(radius: real)
    | Box(halfExtents: Vec3)
    | Capsule(radius: real, height: real)

  /** The body's bone: never a null pointer, since the constructor and
      `setBoneRef(0)` both install the factory's shared null bone. */
  datatype BoneRef = SharedNullBone | BoneAt(index: nat)

  datatype Language = DefaultLanguage | Japanese | English | OtherLanguage

  /** The property events a body sends to its listeners before a change. */
  datatype Event =
    | NameWillChange(name: string, language: Language)
    | BoneRefWillChange(bone: Option<nat>)
    | AngularDampingWillChange(angularDamping: real)
    | CollisionGroupIDWillChange(groupID: uint8)
    | CollisionMaskWillChange(mask: uint16)
    | FrictionWillChange(friction: real)
    | LinearDampingWillChange(linearDamping: real)
    | MassWillChange(mass: real)
    | PositionWillChange(position: Vec3)
    | RestitutionWillChange(restitution: real)
    | RotationWillChange(rotation: Vec3)
    | ShapeTypeWillChange(shapeType: ShapeType)
    | SizeWillChange(size: Vec3)
    | ObjectTypeWillChange(objectType: ObjectType)

  /** One listener callback: which listener was told what. */
  datatype Notification = Notification(listener: nat, event: Event)

  /** `DISABLE_DEACTIVATION`. */
  const DisableDeactivation: int := 4

  /** The local transform the shared null bone reports. The null bone's class
      is not part of this model, so its value is an opaque transform. */
  const NullBoneLocalTransform: Transform := TNamed("shared null bone local transform")

  /** `VPVL2_TRIGGER_PROPERTY_EVENTS`: every listener, in list order, is
      told about the event. */
  function Fired(listeners: seq<nat>, e: Event): (r: seq<Notification>)
    ensures |r| == |listeners|
    ensures forall k :: 0 <= k < |r| ==> r[k] == Notification(listeners[k], e)
  {
    if listeners == [] then [] else [Notification(listeners[0], e)] + Fired(listeners[1..], e)
  }

  /** The collision flags `setActivation` installs on a non-static body. The
      bit 2 is `btCollisionObject::CF_KINEMATIC_OBJECT`. */
  function ActivationFlags(flags: bv32, active: bool): bv32
  {
    if active then flags & !2 else flags | 2
  }

  /** Activation touches exactly one flag bit: the kinematic bit ends up clear
      for an active body and set for an inactive one, and every other bit
      keeps its value. */
  lemma ActivationFlagsOneBit(flags: bv32, active: bool)
    ensures ActivationFlags(flags, active) & !2 == flags & !2
    ensures (ActivationFlags(flags, active) & 2 == 0) == active
  {
  }

  /** Only the last activation counts: repeating it changes nothing and it
      undoes the opposite one. */
  lemma ActivationFlagsLastWins(flags: bv32, active: bool)
    ensures ActivationFlags(ActivationFlags(flags, active), active) == ActivationFlags(flags, active)
    ensures ActivationFlags(ActivationFlags(flags, !active), active) == ActivationFlags(flags, active)
  {
  }

  predicate NoDuplicates(s: seq<nat>)
  {
    forall i, j :: 0 <= i < j < |s| ==> s[i] != s[j]
  }

  /** `Array::remove`, which removes through the underlying Bullet array: the
      first occurrence is overwritten by the last element and the array
      shrinks by one. */
  function Removed(s: seq<nat>, x: nat): (r: seq<nat>)
    ensures x !in s ==> r == s
    ensures x in s ==> |r| == |s| - 1
  {
    if x !in s then s
    else
      var i := FirstIndex(s, x);
      s[i := s[|s| - 1]][..|s| - 1]
  }

  function FirstIndex(s: seq<nat>, x: nat): (i: nat)
    requires x in s
    ensures i < |s| && s[i] == x && x !in s[..i]
  {
    if s[0] == x then 0 else 1 + FirstIndex(s[1..], x)
  }

  /** `addEventListenerRef` on a non-null listener: remove, then append. */
  function Added(s: seq<nat>, x: nat): seq<nat>
  {
    Removed(s, x) + [x]
  }

  /** Removing a listener from a duplicate-free list takes out exactly that
      listener and keeps the list duplicate-free. */
  lemma RemovedMembers(s: seq<nat>, x: nat)
    requires NoDuplicates(s)
    ensures NoDuplicates(Removed(s, x))
    ensures forall y :: y in Removed(s, x) <==> y in s && y != x
  {
    if x in s {
      var i := FirstIndex(s, x);
      var n := |s| - 1;
      var r := Removed(s, x);
      assert forall k :: 0 <= k < n ==> r[k] == (if k == i then s[n] else s[k]);
      forall y ensures y in r <==> y in s && y != x {
        if y in s && y != x {
          var k :| 0 <= k < |s| && s[k] == y;
          if k == n { assert r[i] == y; } else { assert r[k] == y; }
        }
      }
    }
  }

  /** Adding a listener to a duplicate-free list keeps it duplicate-free,
      puts the listener last, adds nothing else, and doing it again changes
      nothing. */
  lemma AddedMembers(s: seq<nat>, x: nat)
    requires NoDuplicates(s)
    ensures NoDuplicates(Added(s, x))
    ensures Added(s, x)[|Added(s, x)| - 1] == x
    ensures forall y :: y in Added(s, x) <==> y in s || y == x
    ensures Added(Added(s, x), x) == Added(s, x)
  {
    RemovedMembers(s, x);
    var t := Added(s, x);
    var r := Removed(s, x);
    assert forall k :: 0 <= k < |r| ==> t[k] == r[k] && t[k] != x;
    assert x in t && FirstIndex(t, x) == |t| - 1;
    assert t[|t| - 1 := t[|t| - 1]] == t;
    assert t[..|t| - 1] == r;
  }

  /** `btRigidBodyConstructionInfo` without the motion state and the local
      inertia. */
  datatype ConstructionInfo = ConstructionInfo(
    mass: real,
    shape: Option<CollisionShape>,
    linearDamping: real,
    angularDamping: real,
    restitution: real,
    friction: real,
    additionalDamping: bool)

  /** Bullet's `btRigidBody`, reduced to the state this code reads and writes. */
  /** The binding `setBoneRef(value)` leaves, from the one before it: the
      same bone is silent and changes nothing; a different bone of the arena
      is announced, becomes the body's bone, lends its index and has its IK
      enabled exactly when the body is static; a null pointer is announced
      and reinstalls the shared null bone with index -1. */
  function Rebound(value: Option<nat>, boneRef: BoneRef, boneIndex: int,
                   notifications: seq<Notification>, bones: seq<Bone>,
                   eventRefs: seq<nat>, isStatic: bool)
    : (r: (BoneRef, int, seq<Notification>, seq<Bone>))
    requires value.Some? ==> value.value < |bones|
    ensures |r.3| == |bones|
    ensures value.Some? ==> r.0 == BoneAt(value.value)
    ensures value.None? ==> r.0 == SharedNullBone && r.1 == -1
    ensures value.Some? && boneRef == BoneAt(value.value) ==> r == (boneRef, boneIndex, notifications, bones)
    ensures value.Some? && boneRef != BoneAt(value.value) ==>
      r.1 == bones[value.value].index && r.3[value.value].inverseKinematicsEnabled == isStatic
    ensures !(value.Some? && boneRef == BoneAt(value.value)) ==>
      r.2 == notifications + Fired(eventRefs, BoneRefWillChange(value))
  {
    if value.Some? && boneRef == BoneAt(value.value) then
      (boneRef, boneIndex, notifications, bones)
    else
      var announced := notifications + Fired(eventRefs, BoneRefWillChange(value));
      if value.Some? then
        var i := value.value;
        (BoneAt(i), bones[i].index, announced,
         bones[i := bones[i].(inverseKinematicsEnabled := isStatic)])
      else
        (SharedNullBone, -1, announced, bones)
  }

  /** `setBoneRef` touches no bone of the arena but the one it binds. */
  lemma ReboundKeepsOtherBones(value: Option<nat>, boneRef: BoneRef, boneIndex: int,
                               notifications: seq<Notification>, bones: seq<Bone>,
                               eventRefs: seq<nat>, isStatic: bool, k: nat)
    requires value.Some? ==> value.value < |bones|
    requires k < |bones| && (value.None? || k != value.value)
    ensures Rebound(value, boneRef, boneIndex, notifications, bones, eventRefs, isStatic).3[k] == bones[k]
  {
  }

  class Body {
    var collisionFlags: bv32
    var motionState: MotionState?
    var centerOfMass: Transform
    var interpolationWorldTransform: Transform
    var totalForce: Vec3
    var totalTorque: Vec3
    var activationState: int
    var userPointer: RigidBody?
    const info: ConstructionInfo

    /** Bullet's constructor: the pose comes from the motion state and the
        initial flags are Bullet's own choice, passed in. */
    constructor (info: ConstructionInfo, motionState: MotionState, initialFlags: bv32, initialPose: Transform)
      ensures this.info == info && this.motionState == motionState
      ensures collisionFlags == initialFlags && userPointer == null && activationState == 1
      ensures centerOfMass == initialPose && interpolationWorldTransform == initialPose
      ensures totalForce == Zero && totalTorque == Zero
    {
      this.info := info;
      this.motionState := motionState;
      collisionFlags := initialFlags;
      userPointer := null;
      activationState := 1;
      centerOfMass := initialPose;
      interpolationWorldTransform := initialPose;
      totalForce := Zero;
      totalTorque := Zero;
    }

    /** `CF_KINEMATIC_OBJECT` is set. */
    predicate IsKinematic()
      reads this`collisionFlags
    {
      collisionFlags & 2 != 0
    }

    /** `btRigidBody::setMotionState`: the body takes the new state and, if
        there is one, reloads its centre of mass from it. */
    method SetMotionState(m: MotionState?)
      requires m != null && m.owner.boneRef.BoneAt? ==> m.owner.boneRef.index < m.owner.bones.Length
      modifies this`motionState, this`centerOfMass
      ensures motionState == m
      ensures centerOfMass == if m != null then m.GetWorldTransform() else old(centerOfMass)
    {
      motionState := m;
      if m != null {
        centerOfMass := m.GetWorldTransform();
      }
    }

    /** `btRigidBody::setCenterOfMassTransform`: the centre of mass moves to
        `xform`; a kinematic body interpolates from where it was, any other
        body from `xform`. */
    method SetCenterOfMassTransform(xform: Transform)
      modifies this`centerOfMass, this`interpolationWorldTransform
      ensures centerOfMass == xform
      ensures interpolationWorldTransform == if IsKinematic() then old(centerOfMass) else xform
    {
      if IsKinematic() {
        interpolationWorldTransform := centerOfMass;
      } else {
        interpolationWorldTransform := xform;
      }
      centerOfMass := xform;
    }
  }

  /** `DefaultMotionState` (kinematic == false) and `KinematicMotionState`
      (kinematic == true). Both keep the transform last set; only the
      default one hands it back. */
  class MotionState {
    const kinematic: bool
    const owner: RigidBody
    const startTransform: Transform
    var worldTransform: Transform

    constructor (startTransform: Transform, owner: RigidBody, kinematic: bool)
      ensures this.startTransform == startTransform && this.owner == owner && this.kinematic == kinematic
      ensures worldTransform == startTransform
    {
      this.startTransform := startTransform;
      this.owner := owner;
      this.kinematic := kinematic;
      worldTransform := startTransform;
    }

    /** `getWorldTransform`: the default state returns what was last set (the
        start transform until then); the kinematic state ignores that and
        returns the bone's local transform times the start transform. */
    function GetWorldTransform(): (t: Transform)
      reads this`worldTransform, owner`boneRef, owner.bones
      requires owner.boneRef.BoneAt? ==> owner.boneRef.index < owner.bones.Length
      ensures !kinematic ==> t == worldTransform
      ensures kinematic ==> t == TMul(owner.BoneLocalTransformNow(), startTransform)
    {
      if kinematic then TMul(owner.BoneLocalTransformNow(), startTransform) else worldTransform
    }

    /** `setWorldTransform`: stored on either kind of state. A default state
        then reports it back; a kinematic state goes on reporting its bone. */
    method SetWorldTransform(t: Transform)
      modifies this`worldTransform
      ensures worldTransform == t
      ensures (owner.boneRef.BoneAt? ==> owner.boneRef.index < owner.bones.Length) ==>
        (!kinematic ==> GetWorldTransform() == t) &&
        (kinematic ==> GetWorldTransform() == old(GetWorldTransform()))
    {
      worldTransform := t;
    }
  }

  class RigidBody {
    const bones: array<Bone>
    var body: Body?
    var ptr: Body?
    var shape: Option<CollisionShape>
    var activeMotionState: MotionState?
    var kinematicMotionState: MotionState?
    var worldTransform: Transform
    var world2LocalTransform: Transform
    var parentModelRef: nat
    var boneRef: BoneRef
    var name: Option<string>
    var englishName: Option<string>
    var eventRefs: seq<nat>
    var notifications: seq<Notification>
    var boneIndex: int
    var size: Vec3
    var position: Vec3
    var rotation: Vec3
    var mass: real
    var linearDamping: real
    var angularDamping: real
    var restitution: real
    var friction: real
    var index: int
    var groupID: uint16
    var collisionGroupMask: uint16
    var collisionGroupID: uint8
    var shapeType: ShapeType
    var objectType: ObjectType

    /** The listener list has no null entry and no duplicate, and a bound bone
        is one of the arena's. */
    ghost predicate Valid()
      reads this`eventRefs, this`boneRef
    {
      NoDuplicates(eventRefs) && 0 !in eventRefs &&
      (boneRef.BoneAt? ==> boneRef.index < bones.Length)
    }

    /** Both motion states, where present, belong to this body. */
    predicate Owned()
      reads this`activeMotionState, this`kinematicMotionState
    {
      (activeMotionState != null ==> activeMotionState.owner == this) &&
      (kinematicMotionState != null ==> kinematicMotionState.owner == this)
    }

    /** The rest transform `createRigidBody` computes, and its inverse. */
    ghost predicate RestPose()
      reads this`worldTransform, this`world2LocalTransform, this`rotation, this`position
    {
      worldTransform == TEuler(rotation, position) &&
      world2LocalTransform == TInverse(worldTransform)
    }

    /** The motion states `createRigidBody` installs, all owned here and
        starting at the rest transform: a kinematic active state for a static
        body, a default one with a kinematic one in reserve otherwise. */
    ghost predicate StatesInstalled()
      reads this`activeMotionState, this`kinematicMotionState, this`objectType, this`worldTransform,
            activeMotionState, kinematicMotionState
    {
      activeMotionState != null && Owned() &&
      activeMotionState.startTransform == worldTransform &&
      (activeMotionState.kinematic <==> objectType == StaticObject) &&
      (objectType == StaticObject ==> kinematicMotionState == null) &&
      (objectType != StaticObject ==>
        kinematicMotionState != null && kinematicMotionState.kinematic &&
        kinematicMotionState.startTransform == worldTransform)
    }

    /** The Bullet body `createRigidBody` makes on the active state: built
        from the body's properties with no mass when static, flagged
        kinematic when static, never deactivating, pointing back here, and
        placed where the active state puts it, with no force or torque. */
    ghost predicate BodyBuilt(b: Body, shape: Option<CollisionShape>, initialFlags: bv32)
      reads this`boneRef, this`worldTransform, this`activeMotionState, this`objectType, this`mass,
            this`linearDamping, this`angularDamping, this`restitution, this`friction, b, bones
    {
      (boneRef.BoneAt? ==> boneRef.index < bones.Length) &&
      activeMotionState != null && b.motionState == activeMotionState &&
      b.info == ConstructionInfo(if objectType == StaticObject then 0.0 else mass, shape,
                                 linearDamping, angularDamping, restitution, friction, true) &&
      b.collisionFlags == (if objectType == StaticObject then ActivationFlags(initialFlags, false) else initialFlags) &&
      b.activationState == DisableDeactivation && b.userPointer == this &&
      b.centerOfMass == (if objectType == StaticObject then TMul(BoneLocalTransformNow(), worldTransform)
                         else worldTransform) &&
      b.interpolationWorldTransform == b.centerOfMass &&
      b.totalForce == Zero && b.totalTorque == Zero
    }

    /** What `createRigidBody` leaves behind, apart from freshness. */
    ghost predicate Created(b: Body, shape: Option<CollisionShape>, initialFlags: bv32)
      reads this`boneRef, this`worldTransform, this`world2LocalTransform, this`rotation, this`position,
              this`activeMotionState, this`kinematicMotionState, this`objectType, this`mass,
              this`linearDamping, this`angularDamping, this`restitution, this`friction,
              b, activeMotionState, kinematicMotionState, bones
    {
      RestPose() && StatesInstalled() && BodyBuilt(b, shape, initialFlags)
    }

    /** The constructor's defaults: no Bullet objects, identity transforms,
        the shared null bone, index -1, a static body of unknown shape. */
    constructor (parentModelRef: nat, bones: array<Bone>)
      ensures Valid() && this.bones == bones && this.parentModelRef == parentModelRef
      ensures body == null && ptr == null && shape.None?
      ensures activeMotionState == null && kinematicMotionState == null
      ensures worldTransform == TIdentity && world2LocalTransform == TIdentity
      ensures boneRef == SharedNullBone && boneIndex == -1 && index == -1
      ensures name.None? && englishName.None? && eventRefs == [] && notifications == []
      ensures size == Zero && position == Zero && rotation == Zero
      ensures mass == 0.0 && linearDamping == 0.0 && angularDamping == 0.0
      ensures restitution == 0.0 && friction == 0.0
      ensures groupID == 0 && collisionGroupMask == 0 && collisionGroupID == 0
      ensures shapeType == UnknownShape && objectType == StaticObject
    {
      this.bones := bones;
      this.parentModelRef := parentModelRef;
      body, ptr, shape := null, null, None;
      activeMotionState, kinematicMotionState := null, null;
      worldTransform, world2LocalTransform := TIdentity, TIdentity;
      boneRef, boneIndex, index := SharedNullBone, -1, -1;
      name, englishName := None, None;
      eventRefs, notifications := [], [];
      size, position, rotation := Zero, Zero, Zero;
      mass, linearDamping, angularDamping, restitution, friction := 0.0, 0.0, 0.0, 0.0, 0.0;
      groupID, collisionGroupMask, collisionGroupID := 0, 0, 0;
      shapeType, objectType := UnknownShape, StaticObject;
    }

    /** `boneRef->localTransform()`: the bone's stored skinning transform. */
    function BoneLocalTransform(): Transform
      reads this`boneRef, bones
      requires boneRef.BoneAt? ==> boneRef.index < bones.Length
    {
      match boneRef
      case SharedNullBone => NullBoneLocalTransform
      case BoneAt(i) => bones[i].localTransform
    }

    /** `boneRef->getLocalTransform(out)`: recomputed from the bone's world
        transform and origin. */
    function BoneLocalTransformNow(): Transform
      reads this`boneRef, bones
      requires boneRef.BoneAt? ==> boneRef.index < bones.Length
    {
      match boneRef
      case SharedNullBone => NullBoneLocalTransform
      case BoneAt(i) => LocalTransformOf(bones[i], bones[i].worldTransform)
    }

    /** `createTransform`: the rest pose from the Euler angles and position. */
    function CreateTransform(): Transform
      reads this`rotation, this`position
    {
      TEuler(rotation, position)
    }

    /** `createShape`: the collision shape for the shape type; an unknown
        shape type gives no shape. */
    function CreateShape(): (r: Option<CollisionShape>)
      reads this`shapeType, this`size
      ensures r.None? <==> shapeType == UnknownShape
      ensures r.Some? && r.value.Sphere? ==> shapeType == SphereShape && r.value.radius == size.x
      ensures r.Some? && r.value.Box? ==> shapeType == BoxShape && r.value.halfExtents == size
      ensures r.Some? && r.value.Capsule? ==> shapeType == CapsuleShape && r.value == Capsule(size.x, size.y)
    {
      match shapeType
      case SphereShape => Some(Sphere(size.x))
      case BoxShape => Some(Box(size))
      case CapsuleShape => Some(Capsule(size.x, size.y))
      case UnknownShape => None
    }

    /** The first half of `createRigidBody`: the rest transform, its inverse
        and the motion states the object type calls for. A static body reads
        its pose through a kinematic state and has no second slot; a dynamic
        or aligned body gets a default state and a kinematic one in reserve. */
    method InstallMotionStates()
      modifies this`worldTransform, this`world2LocalTransform, this`activeMotionState,
               this`kinematicMotionState
      ensures worldTransform == TEuler(rotation, position)
      ensures world2LocalTransform == TInverse(worldTransform)
      ensures activeMotionState != null && fresh(activeMotionState)
      ensures activeMotionState.owner == this && activeMotionState.startTransform == worldTransform
      ensures activeMotionState.worldTransform == worldTransform
      ensures activeMotionState.kinematic <==> objectType == StaticObject
      ensures objectType == StaticObject ==> kinematicMotionState == null
      ensures objectType != StaticObject ==>
        kinematicMotionState != null && fresh(kinematicMotionState) &&
        kinematicMotionState.kinematic && kinematicMotionState.owner == this &&
        kinematicMotionState.startTransform == worldTransform
    {
      worldTransform := CreateTransform();
      world2LocalTransform := TInverse(worldTransform);
      if objectType == StaticObject {
        activeMotionState := CreateKinematicMotionState();
        kinematicMotionState := null;
      } else {
        activeMotionState := CreateDefaultMotionState();
        kinematicMotionState := CreateKinematicMotionState();
      }
    }

    /** `createRigidBody`: the motion states, then the Bullet body on the
        active one. A static body has no mass and is flagged kinematic; a
        dynamic or aligned body has its mass and keeps Bullet's flags. The
        body never deactivates and points back at this object. */
    method CreateRigidBody(shape: Option<CollisionShape>, initialFlags: bv32) returns (b: Body)
      requires boneRef.BoneAt? ==> boneRef.index < bones.Length
      modifies this`worldTransform, this`world2LocalTransform, this`activeMotionState,
               this`kinematicMotionState, this`ptr
      ensures fresh(b) && ptr == b
      ensures fresh(activeMotionState) && (kinematicMotionState != null ==> fresh(kinematicMotionState))
      ensures Created(b, shape, initialFlags)
    {
      var massValue := if objectType != StaticObject then mass else 0.0;
      InstallMotionStates();
      var pose := activeMotionState.GetWorldTransform();
      var info := ConstructionInfo(massValue, shape, linearDamping, angularDamping,
                                   restitution, friction, true);
      b := new Body(info, activeMotionState, initialFlags, pose);
      ptr := b;
      b.activationState := DisableDeactivation;
      b.userPointer := this;
      if objectType == StaticObject {
        b.collisionFlags := ActivationFlags(b.collisionFlags, false);
      }
    }

    /** `setActivation`: a non-static body switches between its default state
        with the kinematic bit clear (true) and its kinematic state with the
        bit set (false); a static body gets its active state back and keeps
        its flags. Installing a motion state reloads the centre of mass from
        it. */
    method SetActivation(value: bool)
      requires Valid() && Owned() && body != null
      modifies body
      ensures objectType != StaticObject ==>
        body.collisionFlags == ActivationFlags(old(body.collisionFlags), value)
      ensures objectType == StaticObject ==> body.collisionFlags == old(body.collisionFlags)
      ensures var m := if objectType != StaticObject && !value then kinematicMotionState else activeMotionState;
        body.motionState == m &&
        body.centerOfMass == (if m != null then m.GetWorldTransform() else old(body.centerOfMass))
      ensures body.interpolationWorldTransform == old(body.interpolationWorldTransform)
      ensures body.totalForce == old(body.totalForce) && body.totalTorque == old(body.totalTorque)
      ensures body.activationState == old(body.activationState) && body.userPointer == old(body.userPointer)
    {
      if objectType != StaticObject {
        if value {
          body.collisionFlags := ActivationFlags(body.collisionFlags, true);
          body.SetMotionState(activeMotionState);
        } else {
          body.collisionFlags := ActivationFlags(body.collisionFlags, false);
          body.SetMotionState(kinematicMotionState);
        }
      } else {
        body.SetMotionState(activeMotionState);
      }
    }

    /** `syncLocalTransform`: for a non-static body bound to a real bone, the
        bone's skinning transform becomes the body's centre of mass times the
        inverse rest transform; an aligned body first moves its centre of
        mass to the origin of bone-local times rest transform, which also
        resets its interpolation transform. */
    method SyncLocalTransform()
      requires Valid() && body != null
      modifies body, bones
      ensures objectType == StaticObject || boneRef == SharedNullBone ==>
        bones[..] == old(bones[..]) && body.centerOfMass == old(body.centerOfMass)
      ensures objectType != StaticObject && boneRef.BoneAt? ==>
        var i := boneRef.index;
        var com := if objectType == AlignedObject
                   then TWithOriginOf(old(body.centerOfMass), TMul(old(bones[i].localTransform), worldTransform))
                   else old(body.centerOfMass);
        body.centerOfMass == com &&
        bones[..] == old(bones[..])[i := old(bones[i]).(localTransform := TMul(com, world2LocalTransform))]
      ensures objectType == AlignedObject && boneRef.BoneAt? ==>
        body.interpolationWorldTransform ==
          (if old(body.collisionFlags) & 2 != 0 then old(body.centerOfMass) else body.centerOfMass)
      ensures !(objectType == AlignedObject && boneRef.BoneAt?) ==>
        body.interpolationWorldTransform == old(body.interpolationWorldTransform)
      ensures body.collisionFlags == old(body.collisionFlags) && body.motionState == old(body.motionState)
      ensures body.totalForce == old(body.totalForce) && body.totalTorque == old(body.totalTorque)
      ensures body.activationState == old(body.activationState) && body.userPointer == old(body.userPointer)
    {
      if objectType != StaticObject && boneRef != SharedNullBone {
        var i := boneRef.index;
        var centerOfMassTransform := body.centerOfMass;
        var worldBoneTransform := TMul(bones[i].localTransform, worldTransform);
        if objectType == AlignedObject {
          centerOfMassTransform := TWithOriginOf(centerOfMassTransform, worldBoneTransform);
          body.SetCenterOfMassTransform(centerOfMassTransform);
        }
        var localTransform := TMul(centerOfMassTransform, world2LocalTransform);
        bones[i] := bones[i].(localTransform := localTransform);
      }
    }

    /** `updateTransform`: bone-local times rest transform goes into the
        active motion state and the body's interpolation transform. */
    method UpdateTransform()
      requires Valid() && body != null && activeMotionState != null
      modifies activeMotionState, body
      ensures activeMotionState.worldTransform == TMul(BoneLocalTransform(), worldTransform)
      ensures body.interpolationWorldTransform == TMul(BoneLocalTransform(), worldTransform)
      ensures body.collisionFlags == old(body.collisionFlags) && body.motionState == old(body.motionState)
      ensures body.centerOfMass == old(body.centerOfMass)
      ensures body.totalForce == old(body.totalForce) && body.totalTorque == old(body.totalTorque)
      ensures body.activationState == old(body.activationState) && body.userPointer == old(body.userPointer)
    {
      var newTransform := TMul(BoneLocalTransform(), worldTransform);
      activeMotionState.SetWorldTransform(newTransform);
      body.interpolationWorldTransform := newTransform;
    }

    /** `resetBody`, without the broad-phase pair cleaning: the accumulated
        force and torque are cleared. */
    method ResetBody()
      requires body != null
      modifies body
      ensures body.totalForce == Zero && body.totalTorque == Zero
      ensures body.collisionFlags == old(body.collisionFlags) && body.motionState == old(body.motionState)
      ensures body.centerOfMass == old(body.centerOfMass)
      ensures body.interpolationWorldTransform == old(body.interpolationWorldTransform)
      ensures body.activationState == old(body.activationState) && body.userPointer == old(body.userPointer)
    {
      body.totalForce := Zero;
      body.totalTorque := Zero;
    }

    /** `addEventListenerRef`: a null listener is ignored; any other one ends
        up last, exactly once. */
    method AddEventListenerRef(value: nat)
      requires Valid()
      modifies this`eventRefs
      ensures Valid()
      ensures eventRefs == if value == 0 then old(eventRefs) else Added(old(eventRefs), value)
    {
      if value != 0 {
        RemovedMembers(eventRefs, value);
        AddedMembers(eventRefs, value);
        eventRefs := Removed(eventRefs, value);
        eventRefs := eventRefs + [value];
      }
    }

    /** `removeEventListenerRef`: a null listener is ignored. */
    method RemoveEventListenerRef(value: nat)
      requires Valid()
      modifies this`eventRefs
      ensures Valid()
      ensures eventRefs == if value == 0 then old(eventRefs) else Removed(old(eventRefs), value)
    {
      if value != 0 {
        RemovedMembers(eventRefs, value);
        eventRefs := Removed(eventRefs, value);
      }
    }

    /** `getEventListenerRefs`: a copy of the listener list. */
    method GetEventListenerRefs() returns (r: seq<nat>)
      requires Valid()
      ensures r == eventRefs && NoDuplicates(r) && 0 !in r
    {
      r := eventRefs;
    }

    /** `setBoneRef`: a change of bone is announced first. A bone of the
        arena becomes the body's bone, its index becomes the body's bone
        index and its IK is enabled exactly when the body is static; a null
        pointer reinstalls the shared null bone with index -1 (and, since a
        null pointer never equals the shared null bone, is always announced). */
    method SetBoneRef(value: Option<nat>)
      requires Valid()
      requires value.Some? ==> value.value < bones.Length
      modifies this`boneRef, this`boneIndex, this`notifications, bones
      ensures Valid()
      ensures (boneRef, boneIndex, notifications, bones[..]) ==
        Rebound(value, old(boneRef), old(boneIndex), old(notifications), old(bones[..]),
                eventRefs, objectType == StaticObject)
    {
      if value.None? || boneRef != BoneAt(value.value) {
        notifications := notifications + Fired(eventRefs, BoneRefWillChange(value));
        if value.Some? {
          var i := value.value;
          boneIndex := bones[i].index;
          boneRef := BoneAt(i);
          bones[i] := bones[i].(inverseKinematicsEnabled := objectType == StaticObject);
        } else {
          boneRef := SharedNullBone;
          boneIndex := -1;
        }
      }
    }

    /** `setName`: a non-null name that differs from the current one of that
        language is announced and stored; other languages are ignored. */
    method SetName(value: Option<string>, language: Language)
      modifies this`name, this`englishName, this`notifications
      ensures language in {DefaultLanguage, Japanese} && value.Some? && value != old(name) ==>
        name == value && englishName == old(englishName) &&
        notifications == old(notifications) + Fired(eventRefs, NameWillChange(value.value, language))
      ensures language == English && value.Some? && value != old(englishName) ==>
        englishName == value && name == old(name) &&
        notifications == old(notifications) + Fired(eventRefs, NameWillChange(value.value, language))
      ensures (language == OtherLanguage || value.None? ||
               (language in {DefaultLanguage, Japanese} && value == old(name)) ||
               (language == English && value == old(englishName))) ==>
        name == old(name) && englishName == old(englishName) && notifications == old(notifications)
    {
      match language
      case DefaultLanguage | Japanese =>
        if value.Some? && value != name {
          notifications := notifications + Fired(eventRefs, NameWillChange(value.value, language));
          name := value;
        }
      case English =>
        if value.Some? && value != englishName {
          notifications := notifications + Fired(eventRefs, NameWillChange(value.value, language));
          englishName := value;
        }
      case OtherLanguage =>
    }

    /** `setParentModelRef`. */
    method SetParentModelRef(value: nat)
      modifies this`parentModelRef
      ensures parentModelRef == value
    {
      parentModelRef := value;
    }

    /** `setIndex`: not announced. */
    method SetIndex(value: int)
      modifies this`index
      ensures index == value
    {
      index := value;
    }

    /** The change-guarded setters: a new value is announced, then stored; the
        current value again is silent. */
    method SetAngularDamping(value: real)
      modifies this`angularDamping, this`notifications
      ensures angularDamping == value
      ensures notifications == old(notifications) +
        (if old(angularDamping) != value then Fired(eventRefs, AngularDampingWillChange(value)) else [])
    {
      if angularDamping != value {
        notifications := notifications + Fired(eventRefs, AngularDampingWillChange(value));
        angularDamping := value;
      }
    }

    method SetCollisionGroupID(value: uint8)
      modifies this`collisionGroupID, this`notifications
      ensures collisionGroupID == value
      ensures notifications == old(notifications) +
        (if old(collisionGroupID) != value then Fired(eventRefs, CollisionGroupIDWillChange(value)) else [])
    {
      if collisionGroupID != value {
        notifications := notifications + Fired(eventRefs, CollisionGroupIDWillChange(value));
        collisionGroupID := value;
      }
    }

    method SetCollisionMask(value: uint16)
      modifies this`collisionGroupMask, this`notifications
      ensures collisionGroupMask == value
      ensures notifications == old(notifications) +
        (if old(collisionGroupMask) != value then Fired(eventRefs, CollisionMaskWillChange(value)) else [])
    {
      if collisionGroupMask != value {
        notifications := notifications + Fired(eventRefs, CollisionMaskWillChange(value));
        collisionGroupMask := value;
      }
    }

    method SetFriction(value: real)
      modifies this`friction, this`notifications
      ensures friction == value
      ensures notifications == old(notifications) +
        (if old(friction) != value then Fired(eventRefs, FrictionWillChange(value)) else [])
    {
      if friction != value {
        notifications := notifications + Fired(eventRefs, FrictionWillChange(value));
        friction := value;
      }
    }

    method SetLinearDamping(value: real)
      modifies this`linearDamping, this`notifications
      ensures linearDamping == value
      ensures notifications == old(notifications) +
        (if old(linearDamping) != value then Fired(eventRefs, LinearDampingWillChange(value)) else [])
    {
      if linearDamping != value {
        notifications := notifications + Fired(eventRefs, LinearDampingWillChange(value));
        linearDamping := value;
      }
    }

    method SetMass(value: real)
      modifies this`mass, this`notifications
      ensures mass == value
      ensures notifications == old(notifications) +
        (if old(mass) != value then Fired(eventRefs, MassWillChange(value)) else [])
    {
      if mass != value {
        notifications := notifications + Fired(eventRefs, MassWillChange(value));
        mass := value;
      }
    }

    method SetPosition(value: Vec3)
      modifies this`position, this`notifications
      ensures position == value
      ensures notifications == old(notifications) +
        (if old(position) != value then Fired(eventRefs, PositionWillChange(value)) else [])
    {
      if position != value {
        notifications := notifications + Fired(eventRefs, PositionWillChange(value));
        position := value;
      }
    }

    method SetRestitution(value: real)
      modifies this`restitution, this`notifications
      ensures restitution == value
      ensures notifications == old(notifications) +
        (if old(restitution) != value then Fired(eventRefs, RestitutionWillChange(value)) else [])
    {
      if restitution != value {
        notifications := notifications + Fired(eventRefs, RestitutionWillChange(value));
        restitution := value;
      }
    }

    method SetRotation(value: Vec3)
      modifies this`rotation, this`notifications
      ensures rotation == value
      ensures notifications == old(notifications) +
        (if old(rotation) != value then Fired(eventRefs, RotationWillChange(value)) else [])
    {
      if rotation != value {
        notifications := notifications + Fired(eventRefs, RotationWillChange(value));
        rotation := value;
      }
    }

    method SetShapeType(value: ShapeType)
      modifies this`shapeType, this`notifications
      ensures shapeType == value
      ensures notifications == old(notifications) +
        (if old(shapeType) != value then Fired(eventRefs, ShapeTypeWillChange(value)) else [])
    {
      if shapeType != value {
        notifications := notifications + Fired(eventRefs, ShapeTypeWillChange(value));
        shapeType := value;
      }
    }

    method SetSize(value: Vec3)
      modifies this`size, this`notifications
      ensures size == value
      ensures notifications == old(notifications) +
        (if old(size) != value then Fired(eventRefs, SizeWillChange(value)) else [])
    {
      if size != value {
        notifications := notifications + Fired(eventRefs, SizeWillChange(value));
        size := value;
      }
    }

    method SetObjectType(value: ObjectType)
      modifies this`objectType, this`notifications
      ensures objectType == value
      ensures notifications == old(notifications) +
        (if old(objectType) != value then Fired(eventRefs, ObjectTypeWillChange(value)) else [])
    {
      if objectType != value {
        notifications := notifications + Fired(eventRefs, ObjectTypeWillChange(value));
        objectType := value;
      }
    }

    /** `createKinematicMotionState`: starts at the current rest transform. */
    method CreateKinematicMotionState() returns (m: MotionState)
      ensures fresh(m) && m.kinematic && m.owner == this
      ensures m.startTransform == worldTransform && m.worldTransform == worldTransform
    {
      m := new MotionState(worldTransform, this, true);
    }

    /** `createDefaultMotionState`: starts at the current rest transform. */
    method CreateDefaultMotionState() returns (m: MotionState)
      ensures fresh(m) && !m.kinematic && m.owner == this
      ensures m.startTransform == worldTransform && m.worldTransform == worldTransform
    {
      m := new MotionState(worldTransform, this, false);
    }

    /** `build`: bind the bone, make the shape and the Bullet body, forget the
        temporary pointer and take the index. */
    method Build(bone: Option<nat>, index: int, initialFlags: bv32)
      requires Valid()
      requires bone.Some? ==> bone.value < bones.Length
      modifies this`boneRef, this`boneIndex, this`notifications, this`shape, this`body,
               this`worldTransform, this`world2LocalTransform, this`activeMotionState,
               this`kinematicMotionState, this`ptr, this`index, bones
      ensures Valid() && this.index == index
      ensures (boneRef, boneIndex, notifications, bones[..]) ==
        Rebound(bone, old(boneRef), old(boneIndex), old(notifications), old(bones[..]),
                eventRefs, objectType == StaticObject)
      ensures body != null && fresh(body) && ptr == null && shape == CreateShape()
      ensures fresh(activeMotionState) && (kinematicMotionState != null ==> fresh(kinematicMotionState))
      ensures Created(body, shape, initialFlags)
    {
      SetBoneRef(bone);
      CreateBody(index, initialFlags);
    }

    /** The rest of `build` once the bone is bound: the shape and the Bullet
        body, then the temporary pointer is cleared and the index taken. */
    method CreateBody(index: int, initialFlags: bv32)
      requires boneRef.BoneAt? ==> boneRef.index < bones.Length
      modifies this`shape, this`body, this`worldTransform, this`world2LocalTransform,
               this`activeMotionState, this`kinematicMotionState, this`ptr, this`index
      ensures this.index == index
      ensures body != null && fresh(body) && ptr == null && shape == CreateShape()
      ensures fresh(activeMotionState) && (kinematicMotionState != null ==> fresh(kinematicMotionState))
      ensures Created(body, shape, initialFlags)
    {
      shape := CreateShape();
      var created := CreateRigidBody(shape, initialFlags);
      Adopt(created, index);
    }

    /** The last steps of `build`: keep the Bullet body, clear the temporary
        pointer and take the index. */
    method Adopt(created: Body, index: int)
      modifies this`body, this`ptr, this`index
      ensures body == created && ptr == null && this.index == index
    {
      body := created;
      ptr := null;
      this.index := index;
    }
  }
}
