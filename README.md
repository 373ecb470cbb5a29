# MMDAI core, modelled in Dafny

This project models five parts of the MMDAI tree (the libvpvl2 rendering and
physics library, plus the QMA1 viewer's lip-sync generator), and proves
properties of those models.

- **PMD bones** (`libvpvl2/src/core/pmd/Bone.cc`):
  - the two byte-budget checks that run before decoding (`preparseBones`, `preparseIKConstraints`);
  - reading and writing the fixed-size bone record;
  - decoding of an IK record into a constraint on its root bone;
  - index resolution over the model's bone arena (`loadBones`) and the size estimate;
  - the per-bone pose update (`performTransform`);
  - the capability predicates.

  Bones live in an `array<Bone>` arena, and references are arena positions.
  The arena is updated in place, as the C++ code updates its `Bone` objects.
- **Rigid bodies** (`libvpvl2/src/core/internal/BaseRigidBody.cc` and
  `libvpvl2/include/vpvl2/internal/BaseRigidBody.h`):
  - a `RigidBody` class with the source's fields;
  - its two motion states (default and kinematic);
  - an abstract Bullet body holding the state this code reads and writes (collision flags, motion state, centre-of-mass and interpolation transforms, forces, activation state);
  - the listener list and the property events fired before each change;
  - `build`, `createRigidBody`, `setActivation`, `syncLocalTransform` and `updateTransform`.
- **Cg effect runtime** (`libvpvl2/include/vpvl2/cg/EngineCommon.h`):
  - the `Util` annotation readers;
  - the parameter binders: `BaseParameter`, `MatrixSemantic` and `TimeSemantic`, which connect every further parameter to the first one in a slot;
  - the render-target size rules of `TextureSemantic`;
  - the `Subset` filter;
  - `testTechnique` and `findTechnique`;
  - the technique-script parser (`parseTechniqueScript`) with its loop rules;
  - `setStandardsGlobal`.
- **Lip sync** (`QMA1/LipSync.cc`):
  - `createMotion` turns a comma-separated phone/duration sequence into lip frames, inserts interpolation frames, and emits one face key frame per expression and lip frame, weighted by `blendRate`;
  - `blendRate`;
  - `release`.

Floats are modelled as reals. The C++ truncating conversion (`TruncToInt`),
the `int16_t` narrowing (`ToInt16`) and `btMax(1, ·)` (`AtLeastOne`) are
written out. Transforms and quaternions form a free term algebra, so equal
terms are equal transforms, but no matrix arithmetic is assumed.
Functions the code calls but does not define are parameters:
- `QString::toFloat`, as `toFloat`;
- the render delegate's viewport, as `viewport`;
- `cgGetNamedTechnique` on the text `setStandardsGlobal` reads after its `Script` literal, as `named` (the multiple form) and `single` (the single form);
- Bullet's initial collision flags, as `initialFlags`.

Where the code departs from what it evidently means (see "## Findings"), the
classes and methods follow the code as written. The intended behaviour is a
separate definition, and lemmas tie it to the code: `ParseAsWritten` for the
script parser and `TechniqueListCounterexample` for the `Script` literal test.
`GetSize2AsWritten` and `GetSize2` are the two versions of `getSize2`.

## Model

| member | source | states |
|---|---|---|
| Geometry.ToInt16 | libvpvl2/src/core/pmd/Bone.cc:279-285 | the int16 narrowing keeps an in-range value, and every result agrees with the input modulo 2^16 |
| Geometry.TruncToInt | libvpvl2/include/vpvl2/cg/EngineCommon.h:695-696 | the float-to-int conversion truncates toward zero: within one below a non-negative input, within one above a negative one |
| Strings.IndexOf | libvpvl2/include/vpvl2/cg/EngineCommon.h:1289 | `find` returns the first position of the character |
| Strings.SplitJoin | QMA1/LipSync.cc:83 | `split(',')` loses nothing: joining the pieces with the separator gives the sequence back, and no piece holds a separator |
| Strings.GetlineSegments | libvpvl2/include/vpvl2/cg/EngineCommon.h:1286 | the `getline` loop sees a prefix of the split pieces, and none for an empty string; it misses at most one piece, and misses one iff the last piece is empty |
| Strings.GetlineJoin | libvpvl2/include/vpvl2/cg/EngineCommon.h:1353 | `getline` over names joined with a separator none of them holds, the last one not empty, reads every name back |
| Strings.StrtolOfDigits | libvpvl2/include/vpvl2/cg/EngineCommon.h:1287 | `strtol` reads a plain digit string as its decimal value |
| Strings.StrncmpPrefix | libvpvl2/include/vpvl2/cg/EngineCommon.h:1349 | `strncmp` over a literal's length is a prefix test |
| Strings.JoinSplit | libvpvl2/include/vpvl2/cg/EngineCommon.h:1353 | splitting names joined with a separator none of them holds gives the names back |
| Strings.StrncmpWithTerminator | libvpvl2/include/vpvl2/cg/EngineCommon.h:256-262 | `strncmp` with the size of a literal, terminator included, is exact string equality |
| PmdBone.NewBone | libvpvl2/src/core/pmd/Bone.cc:86-107 | a new bone has no references, no constraint, index -1 and the unknown type |
| PmdBone.ReadBone | libvpvl2/src/core/pmd/Bone.cc:245-257 | reading a bone record consumes exactly one record's size; the name, type and the three indices come from the record, the origin and the offset both start at the record's position, and no other field changes |
| PmdBone.ReadWriteRoundTrip | libvpvl2/src/core/pmd/Bone.cc:276-288 | writing a bone just read from a record gives back that record |
| PmdBone.WriteIgnoresResolution | libvpvl2/src/core/pmd/Bone.cc:276-288 | the written record depends only on the fields index resolution keeps |
| PmdBone.EstimateIKConstraintsSize | libvpvl2/src/core/pmd/Bone.cc:266-274 | a bone without a constraint adds nothing; one with a constraint adds at least an IK header |
| PmdBone.TotalSizeAppend | libvpvl2/src/core/pmd/Bone.cc:233-243 | the size estimate is additive over concatenated bone sequences |
| PmdBone.TotalSizeBounds | libvpvl2/src/core/pmd/Bone.cc:233-243 | the estimate is at least one record per bone, and exactly that when no bone has a constraint |
| PmdBone.EstimateTotalSize | libvpvl2/src/core/pmd/Bone.cc:233-243 | the loop returns the sum of the per-bone estimates, so at least one record per bone |
| PmdBone.GetEffectorBones | libvpvl2/src/core/pmd/Bone.cc:381-391 | the constraint's effectors, in order, are appended to the output; without a constraint the output is unchanged |
| PmdBone.CapabilityPredicates | libvpvl2/src/core/pmd/Bone.cc:403-431 | interactive iff rotateable; movable implies rotateable and visible; an IK destination neither rotates nor has fixed axes; invisible bones never rotate; capabilities depend only on the type |
| PmdPreparse.IKWalk | libvpvl2/src/core/pmd/Bone.cc:155-165 | the IK record walk never consumes more than its budget, and position plus remaining budget is constant |
| PmdPreparse.IKWalkConsumes | libvpvl2/src/core/pmd/Bone.cc:155-165 | a successful walk over n records consumed at least n headers |
| PmdPreparse.IKWalkMonotone | libvpvl2/src/core/pmd/Bone.cc:155-165 | a walk that succeeds with some budget still succeeds with a larger one, and leaves the extra bytes unconsumed |
| PmdPreparse.Reader.ReadBytes | libvpvl2/src/core/pmd/Bone.cc:141 | skipping bytes advances the position and shrinks the remaining budget by the same amount |
| PmdPreparse.Reader.Size16 | libvpvl2/src/core/pmd/Bone.cc:136 | a 16-bit count is read iff two bytes are left; on failure nothing moves |
| PmdPreparse.Reader.PreparseBones | libvpvl2/src/core/pmd/Bone.cc:133-143 | succeeds iff a count is readable and count × record size fits in what is left; on success records the count and start and skips the records; on failure leaves the info untouched |
| PmdPreparse.Reader.PreparseIKConstraints | libvpvl2/src/core/pmd/Bone.cc:145-167 | with fewer than two bytes it fails without moving; otherwise it records the count and start and succeeds iff the walk over every variable-size record stays in budget |
| PmdIK.KeptLinks | libvpvl2/src/core/pmd/Bone.cc:214-221 | the kept links are never more than the record's links |
| PmdIK.KeptLinksMembers | libvpvl2/src/core/pmd/Bone.cc:214-221 | a bone is an effector iff some link names it and it is in range; kept plus dropped links are all the links |
| PmdIK.KeptLinksAppend | libvpvl2/src/core/pmd/Bone.cc:214-221 | effectors keep the record order of the links |
| PmdIK.AttachConstraint | libvpvl2/src/core/pmd/Bone.cc:204-231 | the arena keeps its length when a record is applied |
| PmdIK.ReadIKConstraint | libvpvl2/src/core/pmd/Bone.cc:204-231 | the arena becomes `AttachConstraint` of the old one (whose effect `AttachConstraintEffect` states), and the reported size is the header plus two bytes per link, whether or not the indices were in range |
| PmdIK.AttachConstraintEffect | libvpvl2/src/core/pmd/Bone.cc:211-229 | only the root bone's constraint may change; with both indices in range it gets a constraint naming root and target, with the header's iterations and angle, whose effectors are exactly the linked bones in range; otherwise nothing changes |
| PmdIK.ConsumedVersusEstimate | libvpvl2/src/core/pmd/Bone.cc:204-231 | the size estimate for the new constraint undercounts the consumed size by exactly two bytes per dropped link |
| PmdTransform.Transformed | libvpvl2/src/core/pmd/Bone.cc:290-310 | the update changes only the pose, and the skinning transform is the new world transform times the translation by minus the origin; a root's world transform is its own transform, and a bone that is its own parent gets its own transform squared, because the own transform is stored before the parent's is read (Bone.cc:305-307) |
| PmdTransform.PerformTransform | libvpvl2/src/core/pmd/Bone.cc:290-310 | exactly bone i of the arena is replaced by its transformed value, including for a bone that is its own parent |
| PmdTransform.TransformPrefix | libvpvl2/src/core/pmd/Bone.cc:290-310 | updating a prefix of the arena changes only the pose of the bones in the prefix |
| PmdTransform.OwnTransformAgrees | libvpvl2/src/core/pmd/Bone.cc:293-305 | a bone's own transform does not depend on the other bones' poses |
| PmdTransform.TransformedChain | libvpvl2/src/core/pmd/Bone.cc:306-308 | once every earlier bone holds its chained world transform, updating the next bone gives it its chained world transform too |
| PmdTransform.TransformPrefixChain | libvpvl2/src/core/pmd/Bone.cc:290-310 | with parents stored before their children, updating the first k bones in order gives each of them its chained world transform |
| PmdTransform.PoseChain | libvpvl2/src/core/pmd/Bone.cc:290-310 | one update pass gives every bone the product of its ancestors' own transforms, and the matching skinning transform |
| PmdLoad.ResolveBone | libvpvl2/src/core/pmd/Bone.cc:172-199 | the loop body succeeds for a bone iff its parent, target and child indices are each negative or below the count; it always sets the index and keeps the record fields |
| PmdLoad.ResolveBoneAt | libvpvl2/src/core/pmd/Bone.cc:172-199 | exactly bone i is replaced by its `ResolveBone` value, and the outcome is `ResolveBone`'s verdict |
| PmdLoad.LoadBones | libvpvl2/src/core/pmd/Bone.cc:169-202 | the arena and the outcome are those of the `Load` fold, so `LoadOutcome` and `LoadSucceedsIff` describe them |
| PmdLoad.FirstBad | libvpvl2/src/core/pmd/Bone.cc:176-198 | returns the first bone with an out-of-range index, or the count when there is none |
| PmdLoad.ResolveBoneAgrees | libvpvl2/src/core/pmd/Bone.cc:172-199 | resolving a bone reads only that bone and the other bones' record fields |
| PmdLoad.LoadFrom | libvpvl2/src/core/pmd/Bone.cc:169-202 | from any position the pass resolves every bone up to the first bad one, sets that bone's index, stops there and leaves later bones untouched |
| PmdLoad.LoadOutcome | libvpvl2/src/core/pmd/Bone.cc:169-202 | the same for the whole arena: bones before the first bad one are resolved, the bad one gets its index, the rest are untouched |
| PmdLoad.LoadSucceedsIff | libvpvl2/src/core/pmd/Bone.cc:169-202 | loading succeeds iff every bone's parent, target and child index is negative or below the count |
| PmdLoad.LoadKeepsRecords | libvpvl2/src/core/pmd/Bone.cc:169-202 | loading never changes what a bone writes or the size estimate |
| PmdLoad.TotalSizeOfSameConstraints | libvpvl2/src/core/pmd/Bone.cc:233-243 | the size estimate depends only on the fields loading keeps |
| PmdLoad.LoadedOffsets | libvpvl2/src/core/pmd/Bone.cc:181-183 | after a successful load of freshly read bones, each bone has its index, its parent is the bone its record names (in range), and its offset plus `destinationOrigin` is its origin |
| RigidBodies.Fired | libvpvl2/src/core/internal/BaseRigidBody.cc:445 | every listener, in list order, is told about the event exactly once |
| RigidBodies.ActivationFlagsOneBit | libvpvl2/src/core/internal/BaseRigidBody.cc:206-214 | activation touches only the kinematic bit: clear iff the body is activated |
| RigidBodies.ActivationFlagsLastWins | libvpvl2/src/core/internal/BaseRigidBody.cc:206-214 | repeating an activation changes nothing, and it undoes the opposite one |
| RigidBodies.Removed | libvpvl2/src/core/internal/BaseRigidBody.cc:241 | removing an absent listener changes nothing; removing a present one shortens the list by one |
| RigidBodies.FirstIndex | libvpvl2/src/core/internal/BaseRigidBody.cc:241 | the position removal works on is the listener's first occurrence |
| RigidBodies.RemovedMembers | libvpvl2/src/core/internal/BaseRigidBody.cc:246-251 | removing from a duplicate-free list takes out exactly that listener and keeps the list duplicate-free |
| RigidBodies.AddedMembers | libvpvl2/src/core/internal/BaseRigidBody.cc:238-244 | adding keeps the list duplicate-free, puts the listener last, adds nothing else, and doing it twice is doing it once |
| RigidBodies.MotionState.constructor | libvpvl2/src/core/internal/BaseRigidBody.cc:55-60 | a motion state starts with its start transform as its world transform |
| RigidBodies.MotionState.SetWorldTransform | libvpvl2/src/core/internal/BaseRigidBody.cc:66-100 | the transform is stored; `getWorldTransform` then hands it back from a default state, while a kinematic state goes on reporting the bone's local transform times its start transform |
| RigidBodies.RigidBody.constructor | libvpvl2/src/core/internal/BaseRigidBody.cc:102-131 | every field takes the constructor's default: no Bullet objects, identity transforms, the shared null bone, index -1, static and of unknown shape |
| RigidBodies.RigidBody.InstallMotionStates | libvpvl2/src/core/internal/BaseRigidBody.cc:298-311 | the rest transform and its inverse are installed; a static body gets only a kinematic active state, any other body a default active state and a kinematic one in reserve |
| RigidBodies.Rebound | libvpvl2/src/core/internal/BaseRigidBody.cc:465-479 | binding the bone already bound changes nothing; any other binding is announced to every listener; a bone of the arena becomes the bound bone, lends its index and gets IK iff the body is static; null binds the shared null bone with index -1 |
| RigidBodies.ReboundKeepsOtherBones | libvpvl2/src/core/internal/BaseRigidBody.cc:465-479 | binding a bone changes no other bone of the arena |
| RigidBodies.Body.SetMotionState | libvpvl2/src/core/internal/BaseRigidBody.cc:210-217 | Bullet's `setMotionState`: the state is installed and, when there is one, the centre of mass is reloaded from its `getWorldTransform` |
| RigidBodies.Body.SetCenterOfMassTransform | libvpvl2/src/core/internal/BaseRigidBody.cc:170-171 | Bullet's `setCenterOfMassTransform`: the centre of mass becomes the transform, and so does the interpolation transform unless the body is kinematic, which keeps the previous centre of mass there |
| RigidBodies.RigidBody.CreateRigidBody | libvpvl2/src/core/internal/BaseRigidBody.cc:288-329 | `Created`: the rest transform and its inverse, the motion states as above, and a fresh body on the active state with the construction info (zero mass when static, the shape `createShape` gives), the kinematic flag for a static body, no deactivation, a back pointer, the centre of mass and interpolation transform the active state reports, and no force or torque |
| RigidBodies.RigidBody.SetActivation | libvpvl2/src/core/internal/BaseRigidBody.cc:204-219 | a non-static body toggles the kinematic bit and installs its default state (activated) or its kinematic one; a static one keeps its flags and gets its active state; the installed state's world transform becomes the centre of mass; nothing else changes |
| RigidBodies.RigidBody.SyncLocalTransform | libvpvl2/src/core/internal/BaseRigidBody.cc:164-188 | for a non-static body on a real bone, the bone's skinning transform becomes the centre of mass times the inverse rest transform; an aligned body first moves its centre of mass to the bone's origin, which also becomes the interpolation transform unless the body is kinematic; otherwise nothing changes |
| RigidBodies.RigidBody.UpdateTransform | libvpvl2/src/core/internal/BaseRigidBody.cc:231-236 | bone-local times rest transform goes to the active motion state and the body's interpolation transform; nothing else changes |
| RigidBodies.RigidBody.ResetBody | libvpvl2/src/core/internal/BaseRigidBody.cc:221-229 | force and torque are cleared; nothing else changes |
| RigidBodies.RigidBody.AddEventListenerRef | libvpvl2/src/core/internal/BaseRigidBody.cc:238-244 | a null listener is ignored; any other ends up last, exactly once |
| RigidBodies.RigidBody.RemoveEventListenerRef | libvpvl2/src/core/internal/BaseRigidBody.cc:246-251 | a null listener is ignored; any other is removed |
| RigidBodies.RigidBody.GetEventListenerRefs | libvpvl2/src/core/internal/BaseRigidBody.cc:253-256 | the copy equals the list, with no duplicate and no null |
| RigidBodies.RigidBody.SetBoneRef | libvpvl2/src/core/internal/BaseRigidBody.cc:465-479 | the bound bone, bone index, event log and arena become `Rebound` of the old ones, and the listener invariant holds |
| RigidBodies.RigidBody.SetName | libvpvl2/src/core/internal/BaseRigidBody.cc:439-458 | a non-null, different name of the default, Japanese or English slot is announced and stored; anything else changes nothing |
| RigidBodies.RigidBody.SetParentModelRef | libvpvl2/src/core/internal/BaseRigidBody.cc:460-463 | the parent model is stored |
| RigidBodies.RigidBody.SetIndex | libvpvl2/src/core/internal/BaseRigidBody.cc:577-580 | the index is stored, silently |
| RigidBodies.RigidBody.SetAngularDamping | libvpvl2/src/core/internal/BaseRigidBody.cc:481-487 | stored; announced iff it changes |
| RigidBodies.RigidBody.SetCollisionGroupID | libvpvl2/src/core/internal/BaseRigidBody.cc:489-495 | stored; announced iff it changes |
| RigidBodies.RigidBody.SetCollisionMask | libvpvl2/src/core/internal/BaseRigidBody.cc:497-503 | stored; announced iff it changes |
| RigidBodies.RigidBody.SetFriction | libvpvl2/src/core/internal/BaseRigidBody.cc:505-511 | stored; announced iff it changes |
| RigidBodies.RigidBody.SetLinearDamping | libvpvl2/src/core/internal/BaseRigidBody.cc:513-519 | stored; announced iff it changes |
| RigidBodies.RigidBody.SetMass | libvpvl2/src/core/internal/BaseRigidBody.cc:521-527 | stored; announced iff it changes |
| RigidBodies.RigidBody.SetPosition | libvpvl2/src/core/internal/BaseRigidBody.cc:529-535 | stored; announced iff it changes |
| RigidBodies.RigidBody.SetRestitution | libvpvl2/src/core/internal/BaseRigidBody.cc:537-543 | stored; announced iff it changes |
| RigidBodies.RigidBody.SetRotation | libvpvl2/src/core/internal/BaseRigidBody.cc:545-551 | stored; announced iff it changes |
| RigidBodies.RigidBody.SetShapeType | libvpvl2/src/core/internal/BaseRigidBody.cc:553-559 | stored; announced iff it changes |
| RigidBodies.RigidBody.SetSize | libvpvl2/src/core/internal/BaseRigidBody.cc:561-567 | stored; announced iff it changes |
| RigidBodies.RigidBody.SetObjectType | libvpvl2/src/core/internal/BaseRigidBody.cc:569-575 | stored; announced iff it changes |
| RigidBodies.RigidBody.CreateKinematicMotionState | libvpvl2/src/core/internal/BaseRigidBody.cc:591-594 | a new kinematic state owned by the body, starting at the rest transform |
| RigidBodies.RigidBody.CreateDefaultMotionState | libvpvl2/src/core/internal/BaseRigidBody.cc:596-599 | a new default state owned by the body, starting at the rest transform |
| RigidBodies.RigidBody.Build | libvpvl2/src/core/internal/BaseRigidBody.cc:582-589 | the bone binding is `Rebound` of the old one (as `setBoneRef`), the shape is `createShape`'s (a sphere of radius size.x, a box of half-extents size, a capsule of size.x by size.y, none iff the type is unknown), the body is fresh and `Created` holds of it (as `createRigidBody`), the temporary pointer is cleared, the index taken, and the listener invariant kept |
| RigidBodies.RigidBody.CreateBody | libvpvl2/src/core/internal/BaseRigidBody.cc:584-588 | the shape is `createShape`'s, the body is fresh and `Created` holds of it, the temporary pointer is cleared and the index taken |
| CgAnnotations.MatchSegment | libvpvl2/include/vpvl2/cg/EngineCommon.h:1287-1299 | a segment matches iff its leading number is the subset, or it is a range (zero upper bound meaning the material count, either order) that contains it |
| CgAnnotations.ContainsSubset | libvpvl2/include/vpvl2/cg/EngineCommon.h:1280-1302 | true iff the annotation is absent or some segment matches; an empty list matches nothing |
| CgAnnotations.SubsetNamesNumber | libvpvl2/include/vpvl2/cg/EngineCommon.h:1286-1288 | a list with a plain-number segment selects that subset, whatever the other segments |
| CgAnnotations.RangeSegment | libvpvl2/include/vpvl2/cg/EngineCommon.h:1289-1298 | a segment `a-b` selects every subset between a and b in either order, with b = 0 standing for the material count |
| CgParameters.ConnectAllHub | libvpvl2/include/vpvl2/cg/EngineCommon.h:111-118 | the first parameter routed to an empty slot becomes and stays its destination, and every later one, in order, is connected to it |
| CgParameters.BaseParameter.constructor | libvpvl2/include/vpvl2/cg/EngineCommon.h:98-101 | the slot starts empty |
| CgParameters.BaseParameter.AddParameter | libvpvl2/include/vpvl2/cg/EngineCommon.h:106-108 | the slot and the connections follow `connectParameter` |
| CgParameters.VariantOfExact | libvpvl2/include/vpvl2/cg/EngineCommon.h:253-267 | each variant is chosen iff the suffix is exactly its literal; anything else picks the plain matrix |
| CgParameters.ObjectOf | libvpvl2/include/vpvl2/cg/EngineCommon.h:212-224 | no annotation or "Camera" picks the camera, "Light" the light, any other name nothing |
| CgParameters.MatrixSemantic.constructor | libvpvl2/include/vpvl2/cg/EngineCommon.h:186-198 | all eight slots start empty |
| CgParameters.MatrixSemantic.ConnectSlot | libvpvl2/include/vpvl2/cg/EngineCommon.h:111-118 | one slot follows `connectParameter`; the other seven keep their values |
| CgParameters.MatrixSemantic.SetParameter | libvpvl2/include/vpvl2/cg/EngineCommon.h:246-268 | the slot the suffix selects follows `connectParameter`; the others are untouched |
| CgParameters.MatrixSemantic.AddParameter | libvpvl2/include/vpvl2/cg/EngineCommon.h:211-225 | the object family and the suffix pick one slot; an unknown family changes nothing |
| CgParameters.TimeSemantic.constructor | libvpvl2/include/vpvl2/cg/EngineCommon.h:413-419 | both slots start empty |
| CgParameters.TimeSemantic.AddParameter | libvpvl2/include/vpvl2/cg/EngineCommon.h:426-435 | a true `SyncInEditMode` goes to the synchronised slot; anything else goes to the other, which is the only slot that changes |
| CgTexture.AtLeastOne | libvpvl2/include/vpvl2/cg/EngineCommon.h:704-705 | `btMax(1, v)` is at least 1 and at least v, and is one of them |
| CgTexture.Scaled | libvpvl2/include/vpvl2/cg/EngineCommon.h:695-696 | a viewport-relative dimension is at least 1 |
| CgTexture.Size2From | libvpvl2/include/vpvl2/cg/EngineCommon.h:685-720 | both dimensions are at least 1, as written (`GetSize2AsWritten`) and corrected (`GetSize2`) alike |
| CgTexture.AsWrittenIgnoresDimensions | libvpvl2/include/vpvl2/cg/EngineCommon.h:700-708 | as written, without `ViewportRatio`, removing `Dimensions` never changes the size |
| CgTexture.Size2Counterexample | libvpvl2/include/vpvl2/cg/EngineCommon.h:702 | 256×128 `Dimensions` on an 800×600 viewport gives 800×600 as written and 256×128 corrected |
| CgTexture.Size2HonoursDimensions | libvpvl2/include/vpvl2/cg/EngineCommon.h:700-708 | corrected, two `Dimensions` values give the size (clamped) unless a two-value ratio is present |
| CgTexture.Size2RatioFirst | libvpvl2/include/vpvl2/cg/EngineCommon.h:686-698 | a two-value `ViewportRatio` decides the size whatever else is annotated |
| CgTexture.GetSize3 | libvpvl2/include/vpvl2/cg/EngineCommon.h:721-747 | all three dimensions are at least 1 |
| CgTexture.Size3Fallback | libvpvl2/include/vpvl2/cg/EngineCommon.h:742-746 | without three dimensions and without a full width/height/depth triple, the volume is viewport-sized and 24 deep, whatever else is annotated |
| CgEffect.Interpret | libvpvl2/include/vpvl2/cg/EngineCommon.h:1416-1487 | a command rejects iff it is a forbidden `Draw` or `ScriptExternal` inside a loop; `LoopEnd` only closes an open loop; `LoopByCount` only opens one; other states inherit the loop flag; `ScriptExternal` only under post-process; `Draw` is never recorded |
| CgEffect.InterpretKinds | libvpvl2/include/vpvl2/cg/EngineCommon.h:1416-1487 | a recorded state has the type the command table `CommandKind` gives its command (as written, `LoopGetIndex` records `LoopByCount`) |
| CgEffect.TargetKinds | libvpvl2/include/vpvl2/cg/EngineCommon.h:1417-1431 | the render-target commands always record a state of their kind, whether or not the target is known |
| CgEffect.InterpretIgnoresUnknown | libvpvl2/include/vpvl2/cg/EngineCommon.h:1416-1487 | a command outside the table, other than `Draw`, records nothing and does not reject |
| CgEffect.TypedParameterFound | libvpvl2/include/vpvl2/cg/EngineCommon.h:1432-1445 | with non-zero handles, the typed lookup is 0 exactly when no parameter has that name and type, and otherwise is that parameter |
| CgEffect.Command | libvpvl2/include/vpvl2/cg/EngineCommon.h:1412-1415 | no command iff the segment has no `=`; otherwise the segment is command, `=`, value, split at the first `=` |
| CgEffect.CommandOf | libvpvl2/include/vpvl2/cg/EngineCommon.h:1412-1415 | a `command=value` segment whose command has no `=` splits back into the two |
| CgEffect.ParseScript | libvpvl2/include/vpvl2/cg/EngineCommon.h:1400-1503 | the parse ends as invalid iff the technique is absent or fails validation, and ends without a script iff a valid technique has no `Script` annotation |
| CgEffect.StepWithoutCommand | libvpvl2/include/vpvl2/cg/EngineCommon.h:1412-1415 | a segment without `=` changes nothing |
| CgEffect.StepGrows | libvpvl2/include/vpvl2/cg/EngineCommon.h:1488-1495 | one segment appends at most one state, to the end of one of the two lists |
| CgEffect.RunGrows | libvpvl2/include/vpvl2/cg/EngineCommon.h:1411-1496 | states are appended in script order and never removed: the lists the loop starts from are prefixes of those it ends with, grown by at most one state per segment |
| CgEffect.StepInv | libvpvl2/include/vpvl2/cg/EngineCommon.h:1411-1496 | every segment keeps the states well nested and routed |
| CgEffect.RunInv | libvpvl2/include/vpvl2/cg/EngineCommon.h:1411-1496 | the whole segment loop keeps the states well nested and routed |
| CgEffect.ParseBalanced | libvpvl2/include/vpvl2/cg/EngineCommon.h:1400-1503 | a parsed script's states, external ones first, never nest or over-close a loop, and the script is accepted iff no loop is left open; without post-process order the external list stays empty; with it, the technique list starts at the `ScriptExternal` state and the external list holds none |
| CgEffect.ApplyRelabel | libvpvl2/include/vpvl2/cg/EngineCommon.h:1488-1495 | recording a relabelled state into a relabelled parse gives the relabelled result |
| CgEffect.StepAsWritten | libvpvl2/include/vpvl2/cg/EngineCommon.h:1468-1475 | one segment as written is the corrected step with `LoopGetIndex` states recorded as `LoopByCount` |
| CgEffect.RunAsWritten | libvpvl2/include/vpvl2/cg/EngineCommon.h:1411-1496 | the whole segment loop as written is the corrected loop, relabelled |
| CgEffect.ParseAsWritten | libvpvl2/include/vpvl2/cg/EngineCommon.h:1400-1503 | the as-written parse ends as the corrected one does, with the same verdict, and its state lists are the corrected ones relabelled |
| CgEffect.DrawRejects | libvpvl2/include/vpvl2/cg/EngineCommon.h:1476-1481 | `Draw=Buffer` in an object-class effect, or `Draw=Geometry` in a scene-class one, rejects the whole script |
| CgEffect.ExternalInLoopRejects | libvpvl2/include/vpvl2/cg/EngineCommon.h:1482-1487 | `ScriptExternal` inside an open loop rejects a post-process script |
| CgEffect.LoopCommands | libvpvl2/include/vpvl2/cg/EngineCommon.h:1412-1415 | the three segments of the loop example split into their commands |
| CgEffect.LoopExampleFirst | libvpvl2/include/vpvl2/cg/EngineCommon.h:1456-1463 | `LoopByCount=n` opens a loop |
| CgEffect.LoopExampleSecond | libvpvl2/include/vpvl2/cg/EngineCommon.h:1468-1475 | `LoopGetIndex=i` records a second `LoopByCount` as written and a loop-index state corrected |
| CgEffect.LoopExampleThird | libvpvl2/include/vpvl2/cg/EngineCommon.h:1464-1467 | `LoopEnd` closes the loop |
| CgEffect.LoopExampleDepth | libvpvl2/include/vpvl2/cg/EngineCommon.h:1468-1475 | the example leaves one loop open as written and none corrected |
| CgEffect.LoopGetIndexExample | libvpvl2/include/vpvl2/cg/EngineCommon.h:1471 | a balanced `LoopByCount;LoopGetIndex;LoopEnd` script ends with an unbalanced state list as written, and a balanced one corrected |
| CgEffect.TestTechnique | libvpvl2/include/vpvl2/cg/EngineCommon.h:1257-1279 | a technique passes iff it is valid, its `MMDPass` (if present) names the pass, it passes the subset filter, and each of `UseTexture`, `UseSphereMap` and `UseToon` that is present equals the material's flag; so an invalid technique fails, a valid one with no annotations passes, and a passing one has the `MMDPass` it names (`Util::isPassEquals`), its `UseTexture`, `UseSphereMap` and `UseToon` flags read by `Util::toBool` (the first bool value, false when none) equal to the material's, and passes the subset filter |
| CgEffect.ClassFrom | libvpvl2/include/vpvl2/cg/EngineCommon.h:1317-1329 | an absent or unknown class name keeps the current class; "object", "scene" and "sceneobject" select the object, scene and scene-object classes |
| CgEffect.OrderFrom | libvpvl2/include/vpvl2/cg/EngineCommon.h:1330-1342 | an absent or unknown order name keeps the current order; "standard", "preprocess" and "postprocess" select the standard, pre-processing and post-processing orders |
| CgEffect.SelectAllMembers | libvpvl2/include/vpvl2/cg/EngineCommon.h:1353-1362 | under either `LoopGetIndex` rule, a technique is kept iff it is named, valid and its script is accepted |
| CgEffect.ScanSegment | libvpvl2/include/vpvl2/cg/EngineCommon.h:1412-1495 | one loop iteration is one `Step` of the parse as written (`LoopGetIndex` recorded as `LoopByCount`); by `StepAsWritten` it is the corrected step relabelled |
| CgEffect.IntendedIsPrefixCompare | libvpvl2/include/vpvl2/cg/EngineCommon.h:1349-1360 | the intended rule is `strncmp` over the literal's length without its terminator: a value selects iff it starts with `Technique=`, and after `Technique=Technique?` come the `:`-separated names |
| CgEffect.IntendedNamesRoundTrip | libvpvl2/include/vpvl2/cg/EngineCommon.h:1349-1354 | the intended rule reads back any `:`-separated name list written after `Technique=Technique?` |
| CgEffect.IntendedSingleRoundTrip | libvpvl2/include/vpvl2/cg/EngineCommon.h:1359-1360 | the intended rule reads back a single name written after `Technique=` |
| CgEffect.TechniqueListCounterexample | libvpvl2/include/vpvl2/cg/EngineCommon.h:1349-1360 | a name list after `Technique=Technique?` (such as `Main:Sub`) passes neither `strncmp` with `sizeof`, while the intended rule selects those names |
| CgEffect.Effect.constructor | libvpvl2/include/vpvl2/cg/EngineCommon.h:922-942 | object class, standard order, no techniques and empty state tables |
| CgEffect.Effect.ParseTechniqueScript | libvpvl2/include/vpvl2/cg/EngineCommon.h:1400-1503 | the verdict is `Accepted` of the parse as written, which is also the corrected parse's verdict; the tables hold the as-written states |
| CgEffect.Effect.FindTechnique | libvpvl2/include/vpvl2/cg/EngineCommon.h:1079-1094 | the first technique that passes the test; when none passes, the last technique; none when the list is empty |
| CgEffect.Effect.SelectTechniques | libvpvl2/include/vpvl2/cg/EngineCommon.h:1349-1363 | the techniques kept as written (by `SelectAllMembers`, the named, valid ones whose scripts are accepted) are appended in order, and the tables hold their states |
| CgEffect.Effect.ReadScriptClass | libvpvl2/include/vpvl2/cg/EngineCommon.h:1317-1329 | the class follows the `ScriptClass` annotation |
| CgEffect.Effect.ReadScriptOrder | libvpvl2/include/vpvl2/cg/EngineCommon.h:1330-1342 | the order follows the `ScriptOrder` annotation |
| CgEffect.Effect.SetStandardsGlobal | libvpvl2/include/vpvl2/cg/EngineCommon.h:1316-1365 | class and order follow their annotations; without `Script` nothing else changes; a `Script` value other than the two bare literals empties the technique list; `Technique=Technique?` replaces it by the accepted techniques among `named`, `Technique=` by `single` if accepted |
| LipSync.PhoneOf | QMA1/LipSync.cc:90-100 | a token in the phone table names its first position; any other token names phone 0 |
| LipSync.PhoneOfAt | QMA1/LipSync.cc:92-97 | a position holding the token with no earlier one is the phone found |
| LipSync.Timing | QMA1/LipSync.cc:101-108 | a duration is at least one frame; duration plus carry is the requested time plus the previous carry; a request of at least half a frame leaves a carry in [-0.5, 0.5) |
| LipSync.TotalDurationAppend | QMA1/LipSync.cc:139 | frame lengths add up over concatenation |
| LipSync.ScanShape | QMA1/LipSync.cc:89-111 | n tokens make n/2 frames: each duration token makes one frame, at least one frame long, at full rate, of the phone named by the token before it |
| LipSync.ScanCarry | QMA1/LipSync.cc:101-108 | no time is lost to rounding: the frames handed out plus the carry left equal the time asked for |
| LipSync.ExpandDuration | QMA1/LipSync.cc:116-125 | inserting interpolation frames keeps the total length |
| LipSync.ExpandKeeps | QMA1/LipSync.cc:116-125 | with a positive margin every frame stays positive, no new phone appears, and a short last frame stays last |
| LipSync.ExpandAppend | QMA1/LipSync.cc:116-125 | expansion works frame by frame and keeps the frame order |
| LipSync.ExpandShort | QMA1/LipSync.cc:117 | frames no longer than the margin are left as they are |
| LipSync.ExpandAt | QMA1/LipSync.cc:116-125 | each frame lands after the expansion of the frames before it: one longer than the margin as a lead-in of exactly the margin at the rate times 0.8 followed by the rest of the frame, any other unchanged |
| LipSync.PrefixDurations | QMA1/LipSync.cc:139 | frame boundaries strictly grow with positive lengths |
| LipSync.Track | QMA1/LipSync.cc:133-140 | one key frame per lip frame |
| LipSync.TrackAt | QMA1/LipSync.cc:134-139 | each key frame has the expression's name, starts where the previous frames end, and weighs the blend entry times the rate |
| LipSync.TrackIndices | QMA1/LipSync.cc:136-139 | with positive lengths a track starts at frame 0 and its frame indices strictly increase |
| LipSync.LipSync.constructor | QMA1/LipSync.cc:26-79 | the tables are those given |
| LipSync.LipSync.BlendRate | QMA1/LipSync.cc:145-148 | the blend rate is an entry of the table |
| LipSync.LipSync.BlendRateLayout | QMA1/LipSync.cc:147 | in a full table every phone/expression pair has its own entry, in range |
| LipSync.LipSync.PhonesCovered | QMA1/LipSync.cc:137 | frames whose phones index the phone table find an entry for every expression |
| LipSync.LipSync.TrackOf | QMA1/LipSync.cc:133-140 | an expression's track has one key frame per lip frame |
| LipSync.LipSync.Keys | QMA1/LipSync.cc:130-141 | one key frame per expression and lip frame |
| LipSync.LipSync.KeysTrack | QMA1/LipSync.cc:130-141 | expression e's key frames form the e-th block, which is its track |
| LipSync.LipSync.LipFramesPhones | QMA1/LipSync.cc:89-125 | once a phone table exists, every phone of the lip frames, before and after expansion, indexes it |
| LipSync.LipSync.Motion | QMA1/LipSync.cc:126-142 | the motion has one key frame per expression and expanded frame |
| LipSync.LipSync.MotionBlock | QMA1/LipSync.cc:126-142 | each expression's block of the motion is its track over the expanded frames |
| LipSync.LipSync.LipFramesShape | QMA1/LipSync.cc:89-115 | the lip frames are all at least one frame long and end with the closing frame, which starts at the time asked for less the final carry |
| LipSync.LipSync.ExpandedShape | QMA1/LipSync.cc:112-125 | the same after expansion, with a positive margin |
| LipSync.LipSync.MotionTrack | QMA1/LipSync.cc:126-142 | every expression's track is nonempty, starts at frame 0, strictly increases, ends on a zero-weight closing key, and its last index plus the carry is the time asked for |
| LipSync.LipSync.FindPhone | QMA1/LipSync.cc:90-100 | the phone loop finds `PhoneOf`: the first match, else phone 0 |
| LipSync.LipSync.ReadFrames | QMA1/LipSync.cc:89-111 | the token loop builds `Scan`'s frames, which `ScanShape` and `ScanCarry` describe |
| LipSync.LipSync.ExpandFrames | QMA1/LipSync.cc:116-125 | the interpolation loop builds `Expand`'s frames, which keep the total length and the order |
| LipSync.LipSync.EmitTrack | QMA1/LipSync.cc:131-140 | the inner loop emits the expression's track |
| LipSync.LipSync.EmitKeys | QMA1/LipSync.cc:128-141 | the expression loop emits `Keys`: every expression's track, in expression order |
| LipSync.LipSync.CreateMotion | QMA1/LipSync.cc:81-143 | the motion is `Motion`, so `MotionBlock` and `MotionTrack` hold of it |
| LipSync.LipSync.Release | QMA1/LipSync.cc:150-155 | all three tables are empty, which is a valid (empty) state |

## Left out

- Names are kept as raw bytes or strings. Shift-JIS decoding and the encoding object are not modelled, so `hasLocalAxes` and `getLocalAxes` (name tests plus vector normalisation) are not modelled either.
- `solveInverseKinematics` has an empty body, and the model has none.
- Bone setters and getters that only store or return a field are not modelled (`setLocalPosition`, `setRotation`, `setSimulated`, `origin`, …). Neither are the rigid body's getters (`body`, `name`, `mass`, …).
- Floats are reals. There is no float rounding, and `slerp`, quaternion products and transform products are uninterpreted terms.
- `createTransform`'s Euler-angle basis is an uninterpreted term, `TEuler`.
- The Bullet body is an abstract record. Local inertia, dynamics, the broad phase and the pair-cache cleanup of `resetBody` are not modelled. Bullet's initial collision flags are a parameter.
- Bullet's `setMotionState` and `setCenterOfMassTransform` are modelled only for the state this code reads: the velocities, the interpolation velocities and the world inertia tensor they also update are not modelled.
- The IK switch `IBone::setInverseKinematicsEnable`, which `setBoneRef` calls, is a field of the modelled bone, because Bone.cc neither declares nor keeps it; nothing in the model reads it.
- `joinWorld` and `leaveWorld` are not modelled: they hand the body to the Bullet world.
- The kinematic motion state's null-bone branch, which returns the identity, cannot be reached: a body always has a bone, the shared null bone when unbound. That bone's local transform is an opaque constant, because the null bone's class is not part of this model.
- `Array::remove` is modelled as overwriting with the last element and shrinking. The listeners are natural numbers; 0 is the null pointer.
- `Model::DataInfo` is reduced to the four fields the two preparse functions fill in. `internal::size16`, `readBytes` and `getData` are modelled inline.
- Cg runtime calls are modelled through maps and records:
  - a technique is a record with its name, validity and annotations;
  - the effect's parameters and the colour and depth-stencil targets are maps;
  - a non-string annotation is read as the empty string;
  - a `CGparameter` is a natural number, with 0 as the null handle.
- CgEffect.Effect.SetStandardsGlobal: the names are read from `value + sizeof(literal)`, one past the terminator of a value that equals the literal, so the bytes they come from are not part of the annotation. The model takes the techniques looked up there as the parameters `named` and `single`.
- `cgConnectParameter` calls are recorded in a per-binder `connections` list. The GL and Cg upload calls (`setMatrices`, `setValue`, …) are not modelled.
- Only the binders `BaseParameter`, `MatrixSemantic` and `TimeSemantic` are modelled.
- Texture generation and the remaining semantics and render code of EngineCommon.h are not modelled.
- `Hash::insert` of the state tables is modelled as map update.
- Pass handles in script states are not modelled. A `Pass=` command records a pass state when the technique names that pass.
- `strtol` saturation on overflow is not modelled: digit strings read as unbounded integers, and `int` truncation of the range bounds is not modelled.
- `LipSync::load` is not modelled, and neither is its behaviour on a malformed file. The constructor takes the three tables `load` would read.
- The value of `kInterpolationMargin` is a constructor parameter, because LipSync.h is not part of this model. The properties of expanded frames assume it is positive. The rate `kInterpolationRate` is defined in QMA1/LipSync.cc:15 as `0.8f` and is the constant `LipSync.InterpolationRate`.
- `QString::toFloat` is the parameter `toFloat`.
- The `VMDMotion` and `FaceAnimation` objects are modelled as the sequence of face key frames, in insertion order. Name encoding is not modelled.
- LipSync.LipSync.CreateMotion: requires a full blend table (phones × expressions, and a phone whenever there is an expression). With a shorter table the source reads out of range; the model does not follow it there.

## Findings

| source | as written | input that shows it | evidently intended | confidence | as-written member | corrected member |
|---|---|---|---|---|---|---|
| libvpvl2/include/vpvl2/cg/EngineCommon.h:702 | `getSize2` reads the `Dimensions` values from the `ViewportRatio` annotation handle | a parameter with only `Dimensions = {256, 128}` on an 800×600 viewport yields 800×600 | read the values of the `Dimensions` annotation and yield 256×128 | not executed | CgTexture.Size2Counterexample | CgTexture.Size2HonoursDimensions |
| libvpvl2/include/vpvl2/cg/EngineCommon.h:1349-1360 | `setStandardsGlobal` compares the `Script` value with each literal over `sizeof`, terminator included, then reads names from `value + sizeof` | `Technique=Technique?Main:Sub` selects no technique and empties the list; the bare `Technique=Technique?` is accepted and names are read past its terminator | compare over the literal's length and read the names after it, selecting `Main` and `Sub` | not executed | CgEffect.TechniqueListCounterexample | CgEffect.IntendedNamesRoundTrip |
| libvpvl2/include/vpvl2/cg/EngineCommon.h:1471 | `LoopGetIndex` records a `kLoopByCount` state with the loop flag set | the script `LoopByCount=n;LoopGetIndex=i;LoopEnd=x` with integer `n` and `i` is accepted, but its state list opens two loops and closes one | record a loop-index state that neither opens nor closes a loop, so that accepted scripts are balanced | not executed | CgEffect.LoopGetIndexExample | CgEffect.ParseBalanced |
