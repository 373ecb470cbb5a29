/** The byte-budget checks that run before any PMD bone is decoded
    (`Bone::preparseBones`, `Bone::preparseIKConstraints`,
    libvpvl2/src/core/pmd/Bone.cc). Both read a 16-bit little-endian count,
    check that the table fits in the bytes left, record where it starts, and
    advance the read position past it. */
module PmdPreparse {
  import opened Geometry
  import opened PmdBone

  /** The unsigned 16-bit little-endian value at `p`. */
  function Uint16At(data: seq<uint8>, p: nat): nat
    requires p + 2 <= |data|
  {
    data[p] as nat + 256 * data[p + 1] as nat
  }

  /** Bytes taken by the IK record at `p`: its header and its link list. The
      link count is the byte at offset 4 of the header. */
  function IKRecordSize(data: seq<uint8>, p: nat): nat
    requires p + IKUnitSize <= |data|
  {
    IKUnitSize + LinkSize * data[p + 4] as nat
  }

  /** The record loop of `preparseIKConstraints` from position `p` with `rest`
      bytes left and `count` records to go: where it stops and whether it
      got through. It stops at the first record whose header, or whose
      header and link list, do not fit. */
  function IKWalk(data: seq<uint8>, p: nat, rest: nat, count: nat): (r: (nat, nat, bool))
    requires p + rest <= |data|
    ensures r.0 + r.1 == p + rest && r.1 <= rest
    decreases count
  {
    if count == 0 then (p, rest, true)
    else if IKUnitSize > rest then (p, rest, false)
    else
      var size := IKRecordSize(data, p);
      if size > rest then (p, rest, false)
      else IKWalk(data, p + size, rest - size, count - 1)
  }

  /** A successful walk over `count` records consumed at least a header per
      record and at most everything there was. */
  lemma {:induction false} IKWalkConsumes(data: seq<uint8>, p: nat, rest: nat, count: nat)
    requires p + rest <= |data|
    requires IKWalk(data, p, rest, count).2
    ensures count * IKUnitSize <= rest - IKWalk(data, p, rest, count).1
    decreases count
  {
    if count > 0 {
      var size := IKRecordSize(data, p);
      IKWalkConsumes(data, p + size, rest - size, count - 1);
    }
  }

  /** A walk with a budget of `rest` succeeds whenever a walk with a smaller
      budget does: checking against the bytes left is monotone. */
  lemma {:induction false} IKWalkMonotone(data: seq<uint8>, p: nat, rest: nat, more: nat, count: nat)
    requires p + rest + more <= |data|
    requires IKWalk(data, p, rest, count).2
    ensures IKWalk(data, p, rest + more, count).2
    ensures IKWalk(data, p, rest + more, count).1 == IKWalk(data, p, rest, count).1 + more
    decreases count
  {
    if count > 0 {
      var size := IKRecordSize(data, p);
      IKWalkMonotone(data, p + size, rest - size, more, count - 1);
    }
  }

  /** `Model::DataInfo`, restricted to the fields the two checks fill in. */
  class DataInfo {
    var bonesCount: nat
    var bonesPtr: nat
    var ikConstraintsCount: nat
    var ikConstraintsPtr: nat

    constructor ()
      ensures bonesCount == 0 && bonesPtr == 0 && ikConstraintsCount == 0 && ikConstraintsPtr == 0
    {
      bonesCount, bonesPtr, ikConstraintsCount, ikConstraintsPtr := 0, 0, 0, 0;
    }
  }

  /** The pair `uint8_t *&ptr, size_t &rest` the parser threads through: a
      position in the model's bytes and the number of bytes left after it. */
  class Reader {
    const data: seq<uint8>
    var ptr: nat
    var rest: nat

    ghost predicate Valid()
      reads this
    {
      ptr + rest <= |data|
    }

    constructor (data: seq<uint8>)
      ensures this.data == data && ptr == 0 && rest == |data| && Valid()
    {
      this.data := data;
      ptr := 0;
      rest := |data|;
    }

    /** `readBytes`: skips `size` bytes. */
    method ReadBytes(size: nat)
      requires Valid() && size <= rest
      modifies this
      ensures Valid()
      ensures ptr == old(ptr) + size && rest == old(rest) - size
    {
      ptr := ptr + size;
      rest := rest - size;
    }

    /** `size16`: reads a 16-bit count when two bytes are left. */
    method Size16() returns (ok: bool, size: nat)
      requires Valid()
      modifies this
      ensures Valid()
      ensures ok <==> old(rest) >= 2
      ensures ok ==> size == Uint16At(data, old(ptr)) && ptr == old(ptr) + 2 && rest == old(rest) - 2
      ensures !ok ==> ptr == old(ptr) && rest == old(rest)
    {
      if rest < 2 {
        return false, 0;
      }
      size := Uint16At(data, ptr);
      ReadBytes(2);
      ok := true;
    }

    /** `preparseBones`: the count, then `count` fixed-size records. On
        success the count and the table start are recorded and the table is
        skipped; a table too long for the bytes left is refused after the
        count was consumed. */
    method PreparseBones(info: DataInfo) returns (ok: bool)
      requires Valid()
      modifies this, info
      ensures Valid()
      ensures ok <==> old(rest) >= 2 && Uint16At(data, old(ptr)) * BoneUnitSize <= old(rest) - 2
      ensures ok ==>
        info.bonesCount == Uint16At(data, old(ptr)) && info.bonesPtr == old(ptr) + 2 &&
        ptr == old(ptr) + 2 + info.bonesCount * BoneUnitSize && ptr + rest == old(ptr) + old(rest)
      ensures !ok ==> unchanged(info) && ptr == old(ptr) + (if old(rest) >= 2 then 2 else 0)
                      && ptr + rest == old(ptr) + old(rest)
      ensures info.ikConstraintsCount == old(info.ikConstraintsCount)
      ensures info.ikConstraintsPtr == old(info.ikConstraintsPtr)
    {
      var read, size := Size16();
      if !read || size * BoneUnitSize > rest {
        return false;
      }
      info.bonesCount := size;
      info.bonesPtr := ptr;
      ReadBytes(size * BoneUnitSize);
      return true;
    }

    /** `preparseIKConstraints`: the count, then `count` variable-size
        records. The count and the table start are recorded as soon as the
        count is read, before the records are checked; the position ends
        where the walk stopped. */
    method PreparseIKConstraints(info: DataInfo) returns (ok: bool)
      requires Valid()
      modifies this, info
      ensures Valid()
      ensures old(rest) < 2 ==> !ok && ptr == old(ptr) && rest == old(rest) && unchanged(info)
      ensures old(rest) >= 2 ==>
        info.ikConstraintsCount == Uint16At(data, old(ptr)) && info.ikConstraintsPtr == old(ptr) + 2 &&
        (ptr, rest, ok) == IKWalk(data, old(ptr) + 2, old(rest) - 2, info.ikConstraintsCount)
      ensures info.bonesCount == old(info.bonesCount) && info.bonesPtr == old(info.bonesPtr)
    {
      var read, size := Size16();
      if !read {
        return false;
      }
      info.ikConstraintsCount := size;
      info.ikConstraintsPtr := ptr;
      var i := 0;
      while i < size
        invariant Valid() && 0 <= i <= size
        invariant info.ikConstraintsCount == size && info.ikConstraintsPtr == old(ptr) + 2
        invariant info.bonesCount == old(info.bonesCount) && info.bonesPtr == old(info.bonesPtr)
        invariant IKWalk(data, ptr, rest, size - i) == IKWalk(data, old(ptr) + 2, old(rest) - 2, size)
      {
        if IKUnitSize > rest {
          return false;
        }
        var unitSize := IKUnitSize + LinkSize * data[ptr + 4] as nat;
        if unitSize > rest {
          return false;
        }
        ReadBytes(unitSize);
        i := i + 1;
      }
      return true;
    }
  }
}
