/** The parameter binders of libvpvl2/include/vpvl2/cg/EngineCommon.h: a
    binder keeps one effect parameter per slot, and every further parameter
    routed to a filled slot is connected to the one already there, so that a
    single upload reaches all of them. */
module CgParameters {
  import opened Geometry
  import opened Strings
  import opened CgAnnotations

  /** A `CGparameter` handle; 0 is the null handle. */
  type ParamId = nat

  /** `cgConnectParameter(source, destination)`. */
  datatype Connection = Connection(source: ParamId, destination: ParamId)

  /** `BaseParameter::connectParameter`: the slot after the call and the
      connections the call made. */
  function Connect(slot: ParamId, source: ParamId): (ParamId, seq<Connection>)
  {
    if slot != 0 then (slot, [Connection(source, slot)]) else (source, [])
  }

  /** `connectParameter` called for each of `sources` in turn on one slot. */
  function ConnectAll(slot: ParamId, sources: seq<ParamId>): (ParamId, seq<Connection>)
  {
    if sources == [] then (slot, [])
    else
      var prev := ConnectAll(slot, sources[..|sources| - 1]);
      var step := Connect(prev.0, sources[|sources| - 1]);
      (step.0, prev.1 + step.1)
  }

  /** The first parameter routed to an empty slot becomes its destination;
      it never changes afterwards, and every later parameter, in order, is
      connected to it. */
  lemma {:induction false} ConnectAllHub(slot: ParamId, sources: seq<ParamId>)
    requires forall k :: 0 <= k < |sources| ==> sources[k] != 0
    ensures var r := ConnectAll(slot, sources);
      r.0 == (if slot != 0 then slot else if sources == [] then 0 else sources[0])
    ensures var r := ConnectAll(slot, sources);
      |r.1| == |sources| - (if slot == 0 && sources != [] then 1 else 0)
    ensures var r := ConnectAll(slot, sources);
      forall k :: 0 <= k < |r.1| ==> r.1[k] == Connection(sources[k + |sources| - |r.1|], r.0)
  {
    if sources != [] {
      var init := sources[..|sources| - 1];
      ConnectAllHub(slot, init);
      var prev := ConnectAll(slot, init);
      if init == [] {
        assert sources == [sources[0]];
      } else {
        assert init[0] == sources[0];
        assert forall k :: 0 <= k < |prev.1| ==> prev.1[k] == Connection(sources[k + |init| - |prev.1|], prev.0);
      }
    }
  }

  /** `BaseParameter`: a single slot. */
  class BaseParameter {
    var baseParameter: ParamId
    var connections: seq<Connection>

    constructor()
      ensures baseParameter == 0 && connections == []
    {
      baseParameter := 0;
      connections := [];
    }

    /** `BaseParameter::addParameter`. */
    method AddParameter(parameter: ParamId)
      modifies this
      ensures baseParameter == Connect(old(baseParameter), parameter).0
      ensures connections == old(connections) + Connect(old(baseParameter), parameter).1
    {
      var r := Connect(baseParameter, parameter);
      baseParameter := r.0;
      connections := connections + r.1;
    }
  }

  /** The two families of matrices a `MatrixSemantic` binds. */
  datatype MatrixObject = CameraMatrix | LightMatrix

  /** The four variants of a matrix, chosen by the semantic's suffix. */
  datatype MatrixVariant = Plain | Inversed | Transposed | InverseTransposed

  /** The suffix test of `MatrixSemantic::setParameter`: `strncmp` with the
      size of each literal, terminator included. */
  function VariantOf(suffix: string): MatrixVariant
  {
    if StrncmpEqual(suffix, "INVERSETRANSPOSE", 17) then InverseTransposed
    else if StrncmpEqual(suffix, "TRANSPOSE", 10) then Transposed
    else if StrncmpEqual(suffix, "INVERSE", 8) then Inversed
    else Plain
  }

  /** The suffix must be exactly one of the three literals; anything else,
      a longer or a shorter word included, selects the plain matrix. */
  lemma VariantOfExact(suffix: string)
    ensures VariantOf(suffix) == InverseTransposed <==> suffix == "INVERSETRANSPOSE"
    ensures VariantOf(suffix) == Transposed <==> suffix == "TRANSPOSE"
    ensures VariantOf(suffix) == Inversed <==> suffix == "INVERSE"
    ensures VariantOf(suffix) == Plain <==>
      suffix != "INVERSETRANSPOSE" && suffix != "TRANSPOSE" && suffix != "INVERSE"
  {
    StrncmpWithTerminator(suffix, "INVERSETRANSPOSE");
    StrncmpWithTerminator(suffix, "TRANSPOSE");
    StrncmpWithTerminator(suffix, "INVERSE");
  }

  /** The family the `Object` annotation selects: none means the camera, and
      a name other than `Camera` or `Light` selects nothing. */
  function ObjectOf(objectAnnotation: Option<AnnotationValue>): (r: Option<MatrixObject>)
    ensures r == Some(CameraMatrix) <==> objectAnnotation.None? || TextOf(objectAnnotation) == "Camera"
    ensures r == Some(LightMatrix) <==> objectAnnotation.Some? && TextOf(objectAnnotation) == "Light"
    ensures r.None? <==> objectAnnotation.Some? && TextOf(objectAnnotation) != "Camera" && TextOf(objectAnnotation) != "Light"
  {
    if objectAnnotation.None? then Some(CameraMatrix)
    else if TextOf(objectAnnotation) == "Camera" then Some(CameraMatrix)
    else if TextOf(objectAnnotation) == "Light" then Some(LightMatrix)
    else None
  }

  /** `MatrixSemantic`: eight slots, camera and light in four variants. */
  class MatrixSemantic {
    var camera: ParamId
    var cameraInversed: ParamId
    var cameraTransposed: ParamId
    var cameraInverseTransposed: ParamId
    var light: ParamId
    var lightInversed: ParamId
    var lightTransposed: ParamId
    var lightInverseTransposed: ParamId
    var connections: seq<Connection>
    const flags: int

    /** The slot of one family and variant. */
    function Slot(o: MatrixObject, v: MatrixVariant): ParamId
      reads this
    {
      match (o, v)
      case (CameraMatrix, Plain) => camera
      case (CameraMatrix, Inversed) => cameraInversed
      case (CameraMatrix, Transposed) => cameraTransposed
      case (CameraMatrix, InverseTransposed) => cameraInverseTransposed
      case (LightMatrix, Plain) => light
      case (LightMatrix, Inversed) => lightInversed
      case (LightMatrix, Transposed) => lightTransposed
      case (LightMatrix, InverseTransposed) => lightInverseTransposed
    }

    constructor(flags: int)
      ensures this.flags == flags && connections == []
      ensures forall o, v :: Slot(o, v) == 0
    {
      this.flags := flags;
      camera, cameraInversed, cameraTransposed, cameraInverseTransposed := 0, 0, 0, 0;
      light, lightInversed, lightTransposed, lightInverseTransposed := 0, 0, 0, 0;
      connections := [];
    }

    /** `connectParameter` on one slot; the other seven keep their values. */
    method ConnectSlot(o: MatrixObject, v: MatrixVariant, source: ParamId)
      modifies this
      ensures Slot(o, v) == Connect(old(Slot(o, v)), source).0
      ensures connections == old(connections) + Connect(old(Slot(o, v)), source).1
      ensures forall o', v' :: (o', v') != (o, v) ==> Slot(o', v') == old(Slot(o', v'))
    {
      var r := Connect(Slot(o, v), source);
      match (o, v) {
      case (CameraMatrix, Plain) => camera := r.0;
      case (CameraMatrix, Inversed) => cameraInversed := r.0;
      case (CameraMatrix, Transposed) => cameraTransposed := r.0;
      case (CameraMatrix, InverseTransposed) => cameraInverseTransposed := r.0;
      case (LightMatrix, Plain) => light := r.0;
      case (LightMatrix, Inversed) => lightInversed := r.0;
      case (LightMatrix, Transposed) => lightTransposed := r.0;
      case (LightMatrix, InverseTransposed) => lightInverseTransposed := r.0;
      }
      connections := connections + r.1;
    }

    /** `MatrixSemantic::setParameter` for one family: the suffix picks the
        variant. */
    method SetParameter(source: ParamId, suffix: string, o: MatrixObject)
      modifies this
      ensures Slot(o, VariantOf(suffix)) == Connect(old(Slot(o, VariantOf(suffix))), source).0
      ensures connections == old(connections) + Connect(old(Slot(o, VariantOf(suffix))), source).1
      ensures forall o', v' :: (o', v') != (o, VariantOf(suffix)) ==> Slot(o', v') == old(Slot(o', v'))
    {
      if StrncmpEqual(suffix, "INVERSETRANSPOSE", 17) {
        ConnectSlot(o, InverseTransposed, source);
      } else if StrncmpEqual(suffix, "TRANSPOSE", 10) {
        ConnectSlot(o, Transposed, source);
      } else if StrncmpEqual(suffix, "INVERSE", 8) {
        ConnectSlot(o, Inversed, source);
      } else {
        ConnectSlot(o, Plain, source);
      }
    }

    /** `MatrixSemantic::addParameter`: the `Object` annotation picks the
        family; an unknown family leaves every slot alone. */
    method AddParameter(parameter: ParamId, suffix: string, objectAnnotation: Option<AnnotationValue>)
      modifies this
      ensures ObjectOf(objectAnnotation).None? ==>
        connections == old(connections) && forall o, v :: Slot(o, v) == old(Slot(o, v))
      ensures ObjectOf(objectAnnotation).Some? ==>
        var o := ObjectOf(objectAnnotation).value;
        var v := VariantOf(suffix);
        Slot(o, v) == Connect(old(Slot(o, v)), parameter).0 &&
        connections == old(connections) + Connect(old(Slot(o, v)), parameter).1 &&
        forall o', v' :: (o', v') != (o, v) ==> Slot(o', v') == old(Slot(o', v'))
    {
      if objectAnnotation.None? {
        SetParameter(parameter, suffix, CameraMatrix);
      } else {
        var name := TextOf(objectAnnotation);
        if name == "Camera" {
          SetParameter(parameter, suffix, CameraMatrix);
        } else if name == "Light" {
          SetParameter(parameter, suffix, LightMatrix);
        }
      }
    }
  }

  /** `TimeSemantic`: one slot for parameters that follow the clock in edit
      mode and one for those that do not. */
  class TimeSemantic {
    var syncEnabled: ParamId
    var syncDisabled: ParamId
    var connections: seq<Connection>

    constructor()
      ensures syncEnabled == 0 && syncDisabled == 0 && connections == []
    {
      syncEnabled, syncDisabled := 0, 0;
      connections := [];
    }

    /** `TimeSemantic::addParameter`: a true `SyncInEditMode` annotation
        routes the parameter to the synchronised slot; an absent, false or
        empty one to the other. */
    method AddParameter(parameter: ParamId, syncInEditMode: Option<AnnotationValue>)
      modifies this
      ensures ToBool(syncInEditMode) ==>
        syncEnabled == Connect(old(syncEnabled), parameter).0 && syncDisabled == old(syncDisabled) &&
        connections == old(connections) + Connect(old(syncEnabled), parameter).1
      ensures !ToBool(syncInEditMode) ==>
        syncDisabled == Connect(old(syncDisabled), parameter).0 && syncEnabled == old(syncEnabled) &&
        connections == old(connections) + Connect(old(syncDisabled), parameter).1
    {
      if syncInEditMode.Some? {
        if ToBool(syncInEditMode) {
          var r := Connect(syncEnabled, parameter);
          syncEnabled := r.0;
          connections := connections + r.1;
          return;
        }
      }
      var r := Connect(syncDisabled, parameter);
      syncDisabled := r.0;
      connections := connections + r.1;
    }
  }
}
