/** The effect's technique scripts and technique selection (`Effect`,
    libvpvl2/include/vpvl2/cg/EngineCommon.h). A technique's `Script`
    annotation is a `;`-separated list of `command=value` segments; the
    recognised ones become render states in script order. Under post-process
    order the states before `ScriptExternal` form the external script and
    the rest the technique's own; a loop opened by `LoopByCount` must be
    closed by `LoopEnd`. Cg handles are ids and the effect's named
    parameters and render targets are lookup maps. */
module CgEffect {
  import opened Geometry
  import opened Strings
  import opened CgAnnotations
  import opened CgParameters

  datatype ScriptClass = ObjectClass | SceneClass | SceneObjectClass
  datatype ScriptOrder = PreProcess | Standard | PostProcess

  /** `ScriptState::Type` without `kUnknown`, which is never recorded. */
  datatype StateType =
    | RenderColorTarget0 | RenderColorTarget1 | RenderColorTarget2 | RenderColorTarget3
    | RenderDepthStencilTarget | ClearSetColor | ClearSetDepth | Clear | ScriptExternal
    | Pass | LoopByCount | LoopEnd | LoopGetIndex | Draw

  /** A recorded state: its type, the parameter it uses (0 for none), the
      pass it runs and whether a loop is open after it. */
  datatype ScriptState = ScriptState(kind: StateType, parameter: ParamId, pass: Option<string>, enterLoop: bool)

  /** The Cg types the script commands test for. */
  datatype ParamType = BoolType | IntType | FloatType | Float4Type | OtherType

  datatype EffectParameter = EffectParameter(id: ParamId, ptype: ParamType)

  /** A technique: its name, whether `cgValidateTechnique` accepts it, its
      annotations and the names of its passes. */
  datatype Technique = Technique(name: string, valid: bool, annotations: Annotations, passes: set<string>)

  /** What the script parser consults: the effect's parameters by name, the
      render-target semantics' parameters by name, and the effect's class
      and order. */
  datatype Context = Context(
    parameters: map<string, EffectParameter>,
    colorTargets: map<string, ParamId>,
    depthStencilTargets: map<string, ParamId>,
    scriptClass: ScriptClass,
    scriptOrder: ScriptOrder)

  /** `Util::isIntegerParameter` on `cgGetNamedEffectParameter(effect, name)`. */
  predicate IsIntegerParameter(ctx: Context, name: string)
  {
    name in ctx.parameters && ctx.parameters[name].ptype in {BoolType, IntType, FloatType}
  }

  /** The effect parameter of that name and type, or 0. */
  function TypedParameter(ctx: Context, name: string, ptype: ParamType): ParamId
  {
    if name in ctx.parameters && ctx.parameters[name].ptype == ptype then ctx.parameters[name].id else 0
  }

  /** Cg handles are never 0, which is the null handle: an effect whose
      parameters all have non-zero ids. */
  predicate HandlesNonNull(ctx: Context)
  {
    forall name :: name in ctx.parameters ==> ctx.parameters[name].id != 0
  }

  /** With non-zero handles, `TypedParameter` answers 0 exactly when there
      is no parameter of that name and type. */
  lemma TypedParameterFound(ctx: Context, name: string, ptype: ParamType)
    requires HandlesNonNull(ctx)
    ensures TypedParameter(ctx, name, ptype) != 0 <==> name in ctx.parameters && ctx.parameters[name].ptype == ptype
    ensures TypedParameter(ctx, name, ptype) != 0 ==> TypedParameter(ctx, name, ptype) == ctx.parameters[name].id
  {
  }

  /** What one command does: record a state, do nothing, or reject the
      whole script. */
  datatype Outcome = Record(state: ScriptState) | Ignore | Reject

  /** `setStateFromTextureSemantic`: the state is recorded even when the
      target is unknown, then without a parameter. */
  function TargetState(targets: map<string, ParamId>, value: string, kind: StateType, inLoop: bool): ScriptState
  {
    ScriptState(kind, if value != "" && value in targets then targets[value] else 0, None, inLoop)
  }

  /** The commands `parseTechniqueScript` can record, with the state type
      each records. `Draw` is not among them: it never records a state. */
  function CommandKind(command: string): Option<StateType>
  {
    match command
    case "RenderColorTarget" => Some(RenderColorTarget0)
    case "RenderColorTarget0" => Some(RenderColorTarget0)
    case "RenderColorTarget1" => Some(RenderColorTarget1)
    case "RenderColorTarget2" => Some(RenderColorTarget2)
    case "RenderColorTarget3" => Some(RenderColorTarget3)
    case "RenderDepthStencilTarget" => Some(RenderDepthStencilTarget)
    case "ClearSetColor" => Some(ClearSetColor)
    case "ClearSetDepth" => Some(ClearSetDepth)
    case "Clear" => Some(Clear)
    case "Pass" => Some(Pass)
    case "LoopByCount" => Some(LoopByCount)
    case "LoopEnd" => Some(LoopEnd)
    case "LoopGetIndex" => Some(LoopGetIndex)
    case "ScriptExternal" => Some(ScriptExternal)
    case _ => None
  }

  /** The state type a recognised command records; as written, `LoopGetIndex`
      records `LoopByCount`. */
  function KindOf(command: string, asWritten: bool): StateType
    requires CommandKind(command).Some?
  {
    var kind := CommandKind(command).value;
    if asWritten && kind == LoopGetIndex then LoopByCount else kind
  }

  /** The command chain of `parseTechniqueScript` for one `command=value`
      pair, with `inLoop` the loop flag of the last recorded state. With
      `asWritten`, `LoopGetIndex` records a `LoopByCount` state, as the
      source does; without it, a `LoopGetIndex` state. */
  function Interpret(ctx: Context, t: Technique, inLoop: bool, command: string, value: string, asWritten: bool): (r: Outcome)
    ensures r.Reject? <==>
      (command == "Draw" &&
       ((value == "Buffer" && ctx.scriptClass == ObjectClass) || (value == "Geometry" && ctx.scriptClass == SceneClass))) ||
      (command == "ScriptExternal" && ctx.scriptOrder == PostProcess && inLoop)
    ensures r.Record? && r.state.kind == LoopEnd ==> inLoop && !r.state.enterLoop
    ensures r.Record? && r.state.kind == LoopByCount && !asWritten ==> !inLoop && r.state.enterLoop
    ensures r.Record? && r.state.kind !in {LoopByCount, LoopEnd} ==> r.state.enterLoop == inLoop
    ensures r.Record? && r.state.kind == ScriptExternal ==> ctx.scriptOrder == PostProcess && !inLoop
    ensures r.Record? ==> r.state.kind != Draw
  {
    if command == "RenderColorTarget" || command == "RenderColorTarget0" then
      Record(TargetState(ctx.colorTargets, value, RenderColorTarget0, inLoop))
    else if command == "RenderColorTarget1" then
      Record(TargetState(ctx.colorTargets, value, RenderColorTarget1, inLoop))
    else if command == "RenderColorTarget2" then
      Record(TargetState(ctx.colorTargets, value, RenderColorTarget2, inLoop))
    else if command == "RenderColorTarget3" then
      Record(TargetState(ctx.colorTargets, value, RenderColorTarget3, inLoop))
    else if command == "RenderDepthStencilTarget" then
      Record(TargetState(ctx.depthStencilTargets, value, RenderDepthStencilTarget, inLoop))
    else if command == "ClearSetColor" then
      if TypedParameter(ctx, value, Float4Type) != 0 then
        Record(ScriptState(ClearSetColor, TypedParameter(ctx, value, Float4Type), None, inLoop))
      else Ignore
    else if command == "ClearSetDepth" then
      if TypedParameter(ctx, value, FloatType) != 0 then
        Record(ScriptState(ClearSetDepth, TypedParameter(ctx, value, FloatType), None, inLoop))
      else Ignore
    else if command == "Clear" then
      Record(ScriptState(Clear, 0, None, inLoop))
    else if command == "Pass" then
      if value in t.passes then Record(ScriptState(Pass, 0, Some(value), inLoop)) else Ignore
    else if command == "LoopByCount" && !inLoop then
      if IsIntegerParameter(ctx, value) then
        Record(ScriptState(LoopByCount, ctx.parameters[value].id, None, true))
      else Ignore
    else if command == "LoopEnd" && inLoop then
      Record(ScriptState(LoopEnd, 0, None, false))
    else if command == "LoopGetIndex" && inLoop then
      if IsIntegerParameter(ctx, value) then
        Record(ScriptState(if asWritten then LoopByCount else LoopGetIndex, ctx.parameters[value].id, None, true))
      else Ignore
    else if command == "Draw" then
      if value == "Buffer" && ctx.scriptClass == ObjectClass then Reject
      else if value == "Geometry" && ctx.scriptClass == SceneClass then Reject
      else Ignore
    else if command == "ScriptExternal" && ctx.scriptOrder == PostProcess then
      if inLoop then Reject else Record(ScriptState(ScriptExternal, 0, None, inLoop))
    else Ignore
  }

  /** A recorded state has the type the command table gives its command. */
  lemma InterpretKinds(ctx: Context, t: Technique, inLoop: bool, command: string, value: string, asWritten: bool)
    ensures var r := Interpret(ctx, t, inLoop, command, value, asWritten);
      r.Record? ==> CommandKind(command).Some? && r.state.kind == KindOf(command, asWritten)
  {
    if command in {"RenderColorTarget", "RenderColorTarget0", "RenderColorTarget1", "RenderColorTarget2",
                   "RenderColorTarget3", "RenderDepthStencilTarget"} {
      TargetKinds(ctx, t, inLoop, command, value, asWritten);
    } else if command in {"ClearSetColor", "ClearSetDepth", "Clear", "Pass"} {
      ClearPassKinds(ctx, t, inLoop, command, value, asWritten);
    } else if command in {"LoopByCount", "LoopEnd"} {
      LoopKinds(ctx, t, inLoop, command, value, asWritten);
    } else if command in {"LoopGetIndex", "ScriptExternal"} {
      IndexExternalKinds(ctx, t, inLoop, command, value, asWritten);
    } else {
      assert !Interpret(ctx, t, inLoop, command, value, asWritten).Record?;
    }
  }

  /** The render-target commands always record a state of their kind. */
  lemma TargetKinds(ctx: Context, t: Technique, inLoop: bool, command: string, value: string, asWritten: bool)
    requires command in {"RenderColorTarget", "RenderColorTarget0", "RenderColorTarget1", "RenderColorTarget2",
                         "RenderColorTarget3", "RenderDepthStencilTarget"}
    ensures var r := Interpret(ctx, t, inLoop, command, value, asWritten);
      r.Record? && CommandKind(command).Some? && r.state.kind == KindOf(command, asWritten)
  {
  }

  /** The clear and pass commands, when they record, record their kind. */
  lemma ClearPassKinds(ctx: Context, t: Technique, inLoop: bool, command: string, value: string, asWritten: bool)
    requires command in {"ClearSetColor", "ClearSetDepth", "Clear", "Pass"}
    ensures var r := Interpret(ctx, t, inLoop, command, value, asWritten);
      r.Record? ==> CommandKind(command).Some? && r.state.kind == KindOf(command, asWritten)
  {
  }

  /** `LoopByCount` and `LoopEnd`, when they record, record their kind. */
  lemma LoopKinds(ctx: Context, t: Technique, inLoop: bool, command: string, value: string, asWritten: bool)
    requires command in {"LoopByCount", "LoopEnd"}
    ensures var r := Interpret(ctx, t, inLoop, command, value, asWritten);
      r.Record? ==> CommandKind(command).Some? && r.state.kind == KindOf(command, asWritten)
  {
  }

  /** `LoopGetIndex` and `ScriptExternal`, when they record, record the kind
      the table gives, relabelled as written. */
  lemma IndexExternalKinds(ctx: Context, t: Technique, inLoop: bool, command: string, value: string, asWritten: bool)
    requires command in {"LoopGetIndex", "ScriptExternal"}
    ensures var r := Interpret(ctx, t, inLoop, command, value, asWritten);
      r.Record? ==> CommandKind(command).Some? && r.state.kind == KindOf(command, asWritten)
  {
  }

  /** A command outside the table, other than `Draw`, is ignored. */
  lemma InterpretIgnoresUnknown(ctx: Context, t: Technique, inLoop: bool, command: string, value: string, asWritten: bool)
    requires CommandKind(command).None? && command != "Draw"
    ensures Interpret(ctx, t, inLoop, command, value, asWritten).Ignore?
  {
  }


  /** A segment split at its first `=`, if it has one. */
  function Command(segment: string): (r: Option<(string, string)>)
    ensures r.None? <==> '=' !in segment
    ensures r.Some? ==> segment == r.value.0 + "=" + r.value.1 && '=' !in r.value.0
  {
    if '=' in segment then
      var offset := IndexOf(segment, '=');
      assert segment == segment[..offset] + "=" + segment[offset + 1..];
      Some((segment[..offset], segment[offset + 1..]))
    else None
  }

  /** A segment `command=value` whose command has no `=` splits back into
      the two. */
  lemma CommandOf(command: string, value: string)
    requires '=' !in command
    ensures Command(command + "=" + value) == Some((command, value))
  {
    var s := command + "=" + value;
    assert s[..|command|] == command;
    IndexOfAt(s, '=', |command|);
    assert s[|command| + 1..] == value;
  }

  /** The parser's running state: the loop flag of the last recorded state,
      whether states still go to the external script, and both lists. */
  datatype Parse = Parse(inLoop: bool, useExternal: bool, technique: seq<ScriptState>, external: seq<ScriptState>)

  function Initial(order: ScriptOrder): Parse
  {
    Parse(false, order == PostProcess, [], [])
  }

  /** Recording one state. `ScriptExternal` switches to the technique list
      before it is recorded. */
  function Apply(ps: Parse, st: ScriptState): Parse
  {
    var useExternal := ps.useExternal && st.kind != ScriptExternal;
    Parse(st.enterLoop, useExternal,
          if useExternal then ps.technique else ps.technique + [st],
          if useExternal then ps.external + [st] else ps.external)
  }

  /** One segment; `None` when it rejects the script. */
  function Step(ctx: Context, t: Technique, ps: Parse, segment: string, asWritten: bool): Option<Parse>
  {
    match Command(segment)
    case None => Some(ps)
    case Some(cv) =>
      match Interpret(ctx, t, ps.inLoop, cv.0, cv.1, asWritten)
      case Record(st) => Some(Apply(ps, st))
      case Ignore => Some(ps)
      case Reject => None
  }

  /** The segments from `i` on. */
  function RunFrom(ctx: Context, t: Technique, segments: seq<string>, i: nat, ps: Parse, asWritten: bool): Option<Parse>
    requires i <= |segments|
    decreases |segments| - i
  {
    if i == |segments| then Some(ps)
    else
      match Step(ctx, t, ps, segments[i], asWritten)
      case None => None
      case Some(next) => RunFrom(ctx, t, segments, i + 1, next, asWritten)
  }

  /** A segment without `=` changes nothing. */
  lemma StepWithoutCommand(ctx: Context, t: Technique, ps: Parse, segment: string, asWritten: bool)
    requires '=' !in segment
    ensures Step(ctx, t, ps, segment, asWritten) == Some(ps)
  {
  }

  /** One segment appends at most one state, to one of the two lists. */
  lemma StepGrows(ctx: Context, t: Technique, ps: Parse, segment: string, asWritten: bool)
    requires Step(ctx, t, ps, segment, asWritten).Some?
    ensures var p := Step(ctx, t, ps, segment, asWritten).value;
      ps.technique <= p.technique && ps.external <= p.external &&
      |p.technique| + |p.external| <= |ps.technique| + |ps.external| + 1
  {
    var p := Step(ctx, t, ps, segment, asWritten).value;
    if p != ps {
      var cv := Command(segment).value;
      var st := Interpret(ctx, t, ps.inLoop, cv.0, cv.1, asWritten).state;
      assert p == Apply(ps, st);
    }
  }

  /** States are appended in script order and never removed: the lists the
      loop starts from are prefixes of those it ends with, and each segment
      adds at most one state. */
  lemma {:induction false} RunGrows(ctx: Context, t: Technique, segments: seq<string>, i: nat, ps: Parse, asWritten: bool)
    requires i <= |segments| && RunFrom(ctx, t, segments, i, ps, asWritten).Some?
    ensures var p := RunFrom(ctx, t, segments, i, ps, asWritten).value;
      ps.technique <= p.technique && ps.external <= p.external &&
      |p.technique| + |p.external| <= |ps.technique| + |ps.external| + (|segments| - i)
    decreases |segments| - i
  {
    if i < |segments| {
      StepGrows(ctx, t, ps, segments[i], asWritten);
      var next := Step(ctx, t, ps, segments[i], asWritten).value;
      RunGrows(ctx, t, segments, i + 1, next, asWritten);
    }
  }

  /** The `;` segments of a technique's script. */
  function ScriptSegments(t: Technique): seq<string>
  {
    GetlineSegments(TextOf(Lookup(t.annotations, "Script")), ';')
  }

  /** The ways `parseTechniqueScript` can end. */
  datatype ScriptOutcome = Invalid | NoScript | Rejected | Parsed(ps: Parse)

  function ParseScript(ctx: Context, t: Option<Technique>, asWritten: bool): (r: ScriptOutcome)
    ensures r.Invalid? <==> t.None? || !t.value.valid
    ensures r.NoScript? <==> t.Some? && t.value.valid && "Script" !in t.value.annotations
  {
    if t.None? || !t.value.valid then Invalid
    else if "Script" !in t.value.annotations then NoScript
    else
      match RunFrom(ctx, t.value, ScriptSegments(t.value), 0, Initial(ctx.scriptOrder), asWritten)
      case None => Rejected
      case Some(ps) => Parsed(ps)
  }

  /** What `parseTechniqueScript` returns. */
  predicate Accepted(o: ScriptOutcome)
  {
    o.NoScript? || (o.Parsed? && !o.ps.inLoop)
  }

  /** The loop nesting after a list of states: `LoopByCount` opens, `LoopEnd`
      closes. */
  function Depth(states: seq<ScriptState>): int
  {
    if states == [] then 0
    else
      var last := states[|states| - 1];
      Depth(states[..|states| - 1]) + (if last.kind == LoopByCount then 1 else if last.kind == LoopEnd then -1 else 0)
  }

  /** Loops never nest and never close more than they open, at any point. */
  predicate WellNested(states: seq<ScriptState>)
  {
    forall k :: 0 <= k <= |states| ==> 0 <= Depth(states[..k]) <= 1
  }

  /** All states, external ones first, are well nested and the loop flag
      says whether a loop is open. */
  predicate Nested(ps: Parse)
  {
    WellNested(ps.external + ps.technique) &&
    Depth(ps.external + ps.technique) == (if ps.inLoop then 1 else 0)
  }

  /** The external list is only used under post-process order, where it is
      filled until the first `ScriptExternal`, which starts the technique
      list; it never holds a `ScriptExternal` itself. */
  predicate Routed(ps: Parse, order: ScriptOrder)
  {
    (order != PostProcess ==> !ps.useExternal && ps.external == []) &&
    (order == PostProcess ==> (ps.useExternal <==> ps.technique == [])) &&
    (order == PostProcess && ps.technique != [] ==> ps.technique[0].kind == ScriptExternal) &&
    (forall k :: 0 <= k < |ps.external| ==> ps.external[k].kind != ScriptExternal)
  }

  /** What the parser keeps true of its running state. */
  predicate Inv(ps: Parse, order: ScriptOrder)
  {
    Nested(ps) && Routed(ps, order)
  }

  /** Appending a state keeps the nesting bounded when the depth it reaches
      is 0 or 1. */
  lemma WellNestedAppend(s: seq<ScriptState>, st: ScriptState)
    requires WellNested(s) && 0 <= Depth(s + [st]) <= 1
    ensures WellNested(s + [st])
  {
    forall k | 0 <= k <= |s + [st]| ensures 0 <= Depth((s + [st])[..k]) <= 1 {
      if k <= |s| {
        assert (s + [st])[..k] == s[..k];
      } else {
        assert (s + [st])[..k] == s + [st];
      }
    }
  }

  /** Recording a state whose loop flag follows the loop rules keeps the
      nesting. */
  lemma ApplyNested(ps: Parse, st: ScriptState, order: ScriptOrder)
    requires Nested(ps) && Routed(ps, order)
    requires st.kind == LoopByCount ==> !ps.inLoop && st.enterLoop
    requires st.kind == LoopEnd ==> ps.inLoop && !st.enterLoop
    requires st.kind !in {LoopByCount, LoopEnd} ==> st.enterLoop == ps.inLoop
    ensures Nested(Apply(ps, st))
  {
    var next := Apply(ps, st);
    var all := ps.external + ps.technique;
    assert next.external + next.technique == all + [st];
    assert (all + [st])[..|all + [st]| - 1] == all;
    WellNestedAppend(all, st);
  }

  /** Recording a state keeps the routing between the two lists. */
  lemma ApplyRouted(ps: Parse, st: ScriptState, order: ScriptOrder)
    requires Routed(ps, order)
    requires st.kind == ScriptExternal ==> order == PostProcess
    ensures Routed(Apply(ps, st), order)
  {
    var next := Apply(ps, st);
    if order == PostProcess && ps.technique != [] {
      assert next.technique[0] == ps.technique[0];
    }
  }

  /** Recording a state whose loop flag follows the loop rules keeps `Inv`. */
  lemma ApplyInv(ps: Parse, st: ScriptState, order: ScriptOrder)
    requires Inv(ps, order)
    requires st.kind == LoopByCount ==> !ps.inLoop && st.enterLoop
    requires st.kind == LoopEnd ==> ps.inLoop && !st.enterLoop
    requires st.kind !in {LoopByCount, LoopEnd} ==> st.enterLoop == ps.inLoop
    requires st.kind == ScriptExternal ==> order == PostProcess
    ensures Inv(Apply(ps, st), order)
  {
    ApplyNested(ps, st, order);
    ApplyRouted(ps, st, order);
  }

  /** Every step of the parser keeps `Inv`. */
  lemma StepInv(ctx: Context, t: Technique, ps: Parse, segment: string)
    requires Inv(ps, ctx.scriptOrder)
    ensures Step(ctx, t, ps, segment, false).Some? ==> Inv(Step(ctx, t, ps, segment, false).value, ctx.scriptOrder)
  {
    var cv := Command(segment);
    if cv.Some? {
      var o := Interpret(ctx, t, ps.inLoop, cv.value.0, cv.value.1, false);
      if o.Record? {
        ApplyInv(ps, o.state, ctx.scriptOrder);
      }
    }
  }

  /** The whole run keeps `Inv`. */
  lemma {:induction false} RunInv(ctx: Context, t: Technique, segments: seq<string>, i: nat, ps: Parse)
    requires i <= |segments| && Inv(ps, ctx.scriptOrder)
    ensures RunFrom(ctx, t, segments, i, ps, false).Some? ==>
      Inv(RunFrom(ctx, t, segments, i, ps, false).value, ctx.scriptOrder)
    decreases |segments| - i
  {
    if i < |segments| {
      StepInv(ctx, t, ps, segments[i]);
      var next := Step(ctx, t, ps, segments[i], false);
      if next.Some? {
        RunInv(ctx, t, segments, i + 1, next.value);
      }
    }
  }

  /** Loop balance of a parsed script: the recorded states, external ones
      first, never nest loops, and the script is accepted exactly when no
      loop is left open. Under post-process order the technique list starts
      with `ScriptExternal` and the external list never holds one; under
      any other order there is no external list. */
  lemma ParseBalanced(ctx: Context, t: Option<Technique>)
    ensures var o := ParseScript(ctx, t, false);
      o.Parsed? ==> (WellNested(o.ps.external + o.ps.technique) &&
        (Accepted(o) <==> Depth(o.ps.external + o.ps.technique) == 0))
    ensures var o := ParseScript(ctx, t, false);
      o.Parsed? && ctx.scriptOrder != PostProcess ==> o.ps.external == []
    ensures var o := ParseScript(ctx, t, false);
      o.Parsed? && ctx.scriptOrder == PostProcess ==>
        ((o.ps.technique != [] ==> o.ps.technique[0].kind == ScriptExternal) &&
         (forall k :: 0 <= k < |o.ps.external| ==> o.ps.external[k].kind != ScriptExternal))
  {
    if t.Some? && t.value.valid && "Script" in t.value.annotations {
      var init := Initial(ctx.scriptOrder);
      assert Depth(init.external + init.technique) == 0;
      assert (init.external + init.technique)[..0] == [];
      RunInv(ctx, t.value, ScriptSegments(t.value), 0, init);
    }
  }

  /** A state as the source records it: a `LoopGetIndex` state becomes a
      `LoopByCount` one. */
  function Relabel(st: ScriptState): ScriptState
  {
    if st.kind == LoopGetIndex then st.(kind := LoopByCount) else st
  }

  function RelabelAll(states: seq<ScriptState>): (r: seq<ScriptState>)
    ensures |r| == |states|
  {
    if states == [] then []
    else RelabelAll(states[..|states| - 1]) + [Relabel(states[|states| - 1])]
  }

  function RelabelParse(ps: Parse): Parse
  {
    Parse(ps.inLoop, ps.useExternal, RelabelAll(ps.technique), RelabelAll(ps.external))
  }

  function RelabelStep(r: Option<Parse>): Option<Parse>
  {
    if r.Some? then Some(RelabelParse(r.value)) else None
  }

  /** A command as written does what the corrected one does, with the
      state it records relabelled. */
  lemma InterpretAsWritten(ctx: Context, t: Technique, inLoop: bool, command: string, value: string)
    ensures var c := Interpret(ctx, t, inLoop, command, value, false);
      Interpret(ctx, t, inLoop, command, value, true) == (if c.Record? then Record(Relabel(c.state)) else c)
  {
  }

  /** Recording a relabelled state into a relabelled parse is relabelling
      the recorded parse. */
  lemma ApplyRelabel(ps: Parse, st: ScriptState)
    ensures Apply(RelabelParse(ps), Relabel(st)) == RelabelParse(Apply(ps, st))
  {
    assert (ps.technique + [st])[..|ps.technique|] == ps.technique;
    assert (ps.external + [st])[..|ps.external|] == ps.external;
  }

  /** One segment as written is the corrected step with its state relabelled. */
  lemma StepAsWritten(ctx: Context, t: Technique, ps: Parse, segment: string)
    ensures Step(ctx, t, RelabelParse(ps), segment, true) == RelabelStep(Step(ctx, t, ps, segment, false))
  {
    var cv := Command(segment);
    if cv.Some? {
      InterpretAsWritten(ctx, t, ps.inLoop, cv.value.0, cv.value.1);
      var o := Interpret(ctx, t, ps.inLoop, cv.value.0, cv.value.1, false);
      if o.Record? {
        ApplyRelabel(ps, o.state);
      }
    }
  }

  /** The whole segment loop as written is the corrected one, relabelled. */
  lemma {:induction false} RunAsWritten(ctx: Context, t: Technique, segments: seq<string>, i: nat, ps: Parse)
    requires i <= |segments|
    ensures RunFrom(ctx, t, segments, i, RelabelParse(ps), true) == RelabelStep(RunFrom(ctx, t, segments, i, ps, false))
    decreases |segments| - i
  {
    if i < |segments| {
      StepAsWritten(ctx, t, ps, segments[i]);
      var next := Step(ctx, t, ps, segments[i], false);
      if next.Some? {
        RunAsWritten(ctx, t, segments, i + 1, next.value);
      }
    }
  }

  /** `parseTechniqueScript` as written ends as the corrected parse does, with
      the same verdict, and its state lists are the corrected ones with every
      `LoopGetIndex` state recorded as `LoopByCount`. */
  lemma ParseAsWritten(ctx: Context, t: Option<Technique>)
    ensures var w, c := ParseScript(ctx, t, true), ParseScript(ctx, t, false);
      (w.Invalid? <==> c.Invalid?) && (w.NoScript? <==> c.NoScript?) && (w.Rejected? <==> c.Rejected?) &&
      (w.Parsed? ==> c.Parsed? && w.ps == RelabelParse(c.ps))
    ensures Accepted(ParseScript(ctx, t, true)) == Accepted(ParseScript(ctx, t, false))
  {
    if t.Some? && t.value.valid && "Script" in t.value.annotations {
      var init := Initial(ctx.scriptOrder);
      assert RelabelParse(init) == init;
      RunAsWritten(ctx, t.value, ScriptSegments(t.value), 0, init);
    }
  }

  /** A segment that rejects the script whatever state the parser is in. */
  predicate RejectsDraw(ctx: Context, segment: string)
  {
    (Command(segment) == Some(("Draw", "Buffer")) && ctx.scriptClass == ObjectClass) ||
    (Command(segment) == Some(("Draw", "Geometry")) && ctx.scriptClass == SceneClass)
  }

  /** `Draw=Buffer` in an object-class effect and `Draw=Geometry` in a
      scene-class effect reject the script wherever they appear. */
  lemma {:induction false} DrawRejects(ctx: Context, t: Technique, segments: seq<string>, i: nat, ps: Parse, asWritten: bool)
    requires i <= |segments|
    requires exists k :: i <= k < |segments| && RejectsDraw(ctx, segments[k])
    ensures RunFrom(ctx, t, segments, i, ps, asWritten).None?
    decreases |segments| - i
  {
    var next := Step(ctx, t, ps, segments[i], asWritten);
    if !RejectsDraw(ctx, segments[i]) && next.Some? {
      var k :| i <= k < |segments| && RejectsDraw(ctx, segments[k]);
      assert k != i;
      DrawRejects(ctx, t, segments, i + 1, next.value, asWritten);
    }
  }

  /** `ScriptExternal` while a loop is open rejects a post-process script. */
  lemma ExternalInLoopRejects(ctx: Context, t: Technique, ps: Parse, segment: string, asWritten: bool)
    requires ctx.scriptOrder == PostProcess && ps.inLoop
    requires Command(segment).Some? && Command(segment).value.0 == "ScriptExternal"
    ensures Step(ctx, t, ps, segment, asWritten).None?
  {
  }

  /** The context of the loop example: `n` and `i` are int parameters. */
  function LoopContext(): Context
  {
    Context(map["n" := EffectParameter(1, IntType), "i" := EffectParameter(2, IntType)], map[], map[], ObjectClass, Standard)
  }

  /** The commands of the loop example. */
  lemma LoopCommands()
    ensures Command("LoopByCount=n") == Some(("LoopByCount", "n"))
    ensures Command("LoopGetIndex=i") == Some(("LoopGetIndex", "i"))
    ensures Command("LoopEnd=x") == Some(("LoopEnd", "x"))
  {
    CommandOf("LoopByCount", "n");
    assert "LoopByCount" + "=" + "n" == "LoopByCount=n";
    CommandOf("LoopGetIndex", "i");
    assert "LoopGetIndex" + "=" + "i" == "LoopGetIndex=i";
    CommandOf("LoopEnd", "x");
    assert "LoopEnd" + "=" + "x" == "LoopEnd=x";
  }

  /** The state a `LoopGetIndex` command records: as written, a
      `LoopByCount`. */
  function IndexKind(asWritten: bool): StateType
  {
    if asWritten then LoopByCount else LoopGetIndex
  }

  /** The parser states of the loop example after one, two and three
      segments. */
  function LoopExampleState(k: nat, asWritten: bool): Parse
  {
    var a := ScriptState(LoopByCount, 1, None, true);
    var g := ScriptState(IndexKind(asWritten), 2, None, true);
    var e := ScriptState(LoopEnd, 0, None, false);
    if k == 0 then Initial(Standard)
    else if k == 1 then Parse(true, false, [a], [])
    else if k == 2 then Parse(true, false, [a, g], [])
    else Parse(false, false, [a, g, e], [])
  }

  lemma LoopExampleFirst(t: Technique, s: string, asWritten: bool)
    requires Command(s) == Some(("LoopByCount", "n"))
    ensures Step(LoopContext(), t, LoopExampleState(0, asWritten), s, asWritten) == Some(LoopExampleState(1, asWritten))
  {
    var a := ScriptState(LoopByCount, 1, None, true);
    assert Interpret(LoopContext(), t, false, "LoopByCount", "n", asWritten) == Record(a);
    assert [] + [a] == [a];
    assert Apply(LoopExampleState(0, asWritten), a) == LoopExampleState(1, asWritten);
  }

  lemma LoopExampleSecond(t: Technique, s: string, asWritten: bool)
    requires Command(s) == Some(("LoopGetIndex", "i"))
    ensures Step(LoopContext(), t, LoopExampleState(1, asWritten), s, asWritten) == Some(LoopExampleState(2, asWritten))
  {
    var g := ScriptState(IndexKind(asWritten), 2, None, true);
    assert Interpret(LoopContext(), t, true, "LoopGetIndex", "i", asWritten) == Record(g);
    assert Apply(LoopExampleState(1, asWritten), g) == LoopExampleState(2, asWritten);
  }

  lemma LoopExampleThird(t: Technique, s: string, asWritten: bool)
    requires Command(s) == Some(("LoopEnd", "x"))
    ensures Step(LoopContext(), t, LoopExampleState(2, asWritten), s, asWritten) == Some(LoopExampleState(3, asWritten))
  {
    var e := ScriptState(LoopEnd, 0, None, false);
    assert Interpret(LoopContext(), t, true, "LoopEnd", "x", asWritten) == Record(e);
    assert Apply(LoopExampleState(2, asWritten), e) == LoopExampleState(3, asWritten);
  }

  /** The technique list the loop example ends with opens as many loops as
      it closes only when `LoopGetIndex` is recorded as itself. */
  lemma LoopExampleDepth(asWritten: bool)
    ensures Depth(LoopExampleState(3, asWritten).technique) == (if asWritten then 1 else 0)
  {
    var a := ScriptState(LoopByCount, 1, None, true);
    var g := ScriptState(IndexKind(asWritten), 2, None, true);
    var e := ScriptState(LoopEnd, 0, None, false);
    assert [a][..0] == [];
    assert Depth([a]) == 1;
    assert [a, g][..1] == [a];
    assert Depth([a, g]) == (if asWritten then 2 else 1);
    assert [a, g, e][..2] == [a, g];
    assert LoopExampleState(3, asWritten).technique == [a, g, e];
  }

  /** A script `LoopByCount=n;LoopGetIndex=i;LoopEnd=x` (`LoopCommands` shows
      those three segments split so) with `n` and `i` int parameters: it is
      accepted and leaves no loop open, but as written the technique list
      records two loop openings and one closing; recording the index query
      as `LoopGetIndex` leaves one of each. */
  lemma LoopGetIndexExample(t: Technique, s0: string, s1: string, s2: string, asWritten: bool)
    requires Command(s0) == Some(("LoopByCount", "n"))
    requires Command(s1) == Some(("LoopGetIndex", "i"))
    requires Command(s2) == Some(("LoopEnd", "x"))
    ensures var r := RunFrom(LoopContext(), t, [s0, s1, s2], 0, Initial(Standard), asWritten);
      r.Some? && !r.value.inLoop && Depth(r.value.technique) == (if asWritten then 1 else 0)
  {
    var ctx, segments := LoopContext(), [s0, s1, s2];
    LoopExampleFirst(t, s0, asWritten);
    LoopExampleSecond(t, s1, asWritten);
    LoopExampleThird(t, s2, asWritten);
    LoopExampleDepth(asWritten);
    assert RunFrom(ctx, t, segments, 2, LoopExampleState(2, asWritten), asWritten) == Some(LoopExampleState(3, asWritten));
    assert RunFrom(ctx, t, segments, 1, LoopExampleState(1, asWritten), asWritten) == Some(LoopExampleState(3, asWritten));
  }

  /** The annotation flags `testTechnique` checks: absent, or equal to what
      the material has. */
  predicate FlagAccepts(a: Option<AnnotationValue>, has: bool)
  {
    a.None? || ToBool(a) == has
  }

  /** The material properties a technique is tested against. */
  datatype Query = Query(pass: string, offset: int, nmaterials: int, hasTexture: bool, hasSphereMap: bool, useToon: bool)

  /** `Effect::testTechnique`. */
  function TestTechnique(t: Technique, q: Query): (r: bool)
    ensures !t.valid ==> !r
    ensures (t.valid && forall name :: name in t.annotations ==>
              name !in {"MMDPass", "Subset", "UseTexture", "UseSphereMap", "UseToon"}) ==> r
    ensures r && "MMDPass" in t.annotations && t.annotations["MMDPass"].StringValue? ==>
      t.annotations["MMDPass"].text == q.pass
    ensures r && "UseTexture" in t.annotations ==> ToBool(Some(t.annotations["UseTexture"])) == q.hasTexture
    ensures r && "UseSphereMap" in t.annotations ==> ToBool(Some(t.annotations["UseSphereMap"])) == q.hasSphereMap
    ensures r && "UseToon" in t.annotations ==> ToBool(Some(t.annotations["UseToon"])) == q.useToon
    ensures r ==> SubsetAccepts(Lookup(t.annotations, "Subset"), q.offset, q.nmaterials)
    ensures r <==>
      t.valid &&
      ("MMDPass" in t.annotations ==> TextOf(Some(t.annotations["MMDPass"])) == q.pass) &&
      SubsetAccepts(Lookup(t.annotations, "Subset"), q.offset, q.nmaterials) &&
      ("UseTexture" in t.annotations ==> ToBool(Some(t.annotations["UseTexture"])) == q.hasTexture) &&
      ("UseSphereMap" in t.annotations ==> ToBool(Some(t.annotations["UseSphereMap"])) == q.hasSphereMap) &&
      ("UseToon" in t.annotations ==> ToBool(Some(t.annotations["UseToon"])) == q.useToon)
  {
    t.valid &&
    IsPassEquals(Lookup(t.annotations, "MMDPass"), q.pass) &&
    SubsetAccepts(Lookup(t.annotations, "Subset"), q.offset, q.nmaterials) &&
    FlagAccepts(Lookup(t.annotations, "UseTexture"), q.hasTexture) &&
    FlagAccepts(Lookup(t.annotations, "UseSphereMap"), q.hasSphereMap) &&
    FlagAccepts(Lookup(t.annotations, "UseToon"), q.useToon)
  }

  /** `setStandardsGlobal`'s reading of `ScriptClass`: an unknown name keeps
      the current class. */
  function ClassFrom(current: ScriptClass, a: Option<AnnotationValue>): (r: ScriptClass)
    ensures a.None? ==> r == current
    ensures TextOf(a) !in {"object", "scene", "sceneobject"} ==> r == current
    ensures a.Some? && TextOf(a) == "object" ==> r == ObjectClass
    ensures a.Some? && TextOf(a) == "scene" ==> r == SceneClass
    ensures a.Some? && TextOf(a) == "sceneobject" ==> r == SceneObjectClass
  {
    if a.None? then current
    else if TextOf(a) == "object" then ObjectClass
    else if TextOf(a) == "scene" then SceneClass
    else if TextOf(a) == "sceneobject" then SceneObjectClass
    else current
  }

  /** `setStandardsGlobal`'s reading of `ScriptOrder`. */
  function OrderFrom(current: ScriptOrder, a: Option<AnnotationValue>): (r: ScriptOrder)
    ensures a.None? ==> r == current
    ensures TextOf(a) !in {"standard", "preprocess", "postprocess"} ==> r == current
    ensures a.Some? && TextOf(a) == "standard" ==> r == Standard
    ensures a.Some? && TextOf(a) == "preprocess" ==> r == PreProcess
    ensures a.Some? && TextOf(a) == "postprocess" ==> r == PostProcess
  {
    if a.None? then current
    else if TextOf(a) == "standard" then Standard
    else if TextOf(a) == "preprocess" then PreProcess
    else if TextOf(a) == "postprocess" then PostProcess
    else current
  }

  /** `kMultipleTechniques` and `kSingleTechnique` of `setStandardsGlobal`. */
  const MultipleTechniques: string := "Technique=Technique?"
  const SingleTechnique: string := "Technique="

  /** The technique names a `Script` value was meant to select: the
      `:`-separated names after the multiple-technique prefix, or the one name
      after the single-technique prefix; none without either prefix. */
  function IntendedTechniqueNames(value: string): Option<seq<string>>
  {
    if |value| >= |MultipleTechniques| && value[..|MultipleTechniques|] == MultipleTechniques then
      Some(GetlineSegments(value[|MultipleTechniques|..], ':'))
    else if |value| >= |SingleTechnique| && value[..|SingleTechnique|] == SingleTechnique then
      Some([value[|SingleTechnique|..]])
    else None
  }

  /** The intended rule is `strncmp` over each literal's length without its
      terminator: a value selects iff it starts with the single-technique
      prefix, and one with the multiple-technique prefix lists the names
      after it. */
  lemma IntendedIsPrefixCompare(value: string)
    ensures IntendedTechniqueNames(value).Some? <==> StrncmpEqual(value, SingleTechnique, |SingleTechnique|)
    ensures |value| >= |MultipleTechniques| && StrncmpEqual(value, MultipleTechniques, |MultipleTechniques|) ==>
      IntendedTechniqueNames(value) == Some(GetlineSegments(value[|MultipleTechniques|..], ':'))
  {
    IntendedSelects(value);
    IntendedMultipleNames(value);
  }

  lemma IntendedSelects(value: string)
    ensures IntendedTechniqueNames(value).Some? <==> StrncmpEqual(value, SingleTechnique, |SingleTechnique|)
  {
    StrncmpPrefix(value, SingleTechnique);
    if |value| >= |MultipleTechniques| && value[..|MultipleTechniques|] == MultipleTechniques {
      assert value[..|SingleTechnique|] == value[..|MultipleTechniques|][..|SingleTechnique|];
    }
  }

  lemma IntendedMultipleNames(value: string)
    ensures |value| >= |MultipleTechniques| && StrncmpEqual(value, MultipleTechniques, |MultipleTechniques|) ==>
      IntendedTechniqueNames(value) == Some(GetlineSegments(value[|MultipleTechniques|..], ':'))
  {
    StrncmpPrefix(value, MultipleTechniques);
  }

  /** The intended rule reads back the names a `Script` value lists: every
      `:`-separated list of names (none empty at the end, none holding `:`)
      after the multiple-technique prefix. */
  lemma IntendedNamesRoundTrip(names: seq<string>)
    requires names != [] && names[|names| - 1] != []
    requires forall k :: 0 <= k < |names| ==> ':' !in names[k]
    ensures IntendedTechniqueNames(MultipleTechniques + Join(names, ':')) == Some(names)
  {
    var value := MultipleTechniques + Join(names, ':');
    assert value[..|MultipleTechniques|] == MultipleTechniques;
    assert value[|MultipleTechniques|..] == Join(names, ':');
    assert IntendedTechniqueNames(value) == Some(GetlineSegments(Join(names, ':'), ':'));
    GetlineJoin(names, ':');
  }

  /** The intended rule reads back a single name after the single-technique
      prefix, unless that name turns the value into the multiple form. */
  lemma IntendedSingleRoundTrip(name: string)
    requires !(|name| >= 10 && name[..10] == "Technique?")
    ensures IntendedTechniqueNames(SingleTechnique + name) == Some([name])
  {
    var value := SingleTechnique + name;
    assert value[..|SingleTechnique|] == SingleTechnique;
    assert value[|SingleTechnique|..] == name;
    if |name| >= 10 {
      assert value[..|MultipleTechniques|][10..] == name[..10];
    }
  }

  /** A list of technique names after the multiple-technique prefix, such
      as `Technique=Technique?Main:Sub`, selects nothing as written, because
      `strncmp` with `sizeof` accepts only the bare literals; it was meant to
      select the names listed. */
  lemma TechniqueListCounterexample(names: seq<string>)
    requires names != [] && names[|names| - 1] != []
    requires forall k :: 0 <= k < |names| ==> ':' !in names[k]
    ensures var value := MultipleTechniques + Join(names, ':');
      !StrncmpEqual(value, MultipleTechniques, |MultipleTechniques| + 1) &&
      !StrncmpEqual(value, SingleTechnique, |SingleTechnique| + 1) &&
      IntendedTechniqueNames(value) == Some(names)
  {
    var value := MultipleTechniques + Join(names, ':');
    assert |Join(names, ':')| > 0 by {
      if |names| == 1 {
        assert Join(names, ':') == names[0];
      }
    }
    StrncmpWithTerminator(value, MultipleTechniques);
    StrncmpWithTerminator(value, SingleTechnique);
    IntendedNamesRoundTrip(names);
  }

  /** The state tables of the effect, keyed by technique. */
  datatype Store = Store(technique: map<Technique, seq<ScriptState>>, external: map<Technique, seq<ScriptState>>)

  /** The tables after `parseTechniqueScript(t)`: a parsed script stores
      both lists, overwriting earlier ones; every other outcome stores
      nothing. */
  function StoreAfter(ctx: Context, store: Store, t: Option<Technique>, asWritten: bool): Store
  {
    var o := ParseScript(ctx, t, asWritten);
    if o.Parsed? then
      Store(store.technique[t.value := o.ps.technique], store.external[t.value := o.ps.external])
    else store
  }

  /** The techniques kept, and the tables, after parsing each of `named` in
      turn. */
  function SelectAll(ctx: Context, store: Store, named: seq<Option<Technique>>, asWritten: bool): (seq<Technique>, Store)
  {
    if named == [] then ([], store)
    else
      var prev := SelectAll(ctx, store, named[..|named| - 1], asWritten);
      var t := named[|named| - 1];
      (if Accepted(ParseScript(ctx, t, asWritten)) then prev.0 + [t.value] else prev.0,
       StoreAfter(ctx, prev.1, t, asWritten))
  }

  /** A technique is kept exactly when it is named, valid, and its script is
      accepted. */
  lemma {:induction false} SelectAllMembers(ctx: Context, store: Store, named: seq<Option<Technique>>, asWritten: bool)
    ensures forall x :: x in SelectAll(ctx, store, named, asWritten).0 <==>
      exists k :: 0 <= k < |named| && named[k] == Some(x) && Accepted(ParseScript(ctx, named[k], false))
  {
    if named != [] {
      var init := named[..|named| - 1];
      SelectAllMembers(ctx, store, init, asWritten);
      ParseAsWritten(ctx, named[|named| - 1]);
      forall x ensures x in SelectAll(ctx, store, named, asWritten).0 <==>
        exists k :: 0 <= k < |named| && named[k] == Some(x) && Accepted(ParseScript(ctx, named[k], false))
      {
        if exists k :: 0 <= k < |named| && named[k] == Some(x) && Accepted(ParseScript(ctx, named[k], false)) {
          var k :| 0 <= k < |named| && named[k] == Some(x) && Accepted(ParseScript(ctx, named[k], false));
          if k < |named| - 1 {
            assert init[k] == named[k];
          }
        }
        if x in SelectAll(ctx, store, init, asWritten).0 {
          var k :| 0 <= k < |init| && init[k] == Some(x) && Accepted(ParseScript(ctx, init[k], false));
          assert named[k] == init[k];
        }
      }
    }
  }

  /** The body of the `parseTechniqueScript` loop for one segment: split at
      the first `=`, interpret the command and record the new state in the
      list the parser is filling. `None` when the command rejects the
      script. */
  method ScanSegment(ctx: Context, t: Technique, segment: string, ps: Parse) returns (next: Option<Parse>)
    ensures next == Step(ctx, t, ps, segment, true)
  {
    if '=' !in segment {
      return Some(ps);
    }
    var offset := IndexOf(segment, '=');
    var command := segment[..offset];
    var value := segment[offset + 1..];
    var outcome := Interpret(ctx, t, ps.inLoop, command, value, true);
    match outcome {
      case Reject =>
        return None;
      case Ignore =>
        return Some(ps);
      case Record(newState) =>
        var useExternal := ps.useExternal;
        if newState.kind == ScriptExternal {
          useExternal := false;
        }
        if useExternal {
          return Some(Parse(newState.enterLoop, useExternal, ps.technique, ps.external + [newState]));
        } else {
          return Some(Parse(newState.enterLoop, useExternal, ps.technique + [newState], ps.external));
        }
    }
  }

  /** `Effect`: the script class and order, the techniques selected by the
      standards-global parameter, and the state tables. */
  class Effect {
    var scriptClass: ScriptClass
    var scriptOrder: ScriptOrder
    var techniques: seq<Technique>
    var techniqueScriptStates: map<Technique, seq<ScriptState>>
    var scriptExternalStates: map<Technique, seq<ScriptState>>
    const parameters: map<string, EffectParameter>
    const colorTargets: map<string, ParamId>
    const depthStencilTargets: map<string, ParamId>

    function Ctx(): Context
      reads this`scriptClass, this`scriptOrder
    {
      Context(parameters, colorTargets, depthStencilTargets, scriptClass, scriptOrder)
    }

    function Tables(): Store
      reads this`techniqueScriptStates, this`scriptExternalStates
    {
      Store(techniqueScriptStates, scriptExternalStates)
    }

    constructor(parameters: map<string, EffectParameter>, colorTargets: map<string, ParamId>,
                depthStencilTargets: map<string, ParamId>)
      ensures scriptClass == ObjectClass && scriptOrder == Standard && techniques == []
      ensures techniqueScriptStates == map[] && scriptExternalStates == map[]
      ensures this.parameters == parameters && this.colorTargets == colorTargets
      ensures this.depthStencilTargets == depthStencilTargets
    {
      this.parameters, this.colorTargets, this.depthStencilTargets := parameters, colorTargets, depthStencilTargets;
      scriptClass, scriptOrder := ObjectClass, Standard;
      techniques := [];
      techniqueScriptStates, scriptExternalStates := map[], map[];
    }

    /** `Effect::parseTechniqueScript`. */
    method ParseTechniqueScript(technique: Option<Technique>) returns (ok: bool)
      modifies this`techniqueScriptStates, this`scriptExternalStates
      ensures ok == Accepted(ParseScript(Ctx(), technique, true))
      ensures ok == Accepted(ParseScript(Ctx(), technique, false))
      ensures Tables() == StoreAfter(Ctx(), old(Tables()), technique, true)
    {
      ParseAsWritten(Ctx(), technique);
      if technique.None? || !technique.value.valid {
        return false;
      }
      var t := technique.value;
      if "Script" !in t.annotations {
        return true;
      }
      var ctx := Ctx();
      var segments := ScriptSegments(t);
      var ps := Initial(scriptOrder);
      var i := 0;
      while i < |segments|
        invariant 0 <= i <= |segments|
        invariant RunFrom(ctx, t, segments, i, ps, true) == RunFrom(ctx, t, segments, 0, Initial(ctx.scriptOrder), true)
        invariant Tables() == old(Tables())
      {
        var next := ScanSegment(ctx, t, segments[i], ps);
        if next.None? {
          assert RunFrom(ctx, t, segments, i, ps, true).None?;
          assert ParseScript(ctx, technique, true) == Rejected;
          return false;
        }
        ps := next.value;
        i := i + 1;
      }
      assert ParseScript(ctx, technique, true) == Parsed(ps);
      techniqueScriptStates := techniqueScriptStates[t := ps.technique];
      scriptExternalStates := scriptExternalStates[t := ps.external];
      return !ps.inLoop;
    }

    /** `Effect::findTechnique`: the first technique that passes the test;
        if none does, the last one; none for an empty list. */
    method FindTechnique(q: Query) returns (r: Option<Technique>)
      ensures techniques == [] ==> r.None?
      ensures forall k :: (0 <= k < |techniques| && TestTechnique(techniques[k], q) &&
        forall j :: 0 <= j < k ==> !TestTechnique(techniques[j], q)) ==> r == Some(techniques[k])
      ensures techniques != [] && (forall k :: 0 <= k < |techniques| ==> !TestTechnique(techniques[k], q)) ==>
        r == Some(techniques[|techniques| - 1])
    {
      r := None;
      var i := 0;
      while i < |techniques|
        invariant 0 <= i <= |techniques|
        invariant forall j :: 0 <= j < i ==> !TestTechnique(techniques[j], q)
        invariant i == 0 ==> r.None?
        invariant i > 0 ==> r == Some(techniques[i - 1])
      {
        r := Some(techniques[i]);
        if TestTechnique(techniques[i], q) {
          return;
        }
        i := i + 1;
      }
    }

    /** The selection loop of `setStandardsGlobal`: each named technique
        whose script parses is appended. */
    method SelectTechniques(named: seq<Option<Technique>>)
      modifies this`techniques, this`techniqueScriptStates, this`scriptExternalStates
      ensures techniques == old(techniques) + SelectAll(Ctx(), old(Tables()), named, true).0
      ensures Tables() == SelectAll(Ctx(), old(Tables()), named, true).1
    {
      ghost var start := Tables();
      var i := 0;
      while i < |named|
        invariant 0 <= i <= |named|
        invariant techniques == old(techniques) + SelectAll(Ctx(), start, named[..i], true).0
        invariant Tables() == SelectAll(Ctx(), start, named[..i], true).1
      {
        assert named[..i + 1][..i] == named[..i];
        var ok := ParseTechniqueScript(named[i]);
        if ok {
          techniques := techniques + [named[i].value];
        }
        i := i + 1;
      }
      assert named[..i] == named;
    }

    /** The `ScriptClass` branch of `setStandardsGlobal`. */
    method ReadScriptClass(classAnnotation: Option<AnnotationValue>)
      modifies this`scriptClass
      ensures scriptClass == ClassFrom(old(scriptClass), classAnnotation)
    {
      if classAnnotation.Some? {
        var value := TextOf(classAnnotation);
        if value == "object" {
          scriptClass := ObjectClass;
        } else if value == "scene" {
          scriptClass := SceneClass;
        } else if value == "sceneobject" {
          scriptClass := SceneObjectClass;
        }
      }
    }

    /** The `ScriptOrder` branch of `setStandardsGlobal`. */
    method ReadScriptOrder(orderAnnotation: Option<AnnotationValue>)
      modifies this`scriptOrder
      ensures scriptOrder == OrderFrom(old(scriptOrder), orderAnnotation)
    {
      if orderAnnotation.Some? {
        var value := TextOf(orderAnnotation);
        if value == "standard" {
          scriptOrder := Standard;
        } else if value == "preprocess" {
          scriptOrder := PreProcess;
        } else if value == "postprocess" {
          scriptOrder := PostProcess;
        }
      }
    }

    /** `Effect::setStandardsGlobal` on the annotations of the standards-global
        parameter. The `Script` value is compared with `strncmp` over the
        `sizeof` of each literal, so only the bare literals select anything,
        and the names are then read from just past the value's terminator.
        `named` stands for the techniques the multiple form finds there and
        `single` for the one the single form finds. */
    method SetStandardsGlobal(anns: Annotations, named: seq<Option<Technique>>, single: Option<Technique>)
      modifies this`scriptClass, this`scriptOrder, this`techniques
      modifies this`techniqueScriptStates, this`scriptExternalStates
      ensures scriptClass == ClassFrom(old(scriptClass), Lookup(anns, "ScriptClass"))
      ensures scriptOrder == OrderFrom(old(scriptOrder), Lookup(anns, "ScriptOrder"))
      ensures "Script" !in anns ==> techniques == old(techniques) && Tables() == old(Tables())
      ensures "Script" in anns && TextOf(Lookup(anns, "Script")) !in {MultipleTechniques, SingleTechnique} ==>
        techniques == [] && Tables() == old(Tables())
      ensures "Script" in anns && TextOf(Lookup(anns, "Script")) == MultipleTechniques ==>
        (techniques, Tables()) == SelectAll(Ctx(), old(Tables()), named, true)
      ensures "Script" in anns && TextOf(Lookup(anns, "Script")) == SingleTechnique ==>
        (techniques, Tables()) == SelectAll(Ctx(), old(Tables()), [single], true)
    {
      ReadScriptClass(Lookup(anns, "ScriptClass"));
      ReadScriptOrder(Lookup(anns, "ScriptOrder"));
      var scriptAnnotation := Lookup(anns, "Script");
      if scriptAnnotation.Some? {
        var value := TextOf(scriptAnnotation);
        StrncmpWithTerminator(value, MultipleTechniques);
        StrncmpWithTerminator(value, SingleTechnique);
        techniques := [];
        ghost var before := Tables();
        assert before == old(Tables());
        if StrncmpEqual(value, MultipleTechniques, |MultipleTechniques| + 1) {
          SelectTechniques(named);
          assert techniques == [] + SelectAll(Ctx(), before, named, true).0;
          assert [] + SelectAll(Ctx(), before, named, true).0 == SelectAll(Ctx(), before, named, true).0;
        } else if StrncmpEqual(value, SingleTechnique, |SingleTechnique| + 1) {
          SelectTechniques([single]);
          assert techniques == [] + SelectAll(Ctx(), before, [single], true).0;
          assert [] + SelectAll(Ctx(), before, [single], true).0 == SelectAll(Ctx(), before, [single], true).0;
        }
      }
    }
  }
}
