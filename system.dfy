/**
  The controller of org.concord.energy2d.system.System2D: how it answers the manipulation events
  of the view (deleting parts and thermometers, running, stopping, resetting, switching and
  tilting the sun), and the order of calls by which it loads and saves a state. The model and the
  view are collaborators: their calls are recorded in order, and what a call does to the model
  data the controller sees is either written out (removing a part, clearing) or handed in as a
  parameter (the configuration a reset restores, the model a parse leaves).
*/
module System {
  import opened Common
  import opened Xml
  import opened Elements
  import opened Encoder

  /** The event kinds manipulationOccured tells apart; any other kind is OtherEvent. */
  datatype EventKind = Delete | Run | Stop | Reset | SunShine | SunAngleIncrease | SunAngleDecrease | OtherEvent

  /** The target of an event, by its class. */
  datatype Target = PartTarget(part: Part) | ThermometerTarget(thermometer: Thermometer) | OtherTarget

  /** A call on the model, the view or a stream, in the order the controller makes it. */
  datatype Call =
    | ModelRun | ModelStop | ModelReset | ModelClear | RemovePart
    | ViewReset | ViewClear | Repaint
    | RefreshPower | RefreshMaterials | RefreshTemperatureBoundary
    | ParseState | CloseInput | ScheduleStopClick | WriteState | CloseOutput

  /** The sun moves by a tenth of a right angle, Math.PI / 18. */
  const SunStep: real := Pi / 18.0

  /** What the controller reads and changes of the model: its part and thermometer lists, the sun, and the photon count. */
  datatype ModelData = ModelData(
    parts: seq<Part>,
    thermometers: seq<Thermometer>,
    sunny: bool,
    sunAngle: real,
    photons: nat)

  /** The model data, and the calls made so far. */
  datatype State = State(model: ModelData, log: seq<Call>)

  /** model.clear(): no parts, no thermometers, no photons; the sun is kept. */
  function Cleared(m: ModelData): ModelData {
    m.(parts := [], thermometers := [], photons := 0)
  }

  /** The index of the first occurrence of `x`. */
  function IndexOf<T(==)>(s: seq<T>, x: T): (i: nat)
    requires x in s
    ensures i < |s| && s[i] == x && x !in s[..i]
  {
    if s[0] == x then 0 else
      assert s == [s[0]] + s[1..];
      1 + IndexOf(s[1..], x)
  }

  /** List.remove(Object): drops the first occurrence, if there is one. */
  function RemoveFirst<T(==)>(s: seq<T>, x: T): (r: seq<T>)
    ensures |r| == if x in s then |s| - 1 else |s|
  {
    if s == [] then []
    else if s[0] == x then s[1..]
    else
      assert x in s[1..] <==> x in s by { assert s == [s[0]] + s[1..]; }
      [s[0]] + RemoveFirst(s[1..], x)
  }

  /** One occurrence of `x` goes, if there is one, and every other element keeps its count. */
  lemma {:induction false} RemoveFirstCounts<T>(s: seq<T>, x: T)
    ensures multiset(RemoveFirst(s, x)) == multiset(s) - multiset{x}
  {
    if s != [] {
      assert s == [s[0]] + s[1..];
      if s[0] != x {
        RemoveFirstCounts(s[1..], x);
      }
    }
  }

  /** Without an occurrence, removing changes nothing. */
  lemma {:induction false} RemoveFirstAbsent<T>(s: seq<T>, x: T)
    requires x !in s
    ensures RemoveFirst(s, x) == s
  {
    if s != [] {
      assert x !in s[1..];
      RemoveFirstAbsent(s[1..], x);
      assert s == [s[0]] + s[1..];
    }
  }

  /** The other elements stay, in their order: the list is cut around the first occurrence. */
  lemma {:induction false} RemoveFirstSplices<T>(s: seq<T>, x: T)
    requires x in s
    ensures RemoveFirst(s, x) == s[..IndexOf(s, x)] + s[IndexOf(s, x) + 1..]
  {
    if s[0] != x {
      var t := s[1..];
      assert x in t;
      RemoveFirstSplices(t, x);
      var i := IndexOf(t, x);
      assert IndexOf(s, x) == i + 1;
      assert s[..i + 1] == [s[0]] + t[..i];
      assert s[i + 2..] == t[i + 1..];
    }
  }

  /** reset(): the model, then the view, then a repaint. */
  const ResetCalls: seq<Call> := [ModelReset, ViewReset, Repaint]

  /** clear(): the model, then the view, then a repaint. */
  const ClearCalls: seq<Call> := [ModelClear, ViewClear, Repaint]

  /** The refreshes a part target triggers. */
  const PartRefreshCalls: seq<Call> := [RefreshMaterials, RefreshPower, RefreshTemperatureBoundary]

  function Min(a: real, b: real): real {
    if a <= b then a else b
  }

  function Max(a: real, b: real): real {
    if a >= b then a else b
  }

  /**
    The switch on the event kind. `initial` is the configuration model.reset() restores; removePart
    is taken to drop the first occurrence of the part, as List.remove does on the thermometers.
  */
  function Handle(st: State, kind: EventKind, target: Target, initial: ModelData): State {
    var m := st.model;
    match kind
    case Delete =>
      (match target
       case PartTarget(p) => State(m.(parts := RemoveFirst(m.parts, p)), st.log + [RemovePart])
       case ThermometerTarget(t) => st.(model := m.(thermometers := RemoveFirst(m.thermometers, t)))
       case OtherTarget => st)
    case Run => st.(log := st.log + [ModelRun])
    case Stop => st.(log := st.log + [ModelStop])
    case Reset => State(initial, st.log + ResetCalls)
    case SunShine => State(m.(sunny := !m.sunny), st.log + [RefreshPower])
    case SunAngleIncrease => State(m.(sunAngle := Min(m.sunAngle + SunStep, Pi)), st.log + [RefreshPower])
    case SunAngleDecrease => State(m.(sunAngle := Max(m.sunAngle - SunStep, 0.0)), st.log + [RefreshPower])
    case OtherEvent => st
  }

  /** The calls the switch itself makes for each kind and target. */
  function KindCalls(kind: EventKind, target: Target): seq<Call> {
    match kind
    case Delete => if target.PartTarget? then [RemovePart] else []
    case Run => [ModelRun]
    case Stop => [ModelStop]
    case Reset => ResetCalls
    case SunShine => [RefreshPower]
    case SunAngleIncrease => [RefreshPower]
    case SunAngleDecrease => [RefreshPower]
    case OtherEvent => []
  }

  lemma HandleLog(st: State, kind: EventKind, target: Target, initial: ModelData)
    ensures Handle(st, kind, target, initial).log == st.log + KindCalls(kind, target)
  {
    match kind
    case Delete =>
      assert st.log + [] == st.log;
    case OtherEvent =>
      assert st.log + [] == st.log;
    case _ =>
  }

  /** After the switch, whatever the kind: a part target refreshes the arrays, and an emissive part clears the photons. */
  function FollowUp(st: State, target: Target, emissivity: real): State {
    if target.PartTarget? then
      State(st.model.(photons := if emissivity > 0.0 then 0 else st.model.photons), st.log + PartRefreshCalls)
    else st
  }

  /** manipulationOccured: the switch, the part follow-up, then one repaint. `emissivity` is the target part's. */
  function Dispatch(st: State, kind: EventKind, target: Target, emissivity: real, initial: ModelData): State {
    var s := FollowUp(Handle(st, kind, target, initial), target, emissivity);
    s.(log := s.log + [Repaint])
  }

  /** The calls of one event: the switch's own, the part refreshes for a part target, then the repaint. */
  lemma DispatchLog(st: State, kind: EventKind, target: Target, emissivity: real, initial: ModelData)
    ensures Dispatch(st, kind, target, emissivity, initial).log ==
      st.log + (KindCalls(kind, target) + (if target.PartTarget? then PartRefreshCalls else []) + [Repaint])
  {
    HandleLog(st, kind, target, initial);
    var h := Handle(st, kind, target, initial);
    var f := FollowUp(h, target, emissivity);
    assert f.log == h.log + (if target.PartTarget? then PartRefreshCalls else []);
  }

  /**
    Deleting removes the first occurrence of the target from its own list and nothing else; a reset
    brings back the lists of the restored configuration; no other event changes either list.
  */
  lemma DispatchLists(st: State, kind: EventKind, target: Target, emissivity: real, initial: ModelData)
    ensures var m := st.model;
      var r := Dispatch(st, kind, target, emissivity, initial).model;
      (kind == Delete && target.PartTarget? ==>
        r.parts == RemoveFirst(m.parts, target.part) && r.thermometers == m.thermometers)
      && (kind == Delete && target.ThermometerTarget? ==>
        r.thermometers == RemoveFirst(m.thermometers, target.thermometer) && r.parts == m.parts)
      && (kind == Reset ==> r.parts == initial.parts && r.thermometers == initial.thermometers)
      && ((kind != Delete && kind != Reset) || (kind == Delete && target.OtherTarget?) ==>
        r.parts == m.parts && r.thermometers == m.thermometers)
  {
  }

  /** Running, stopping or an unknown event on a target that is not a part leaves the model data as it is. */
  lemma DispatchKeepsModel(st: State, kind: EventKind, target: Target, emissivity: real, initial: ModelData)
    requires kind == Run || kind == Stop || kind == OtherEvent
    requires !target.PartTarget?
    ensures Dispatch(st, kind, target, emissivity, initial).model == st.model
  {
  }

  /** Every event ends with a repaint; apart from a reset, which repaints once more inside, it is the only one. */
  lemma DispatchRepaints(st: State, kind: EventKind, target: Target, emissivity: real, initial: ModelData)
    ensures var r := Dispatch(st, kind, target, emissivity, initial);
      |r.log| > |st.log| && r.log[..|st.log|] == st.log && r.log[|r.log| - 1] == Repaint
      && (kind != Reset ==> Repaint !in r.log[|st.log|..|r.log| - 1])
  {
    DispatchLog(st, kind, target, emissivity, initial);
    var mid := KindCalls(kind, target) + (if target.PartTarget? then PartRefreshCalls else []);
    LastCall(st.log, mid, Repaint);
    if kind != Reset {
      KindCallsRepaint(kind, target);
      assert Repaint !in mid;
    }
  }

  /** The model is asked to remove a part exactly when a part is deleted. */
  lemma DispatchRemovesPart(st: State, kind: EventKind, target: Target, emissivity: real, initial: ModelData)
    ensures var r := Dispatch(st, kind, target, emissivity, initial);
      |r.log| > |st.log| && (RemovePart in r.log[|st.log|..] <==> kind == Delete && target.PartTarget?)
  {
    DispatchLog(st, kind, target, emissivity, initial);
    var mid := KindCalls(kind, target) + (if target.PartTarget? then PartRefreshCalls else []);
    LastCall(st.log, mid, Repaint);
    var r := Dispatch(st, kind, target, emissivity, initial);
    assert r.log[|st.log|..] == mid + [Repaint];
    assert RemovePart in KindCalls(kind, target) <==> kind == Delete && target.PartTarget?;
  }

  /** Only a reset repaints inside the switch. */
  lemma KindCallsRepaint(kind: EventKind, target: Target)
    ensures Repaint in KindCalls(kind, target) <==> kind == Reset
  {
  }

  /** Where the parts of `pre + mid + [c]` sit. */
  lemma LastCall(pre: seq<Call>, mid: seq<Call>, c: Call)
    ensures var l := pre + mid + [c];
      |l| > |pre| && l[..|pre|] == pre && l[|l| - 1] == c && l[|pre|..|l| - 1] == mid && l[|pre|..] == mid + [c]
  {
    var l := pre + mid + [c];
    assert l[..|pre|] == pre;
    assert l[|pre|..|l| - 1] == mid;
    assert l[|pre|..] == mid + [c];
  }

  /**
    Photons are cleared exactly when the target is a part with positive emissivity; otherwise a
    reset brings back the restored configuration's, and any other event keeps them.
  */
  lemma DispatchPhotons(st: State, kind: EventKind, target: Target, emissivity: real, initial: ModelData)
    ensures var r := Dispatch(st, kind, target, emissivity, initial);
      r.model.photons ==
        if target.PartTarget? && emissivity > 0.0 then 0
        else if kind == Reset then initial.photons
        else st.model.photons
  {
  }

  /** A part target, whatever the event, asks for the material, power and temperature-boundary refreshes, in that order. */
  lemma DispatchPartRefreshes(st: State, kind: EventKind, target: Target, emissivity: real, initial: ModelData)
    requires target.PartTarget?
    ensures var r := Dispatch(st, kind, target, emissivity, initial);
      r.log[|r.log| - 4..] == PartRefreshCalls + [Repaint]
  {
    DispatchLog(st, kind, target, emissivity, initial);
  }

  /** The sun switch is undone by a second one. */
  lemma SunShineTwice(st: State, target: Target, emissivity: real, initial: ModelData)
    ensures var once := Dispatch(st, SunShine, target, emissivity, initial);
      once.model.sunny == !st.model.sunny
      && Dispatch(once, SunShine, target, emissivity, initial).model.sunny == st.model.sunny
  {
  }

  predicate AngleInRange(a: real) {
    0.0 <= a <= Pi
  }

  /** One event keeps the sun angle within [0, pi], given that a reset restores an angle in that range. */
  lemma DispatchKeepsAngle(st: State, kind: EventKind, target: Target, emissivity: real, initial: ModelData)
    requires AngleInRange(st.model.sunAngle)
    requires kind == Reset ==> AngleInRange(initial.sunAngle)
    ensures AngleInRange(Dispatch(st, kind, target, emissivity, initial).model.sunAngle)
  {
  }

  /**
    An event as it reaches the controller, with the emissivity its target part has at that moment
    and the configuration a reset would restore at that moment.
  */
  datatype Event = Event(kind: EventKind, target: Target, emissivity: real, initial: ModelData)

  function Replay(st: State, events: seq<Event>): State {
    if events == [] then st
    else
      var e := events[|events| - 1];
      Dispatch(Replay(st, events[..|events| - 1]), e.kind, e.target, e.emissivity, e.initial)
  }

  /** Any series of events keeps a sun angle that starts within [0, pi] within it, while resets restore angles in that range. */
  lemma {:induction false} ReplayKeepsAngle(st: State, events: seq<Event>)
    requires AngleInRange(st.model.sunAngle)
    requires forall i :: 0 <= i < |events| && events[i].kind == Reset ==> AngleInRange(events[i].initial.sunAngle)
    ensures AngleInRange(Replay(st, events).model.sunAngle)
  {
    if events != [] {
      var front := events[..|events| - 1];
      assert forall i :: 0 <= i < |front| ==> front[i] == events[i];
      ReplayKeepsAngle(st, front);
      var e := events[|events| - 1];
      DispatchKeepsAngle(Replay(st, front), e.kind, e.target, e.emissivity, e.initial);
    }
  }

  /** Only the upper bound is enforced on the way up: an angle below zero is not pulled back by an increase. */
  lemma NegativeAngleStaysNegative(st: State, initial: ModelData)
    requires st.model.sunAngle == -1.0
    ensures Dispatch(st, SunAngleIncrease, OtherTarget, 0.0, initial).model.sunAngle == -1.0 + SunStep < 0.0
  {
  }

  /** How the parse of a state ends: normally, with a SAXException, or with an IOException. */
  datatype ParseOutcome = Parsed | SaxFailure | IoFailure

  /** An input stream: whether it has been closed. */
  class InputStream {
    var closed: bool

    constructor ()
      ensures !closed
    {
      closed := false;
    }
  }

  /** An output stream: what has been written to it, and whether it has been closed. */
  class OutputStream {
    var data: string
    var closed: bool

    constructor ()
      ensures data == "" && !closed
    {
      data := "";
      closed := false;
    }
  }

  class System2D {
    var parts: seq<Part>
    var thermometers: seq<Thermometer>
    var sunny: bool
    var sunAngle: real
    var photons: nat
    var log: seq<Call>

    function Data(): ModelData
      reads this
    {
      ModelData(parts, thermometers, sunny, sunAngle, photons)
    }

    function Snapshot(): State
      reads this
    {
      State(Data(), log)
    }

    constructor (model: ModelData)
      ensures Snapshot() == State(model, [])
    {
      parts := model.parts;
      thermometers := model.thermometers;
      sunny := model.sunny;
      sunAngle := model.sunAngle;
      photons := model.photons;
      log := [];
    }

    /** The model data becomes `m`; the calls made so far stay. */
    method Restore(m: ModelData)
      modifies this
      ensures Snapshot() == State(m, old(log))
    {
      parts := m.parts;
      thermometers := m.thermometers;
      sunny := m.sunny;
      sunAngle := m.sunAngle;
      photons := m.photons;
    }

    /** run(): the model's run loop, handed to the worker thread. */
    method Run()
      modifies this
      ensures Snapshot() == old(Snapshot()).(log := old(log) + [ModelRun])
    {
      log := log + [ModelRun];
    }

    method Stop()
      modifies this
      ensures Snapshot() == old(Snapshot()).(log := old(log) + [ModelStop])
    {
      log := log + [ModelStop];
    }

    /** reset(): the model goes back to `initial`, the configuration model.reset() restores. */
    method Reset(initial: ModelData)
      modifies this
      ensures Snapshot() == State(initial, old(log) + ResetCalls)
    {
      log := log + [ModelReset];
      Restore(initial);
      log := log + [ViewReset];
      log := log + [Repaint];
    }

    /** clear(): the model is emptied of parts, thermometers and photons. */
    method Clear()
      modifies this
      ensures Snapshot() == State(Cleared(old(Data())), old(log) + ClearCalls)
    {
      log := log + [ModelClear];
      parts := [];
      thermometers := [];
      photons := 0;
      log := log + [ViewClear];
      log := log + [Repaint];
    }

    /** The switch of manipulationOccured. */
    method HandleKind(kind: EventKind, target: Target, initial: ModelData)
      modifies this
      ensures Snapshot() == Handle(old(Snapshot()), kind, target, initial)
    {
      match kind {
        case Delete =>
          match target {
            case PartTarget(p) =>
              log := log + [RemovePart];
              parts := RemoveFirst(parts, p);
            case ThermometerTarget(t) => thermometers := RemoveFirst(thermometers, t);
            case OtherTarget =>
          }
        case Run => Run();
        case Stop => Stop();
        case Reset => Reset(initial);
        case SunShine =>
          sunny := !sunny;
          log := log + [RefreshPower];
        case SunAngleIncrease =>
          var a := sunAngle + SunStep;
          sunAngle := Min(a, Pi);
          log := log + [RefreshPower];
        case SunAngleDecrease =>
          var a := sunAngle - SunStep;
          sunAngle := Max(a, 0.0);
          log := log + [RefreshPower];
        case OtherEvent =>
      }
    }

    /** What follows the switch for a part target. */
    method RefreshForPart(target: Target)
      modifies this
      ensures Snapshot() == FollowUp(old(Snapshot()), target, if target.PartTarget? then target.part.props.emissivity else 0.0)
    {
      if target.PartTarget? {
        var p := target.part;
        log := log + [RefreshMaterials];
        log := log + [RefreshPower];
        log := log + [RefreshTemperatureBoundary];
        if p.props.emissivity > 0.0 {
          photons := 0;
        }
      }
    }

    /** manipulationOccured(e), for an event of the given kind on the given target. */
    method ManipulationOccured(kind: EventKind, target: Target, initial: ModelData)
      modifies this
      ensures Snapshot() == old(Dispatch(Snapshot(), kind, target, if target.PartTarget? then target.part.props.emissivity else 0.0, initial))
    {
      HandleKind(kind, target, initial);
      RefreshForPart(target);
      log := log + [Repaint];
    }

    /**
      loadState(input): stop first; nothing more for a missing stream; otherwise parse and close the
      stream however the parse ends. The parse replaces the model data with `loaded`, whatever the
      decoder made of the document before it ended. A SAXException is swallowed; an IOException is
      passed on (`failed`), and then the stop button is not clicked afterwards.
    */
    method LoadState(input: InputStream?, outcome: ParseOutcome, loaded: ModelData) returns (failed: bool)
      modifies this, input
      ensures failed <==> input != null && outcome == IoFailure
      ensures input != null ==> input.closed
      ensures Snapshot() ==
        State(if input != null then loaded else old(Data()), old(log) + [ModelStop] + LoadCalls(input != null, outcome))
    {
      Stop();
      failed := false;
      if input == null {
        return;
      }
      log := log + [ParseState];
      Restore(loaded);
      input.closed := true;
      log := log + [CloseInput];
      if outcome == IoFailure {
        failed := true;
        return;
      }
      log := log + [ScheduleStopClick];
    }

    /**
      saveState(os): stop first; nothing more for a missing stream; otherwise write the encoder's
      document of this system's state and close the stream, also when the write fails
      (`writeFails`), which is passed on.
    */
    method SaveState(os: OutputStream?, saved: SavedState, air: Air, num: Value -> string, writeFails: bool)
      returns (failed: bool)
      requires saved.model.sunny == sunny && saved.model.sunAngle == sunAngle
      requires |saved.parts| == |parts| && |saved.thermometers| == |thermometers|
      modifies this, os
      ensures failed <==> os != null && writeFails
      ensures os != null ==> os.closed
      ensures os != null ==> os.data == old(os.data) + (if writeFails then "" else Render(Encoding(saved, air), num))
      ensures Snapshot() == old(Snapshot()).(log := old(log) + [ModelStop] + SaveCalls(os != null))
    {
      Stop();
      failed := false;
      if os == null {
        return;
      }
      var doc := Encode(saved, air);
      log := log + [WriteState];
      if writeFails {
        failed := true;
      } else {
        os.data := os.data + Render(doc, num);
      }
      os.closed := true;
      log := log + [CloseOutput];
    }

    /**
      loadStateApp(input): stop, reset, clear, then loadState. A document that is parsed leaves
      `loaded`; without a stream the model stays cleared.
    */
    method LoadStateApp(input: InputStream?, outcome: ParseOutcome, initial: ModelData, loaded: ModelData)
      returns (failed: bool)
      modifies this, input
      ensures failed <==> input != null && outcome == IoFailure
      ensures input != null ==> input.closed
      ensures Snapshot() ==
        State(if input != null then loaded else Cleared(initial), old(log) + AppLoadCalls(input != null, outcome))
    {
      Stop();
      Reset(initial);
      Clear();
      failed := LoadState(input, outcome, loaded);
    }
  }

  /** The calls loadState makes after stopping the model. */
  function LoadCalls(present: bool, outcome: ParseOutcome): seq<Call> {
    if !present then []
    else [ParseState, CloseInput] + (if outcome == IoFailure then [] else [ScheduleStopClick])
  }

  /** The calls saveState makes after stopping the model. */
  function SaveCalls(present: bool): seq<Call> {
    if present then [WriteState, CloseOutput] else []
  }

  /** The calls of loadStateApp: stop, reset, clear, then loadState, which stops once more. */
  function AppLoadCalls(present: bool, outcome: ParseOutcome): seq<Call> {
    [ModelStop] + ResetCalls + ClearCalls + [ModelStop] + LoadCalls(present, outcome)
  }

  /** Loading stops the model first, parses only a stream that is there, and closes it right after the parse, whatever the parse did. */
  lemma LoadDiscipline(present: bool, outcome: ParseOutcome)
    ensures var c := [ModelStop] + LoadCalls(present, outcome);
      c[0] == ModelStop
      && (ParseState in c <==> present)
      && (present ==> c[1] == ParseState && c[2] == CloseInput)
      && (ScheduleStopClick in c <==> present && outcome != IoFailure)
  {
  }

  /** Saving stops the model first, and writes only to a stream that is there, closing it right after. */
  lemma SaveDiscipline(present: bool)
    ensures var c := [ModelStop] + SaveCalls(present);
      c[0] == ModelStop && (WriteState in c <==> present) && (present ==> c[1..] == [WriteState, CloseOutput])
  {
  }

  /** loadStateApp: the model is stopped before it is reset, reset before it is cleared, cleared before the parse. */
  lemma AppLoadOrder(present: bool, outcome: ParseOutcome)
    ensures var c := AppLoadCalls(present, outcome);
      c[..8] == [ModelStop, ModelReset, ViewReset, Repaint, ModelClear, ViewClear, Repaint, ModelStop]
      && (present ==> c[8] == ParseState)
      && (!present ==> |c| == 8)
  {
  }
}
