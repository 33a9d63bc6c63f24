/**
 * The bot run state machine (`stateMachine.ts`): every `transition` call reads the row, checks the edge, and
 * commits with a compare-and-set on `version`. Any number of calls interleave at those two points.
 */
module RunLifecycle {
  import opened Wrappers

  datatype RunState =
    | Created
    | Queued
    | Starting
    | Syncing
    | Running
    | Stopping
    | Stopped
    | Failed
    | TimedOut

  function Transitions(s: RunState): seq<RunState> {
    match s
    case Created => [Queued]
    case Queued => [Starting, Failed]
    case Starting => [Syncing, Stopping, Failed, TimedOut]
    case Syncing => [Running, Stopping, Failed, TimedOut]
    case Running => [Stopping, Failed, TimedOut]
    case Stopping => [Stopped, Failed]
    case Stopped => []
    case Failed => []
    case TimedOut => []
  }

  predicate IsTerminal(s: RunState) {
    s in {Stopped, Failed, TimedOut}
  }

  predicate IsValidTransition(from: RunState, to: RunState) {
    to in Transitions(from)
  }

  /** Longest path from a state to a terminal one. */
  function Rank(s: RunState): nat {
    match s
    case Created => 6
    case Queued => 5
    case Starting => 4
    case Syncing => 3
    case Running => 2
    case Stopping => 1
    case Stopped => 0
    case Failed => 0
    case TimedOut => 0
  }

  /** The terminal set is exactly the set of states without edges, and every edge moves down in rank. */
  lemma GraphIsAcyclic(s: RunState, t: RunState)
    ensures IsTerminal(s) <==> Transitions(s) == []
    ensures IsValidTransition(s, t) ==> Rank(t) < Rank(s) && !IsTerminal(s)
  {
    if IsValidTransition(s, t) {
      assert t == Transitions(s)[0] || t in Transitions(s)[1..];
    }
  }

  datatype Options = Options(startedAt: Option<int>, stoppedAt: Option<int>, errorCode: Option<string>)

  datatype Row = Row(
    state: RunState,
    version: int,
    startedAt: Option<int>,
    stoppedAt: Option<int>,
    errorCode: Option<string>
  )

  datatype Event = Event(from: RunState, to: RunState)

  datatype Outcome =
    | Moved(readVersion: int)
    | NotFound
    | InvalidTransition(from: RunState, to: RunState)
    | Stale(expected: int)

  /** Where one `transition` call stands. */
  datatype Caller =
    | Checked(from: RunState, version: int, to: RunState, options: Options, now: int)
    | Done(outcome: Outcome)

  datatype System = System(row: Option<Row>, events: seq<Event>, callers: map<nat, Caller>)

  /** The row written by a successful commit. */
  function Updated(row: Row, version: int, to: RunState, options: Options, now: int): Row {
    Row(to, version + 1,
        if to == Running && options.startedAt.Some? then options.startedAt else row.startedAt,
        if IsTerminal(to) then Some(options.stoppedAt.Else(now)) else row.stoppedAt,
        if IsTerminal(to) && options.errorCode.Some? then options.errorCode else row.errorCode)
  }

  datatype Action = Read(id: nat, to: RunState, options: Options, now: int) | Commit(id: nat)

  /** The read and the edge check of call `id`. */
  function DoRead(s: System, id: nat, to: RunState, options: Options, now: int): System {
    if id in s.callers then s
    else if s.row == None then s.(callers := s.callers[id := Done(NotFound)])
    else
      var row := s.row.value;
      if !IsValidTransition(row.state, to) then s.(callers := s.callers[id := Done(InvalidTransition(row.state, to))])
      else s.(callers := s.callers[id := Checked(row.state, row.version, to, options, now)])
  }

  /** The database transaction of call `id`: update where the version still matches, and append the event. */
  function DoCommit(s: System, id: nat): System {
    if id !in s.callers || !s.callers[id].Checked? || s.row == None then s
    else
      var c := s.callers[id];
      if s.row.value.version != c.version then s.(callers := s.callers[id := Done(Stale(c.version))])
      else System(Some(Updated(s.row.value, c.version, c.to, c.options, c.now)), s.events + [Event(c.from, c.to)],
                  s.callers[id := Done(Moved(c.version))])
  }

  function Apply(s: System, a: Action): System {
    match a
    case Read(id, to, options, now) => DoRead(s, id, to, options, now)
    case Commit(id) => DoCommit(s, id)
  }

  function Trace(s: System, actions: seq<Action>): System {
    if actions == [] then s else Apply(Trace(s, actions[..|actions| - 1]), actions[|actions| - 1])
  }

  /** A freshly created run. */
  function Initial(version: int): System {
    System(Some(Row(Created, version, None, None, None)), [], map[])
  }

  /** The events are a path in the transition graph from `from` to `to`. */
  ghost predicate IsPath(events: seq<Event>, from: RunState, to: RunState) {
    && (forall k :: 0 <= k < |events| ==> IsValidTransition(events[k].from, events[k].to))
    && (forall k :: 0 < k < |events| ==> events[k].from == events[k - 1].to)
    && (if events == [] then from == to else events[0].from == from && events[|events| - 1].to == to)
  }

  ghost predicate Inv(s: System, version: int) {
    RowOk(s, version) && CallersOk(s)
  }

  ghost predicate RowOk(s: System, version: int) {
    && s.row.Some?
    && s.row.value.version == version + |s.events|
    && IsPath(s.events, Created, s.row.value.state)
    && Rank(s.row.value.state) + |s.events| <= 6
    && (s.row.value.stoppedAt.Some? <==> IsTerminal(s.row.value.state))
    && (s.row.value.errorCode.Some? ==> IsTerminal(s.row.value.state))
    && (s.row.value.startedAt.Some? ==> HasRun(s.events))
    && (HasRun(s.events) ==> Rank(s.row.value.state) <= Rank(Running))
  }

  /** The run has been in RUNNING. */
  ghost predicate HasRun(events: seq<Event>) {
    exists k :: 0 <= k < |events| && events[k].to == Running
  }

  /** A call still to commit read an edge that holds while the version does; no two calls won one version. */
  ghost predicate CallersOk(s: System) {
    && s.row.Some?
    && (forall id :: id in s.callers && s.callers[id].Checked? ==>
          var c := s.callers[id];
          && IsValidTransition(c.from, c.to)
          && c.version <= s.row.value.version
          && (c.version == s.row.value.version ==> c.from == s.row.value.state))
    && (forall id :: id in s.callers && s.callers[id].Done? && s.callers[id].outcome.Moved? ==>
          s.callers[id].outcome.readVersion < s.row.value.version)
    && (forall i, j :: i in s.callers && j in s.callers && i != j && Won(s, i) && Won(s, j) ==>
          s.callers[i].outcome.readVersion != s.callers[j].outcome.readVersion)
  }

  predicate Won(s: System, id: nat) {
    id in s.callers && s.callers[id].Done? && s.callers[id].outcome.Moved?
  }

  lemma StepKeepsRow(s: System, a: Action, version: int)
    requires Inv(s, version)
    ensures RowOk(Apply(s, a), version)
  {
    if a.Commit? && a.id in s.callers && s.callers[a.id].Checked? && s.row.value.version == s.callers[a.id].version {
      var c, t := s.callers[a.id], Apply(s, a);
      GraphIsAcyclic(c.from, c.to);
      PathExtends(s.events, Created, Event(c.from, c.to));
      hide IsPath;
      hide IsValidTransition;
      hide Transitions;
      hide Rank;
      assert t.row.value.version == version + |t.events|;
      assert t.events[..|s.events|] == s.events && t.events[|s.events|].to == c.to;
    }
  }

  lemma PathExtends(events: seq<Event>, from: RunState, e: Event)
    requires IsPath(events, from, e.from) && IsValidTransition(e.from, e.to)
    ensures IsPath(events + [e], from, e.to)
  {
    hide IsValidTransition;
  }

  lemma StepKeepsCallers(s: System, a: Action)
    requires CallersOk(s)
    ensures CallersOk(Apply(s, a))
  {
    hide IsValidTransition;
    hide IsTerminal;
  }

  lemma StepKeepsInv(s: System, a: Action, version: int)
    requires Inv(s, version)
    ensures Inv(Apply(s, a), version)
  {
    StepKeepsRow(s, a, version);
    StepKeepsCallers(s, a);
  }

  /** Safety over every interleaving of every number of calls. */
  lemma {:induction false} TraceKeepsInv(version: int, actions: seq<Action>)
    ensures Inv(Trace(Initial(version), actions), version)
  {
    if actions != [] {
      TraceKeepsInv(version, actions[..|actions| - 1]);
      StepKeepsInv(Trace(Initial(version), actions[..|actions| - 1]), actions[|actions| - 1], version);
    }
  }

  /** Two calls that read the same version cannot both succeed. */
  lemma NoDoubleWin(version: int, actions: seq<Action>, i: nat, j: nat)
    requires i != j
    ensures
      var s := Trace(Initial(version), actions);
      Won(s, i) && Won(s, j) ==> s.callers[i].outcome.readVersion != s.callers[j].outcome.readVersion
  {
    TraceKeepsInv(version, actions);
  }

  /**
   * The events of any run are a path from CREATED to its state; the version counts them; and there are at
   * most six.
   */
  lemma HistoryIsAPath(version: int, actions: seq<Action>)
    ensures
      var s := Trace(Initial(version), actions);
      && s.row.Some?
      && IsPath(s.events, Created, s.row.value.state)
      && s.row.value.version == version + |s.events|
      && |s.events| <= 6
  {
    TraceKeepsInv(version, actions);
  }

  /** Six is reached: the bound is the length of the ordinary life of a run. */
  lemma SixIsReached(version: int, o: Options)
    ensures exists actions :: |Trace(Initial(version), actions).events| == 6
  {
    var s0 := Initial(version);
    assert Trace(s0, []) == s0;
    hide Trace;
    var a1 := Life(s0, [], 0, Queued, o);
    var a2 := Life(s0, a1, 1, Starting, o);
    var a3 := Life(s0, a2, 2, Syncing, o);
    var a4 := Life(s0, a3, 3, Running, o);
    var a5 := Life(s0, a4, 4, Stopping, o);
    var a6 := Life(s0, a5, 5, Stopped, o);
    assert |Trace(s0, a6).events| == 6;
  }

  /** One uncontended call appended to a trace. */
  lemma Life(s0: System, actions: seq<Action>, id: nat, to: RunState, o: Options) returns (longer: seq<Action>)
    requires Trace(s0, actions).row.Some? && IsValidTransition(Trace(s0, actions).row.value.state, to)
    requires forall k :: k >= id ==> k !in Trace(s0, actions).callers
    ensures |Trace(s0, longer).events| == |Trace(s0, actions).events| + 1
    ensures Trace(s0, longer).row.Some? && Trace(s0, longer).row.value.state == to
    ensures forall k :: k > id ==> k !in Trace(s0, longer).callers
  {
    var read, commit := Read(id, to, o, 0), Commit(id);
    longer := actions + [read] + [commit];
    assert longer[..|longer| - 1] == actions + [read];
    assert (actions + [read])[..|actions|] == actions;
  }

  // ----- which calls succeed -----

  /** A whole call without interference. */
  function OneCall(s: System, id: nat, to: RunState, o: Options, now: int): System {
    Apply(Apply(s, Read(id, to, o, now)), Commit(id))
  }

  /** The states from which a state can be entered, target by target. */
  predicate CanEnter(from: RunState, to: RunState) {
    match to
    case Created => false
    case Queued => from == Created
    case Starting => from == Queued
    case Syncing => from == Starting
    case Running => from == Syncing
    case Stopping => from in {Starting, Syncing, Running}
    case Stopped => from == Stopping
    case Failed => from != Created && !IsTerminal(from)
    case TimedOut => from in {Starting, Syncing, Running}
  }

  /**
   * From every reachable state: an undisturbed call succeeds exactly from the states listed with its target, and
   * otherwise is refused with both states and changes nothing. So every run that has left CREATED and not ended
   * can be failed; and from STARTING to RUNNING it can be stopped or timed out.
   */
  lemma CallSucceedsExactly(version: int, actions: seq<Action>, id: nat, to: RunState, o: Options, now: int)
    requires id !in Trace(Initial(version), actions).callers
    ensures
      var s := Trace(Initial(version), actions);
      s.row.Some? && CallDone(s, OneCall(s, id, to, o, now), id, to, o, now)
  {
    TraceKeepsInv(version, actions);
    hide Trace;
    hide OneCall;
    hide CallDone;
    OneCallFrom(Trace(Initial(version), actions), id, to, o, now);
  }

  /** The call moved the run and stamped it, or was refused. */
  ghost predicate CallDone(s: System, t: System, id: nat, to: RunState, o: Options, now: int)
    requires s.row.Some?
  {
    var was := s.row.value;
    && t.row.Some? && id in t.callers
    && if CanEnter(was.state, to) then
         && t.callers[id] == Done(Moved(was.version))
         && t.row.value.state == to && t.row.value.version == was.version + 1
         && t.events == s.events + [Event(was.state, to)]
         && (to == Running && o.startedAt.Some? ==> t.row.value.startedAt == o.startedAt)
         && (IsTerminal(to) ==> t.row.value.stoppedAt == Some(if o.stoppedAt.Some? then o.stoppedAt.value else now))
         && (IsTerminal(to) && o.errorCode.Some? ==> t.row.value.errorCode == o.errorCode)
       else
         && t.callers[id] == Done(InvalidTransition(was.state, to))
         && t.row == s.row && t.events == s.events
  }

  lemma OneCallFrom(s: System, id: nat, to: RunState, o: Options, now: int)
    requires s.row.Some? && id !in s.callers
    ensures CallDone(s, OneCall(s, id, to, o, now), id, to, o, now)
  {
    EdgesByTarget(s.row.value.state, to);
    hide IsValidTransition;
    hide CanEnter;
  }

  lemma EdgesByTarget(from: RunState, to: RunState)
    ensures IsValidTransition(from, to) <==> CanEnter(from, to)
  {
    var edges := Transitions(from);
    assert IsValidTransition(from, to) <==> exists k :: 0 <= k < |edges| && edges[k] == to;
  }

  /** The start given when RUNNING is entered is kept for good, whatever other calls bring. */
  lemma {:induction false} StartIsKept(version: int, actions: seq<Action>, more: seq<Action>)
    requires
      var s := Trace(Initial(version), actions);
      s.row.Some? && HasRun(s.events)
    ensures
      var t := Trace(Initial(version), actions + more);
      t.row.Some? && HasRun(t.events) && t.row.value.startedAt == Trace(Initial(version), actions).row.value.startedAt
    decreases |more|
  {
    if more == [] {
      assert actions + more == actions;
    } else {
      var before, a := actions + more[..|more| - 1], more[|more| - 1];
      assert (actions + more)[..|actions + more| - 1] == before;
      StartIsKept(version, actions, more[..|more| - 1]);
      TraceKeepsInv(version, before);
      hide Trace;
      hide Inv;
      StartStays(Trace(Initial(version), before), a, version);
    }
  }

  lemma StartStays(s: System, a: Action, version: int)
    requires Inv(s, version) && HasRun(s.events)
    ensures Apply(s, a).row.Some? && Apply(s, a).row.value.startedAt == s.row.value.startedAt
    ensures HasRun(Apply(s, a).events)
  {
    if a.Commit? && a.id in s.callers && s.callers[a.id].Checked? && s.row.value.version == s.callers[a.id].version {
      var c, t := s.callers[a.id], Apply(s, a);
      GraphIsAcyclic(c.from, c.to);
      assert t.events[..|s.events|] == s.events;
      assert forall k :: 0 <= k < |s.events| ==> t.events[k] == s.events[k];
    }
    hide IsPath;
    hide IsValidTransition;
    hide Transitions;
  }

  lemma TerminalRejects(s: System, a: Action, version: int)
    requires Inv(s, version) && IsTerminal(s.row.value.state)
    ensures Apply(s, a).row == s.row && Apply(s, a).events == s.events
  {
    GraphIsAcyclic(s.row.value.state, s.row.value.state);
  }

  /** Once terminal, neither the row nor the history ever changes again. */
  lemma {:induction false} TerminalIsFinal(version: int, actions: seq<Action>, more: seq<Action>)
    requires var s := Trace(Initial(version), actions); s.row.Some? && IsTerminal(s.row.value.state)
    ensures Trace(Initial(version), actions + more).row == Trace(Initial(version), actions).row
    ensures Trace(Initial(version), actions + more).events == Trace(Initial(version), actions).events
    decreases |more|
  {
    if more == [] {
      assert actions + more == actions;
    } else {
      hide Apply;
      hide Inv;
      var before := actions + more[..|more| - 1];
      assert (actions + more)[..|actions + more| - 1] == before;
      TerminalIsFinal(version, actions, more[..|more| - 1]);
      TraceKeepsInv(version, before);
      TerminalRejects(Trace(Initial(version), before), more[|more| - 1], version);
    }
  }

  /** The row and its event log, as one call without interference updates them. */
  class RunStore {
    var row: Option<Row>
    var events: seq<Event>

    /** `updateMany` with a version filter: the number of rows it changed. */
    method UpdateWhereVersion(version: int, data: Row) returns (count: nat)
      modifies this`row
      ensures old(row).Some? && old(row).value.version == version ==> count == 1 && row == Some(data)
      ensures !(old(row).Some? && old(row).value.version == version) ==> count == 0 && row == old(row)
    {
      if row.Some? && row.value.version == version {
        row := Some(data);
        return 1;
      }
      return 0;
    }

    /** One whole call: the same as its read immediately followed by its commit. */
    method Transition(to: RunState, options: Options, now: int) returns (outcome: Outcome)
      modifies this
      ensures
        var s := DoCommit(DoRead(System(old(row), old(events), map[]), 0, to, options, now), 0);
        row == s.row && events == s.events && s.callers[0] == Done(outcome)
    {
      if row == None { return NotFound; }
      var from := row.value.state;
      if !IsValidTransition(from, to) { return InvalidTransition(from, to); }
      var currentVersion := row.value.version;
      var data := row.value.(state := to, version := currentVersion + 1);
      if to == Running && options.startedAt.Some? { data := data.(startedAt := options.startedAt); }
      if IsTerminal(to) {
        data := data.(stoppedAt := Some(options.stoppedAt.Else(now)));
        if options.errorCode.Some? { data := data.(errorCode := options.errorCode); }
      }
      var count := UpdateWhereVersion(currentVersion, data);
      if count == 0 { return Stale(currentVersion); }
      events := events + [Event(from, to)];
      return Moved(currentVersion);
    }
  }
}
