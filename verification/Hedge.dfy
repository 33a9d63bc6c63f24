/**
 * Funding-arbitrage hedges (`hedgeBotWorker.ts`): `advanceHedge` calls interleave at the granularity of
 * database operations, while the execution pipeline moves the intents' states.
 */
module Hedge {
  import opened Wrappers

  datatype Status = Planned | Opening | Open | Closing | Closed | Failed

  datatype LegType = EntryLeg | ExitLeg

  datatype Category = Spot | Perp

  datatype Direction = Buy | Sell

  datatype IntentState = Pending | Placed | PartiallyFilled | Filled | Cancelled | FailedIntent

  /** The idempotency key of an intent within its run. */
  datatype Key = Key(hedgeId: string, category: Category, leg: LegType)

  datatype Intent = Intent(direction: Direction, qty: real, state: IntentState)

  function IntentId(k: Key): string {
    "hedge-" + k.hedgeId + Tag(k.category, k.leg)
  }

  function Tag(c: Category, leg: LegType): string {
    (if c == Spot then "-spot" else "-perp") + (if leg == EntryLeg then "-entry" else "-exit")
  }

  lemma TagSeparates(c: Category, leg: LegType)
    ensures |Tag(c, leg)| == if leg == EntryLeg then 11 else 10
    ensures Tag(c, leg)[|Tag(c, leg)| - 1] == if leg == EntryLeg then 'y' else 't'
    ensures Tag(c, leg)[1] == if c == Spot then 's' else 'p'
  {
  }

  lemma SameParts(x: string, t: string, y: string, u: string)
    requires |t| == |u| && "hedge-" + x + t == "hedge-" + y + u
    ensures x == y && t == u
  {
    var s := "hedge-" + x + t;
    assert |x| == |y|;
    assert x == s[6..6 + |x|] && t == s[6 + |x|..];
    assert y == s[6..6 + |y|] && u == s[6 + |y|..];
  }

  /** The rendered intent ids are as good as the keys: the database's unique index separates the same intents. */
  lemma IntentIdInjective(a: Key, b: Key)
    requires IntentId(a) == IntentId(b)
    ensures a == b
  {
    hide Tag;
    TagSeparates(a.category, a.leg);
    TagSeparates(b.category, b.leg);
    var s, t := IntentId(a), IntentId(b);
    assert s[|s| - 1] == Tag(a.category, a.leg)[|Tag(a.category, a.leg)| - 1];
    assert t[|t| - 1] == Tag(b.category, b.leg)[|Tag(b.category, b.leg)| - 1];
    SameParts(a.hedgeId, Tag(a.category, a.leg), b.hedgeId, Tag(b.category, b.leg));
  }

  /** What a call knows and is about to do. */
  datatype Call =
    | Emitting(hedgeId: string, leg: LegType, qty: real)
    | Summing(hedgeId: string, leg: LegType)
    | Writing(hedgeId: string, leg: LegType, target: Status)
    | Finished

  datatype System = System(hedges: map<string, Status>, intents: map<Key, Intent>, calls: map<nat, Call>)

  /** The balance check before entry: not configured, failing, or the symbol's classification if listed. */
  datatype Gate = NoGate | GateThrows | GateSays(flat: Option<bool>)

  datatype Input = Input(
    fundingWindowOpen: bool,
    fundingPaymentReceived: bool,
    entryQty: Option<real>,
    exitQty: Option<real>,
    gate: Gate
  )

  predicate GatePasses(g: Gate) {
    match g
    case NoGate => true
    case GateThrows => false
    case GateSays(flat) => flat != Some(false)
  }

  /** The first half of `advanceHedge`: what the status just read leads to. */
  function Plan(status: Status, h: string, input: Input): Call {
    match status
    case Planned =>
      if input.fundingWindowOpen && input.entryQty.Else(0.0) > 0.0 && GatePasses(input.gate)
      then Emitting(h, EntryLeg, input.entryQty.Else(0.0)) else Finished
    case Opening => Summing(h, EntryLeg)
    case Open =>
      if input.fundingPaymentReceived && input.exitQty.Else(input.entryQty.Else(0.0)) > 0.0
      then Emitting(h, ExitLeg, input.exitQty.Else(input.entryQty.Else(0.0))) else Finished
    case Closing => Summing(h, ExitLeg)
    case Closed => Finished
    case Failed => Finished
  }

  function LegDirection(c: Category, leg: LegType): Direction {
    if (c == Spot) == (leg == EntryLeg) then Buy else Sell
  }

  function Leg(c: Category, leg: LegType, qty: real): Intent {
    Intent(LegDirection(c, leg), qty, Pending)
  }

  /** One transaction: both intents and the status, or nothing if either intent id is taken. */
  function Emit(s: System, h: string, leg: LegType, qty: real): System {
    var spot, perp := Key(h, Spot, leg), Key(h, Perp, leg);
    if spot in s.intents || perp in s.intents || h !in s.hedges then s
    else
      s.(intents := s.intents[spot := Leg(Spot, leg, qty)][perp := Leg(Perp, leg, qty)],
         hedges := s.hedges[h := if leg == EntryLeg then Opening else Closing])
  }

  predicate IsFilled(s: System, k: Key) {
    k in s.intents && s.intents[k].state == Filled
  }

  predicate BothFilled(s: System, h: string, leg: LegType) {
    IsFilled(s, Key(h, Spot, leg)) && IsFilled(s, Key(h, Perp, leg))
  }

  predicate HasFailed(s: System, k: Key) {
    k in s.intents && (s.intents[k].state == Cancelled || s.intents[k].state == FailedIntent)
  }

  /** What the legs just read lead to: failure first, then completion. */
  function Judge(s: System, h: string, leg: LegType): Call {
    if HasFailed(s, Key(h, Spot, leg)) || HasFailed(s, Key(h, Perp, leg)) then Writing(h, leg, Failed)
    else if BothFilled(s, h, leg) then Writing(h, leg, if leg == EntryLeg then Open else Closed)
    else Finished
  }

  datatype Action =
    | NewHedge(h: string)
    | Load(call: nat, h: string, input: Input)
    | Proceed(call: nat)
    | Execute(key: Key, state: IntentState)

  /** The next database operation of a call. */
  function Continue(s: System, id: nat): System {
    if id !in s.calls then s
    else match s.calls[id]
      case Emitting(h, leg, qty) => Emit(s, h, leg, qty).(calls := s.calls[id := Finished])
      case Summing(h, leg) => s.(calls := s.calls[id := Judge(s, h, leg)])
      case Writing(h, leg, target) =>
        System(if h in s.hedges then s.hedges[h := target] else s.hedges, s.intents, s.calls[id := Finished])
      case Finished => s
  }

  function Apply(s: System, a: Action): System {
    match a
    case NewHedge(h) => if h in s.hedges then s else s.(hedges := s.hedges[h := Planned])
    case Load(id, h, input) =>
      if id in s.calls then s
      else s.(calls := s.calls[id := if h in s.hedges then Plan(s.hedges[h], h, input) else Finished])
    case Proceed(id) => Continue(s, id)
    case Execute(k, state) =>
      if k !in s.intents || s.intents[k].state == Filled then s
      else s.(intents := s.intents[k := s.intents[k].(state := state)])
  }

  function Trace(s: System, actions: seq<Action>): System {
    if actions == [] then s else Apply(Trace(s, actions[..|actions| - 1]), actions[|actions| - 1])
  }

  const EMPTY := System(map[], map[], map[])

  // ----- the invariant -----

  /** Neither leg or both, on opposite sides and of one positive quantity. */
  ghost predicate PairOk(s: System, h: string, leg: LegType) {
    var spot, perp := Key(h, Spot, leg), Key(h, Perp, leg);
    && (spot in s.intents <==> perp in s.intents)
    && (spot in s.intents ==>
          && s.intents[spot].direction == LegDirection(Spot, leg)
          && s.intents[perp].direction == LegDirection(Perp, leg)
          && s.intents[spot].qty == s.intents[perp].qty > 0.0)
  }

  predicate HasPair(s: System, h: string, leg: LegType) {
    Key(h, Spot, leg) in s.intents && Key(h, Perp, leg) in s.intents
  }

  ghost predicate StatusOk(s: System, h: string)
    requires h in s.hedges
  {
    match s.hedges[h]
    case Planned => true
    case Opening => HasPair(s, h, EntryLeg)
    case Open => BothFilled(s, h, EntryLeg)
    case Closing => BothFilled(s, h, EntryLeg) && HasPair(s, h, ExitLeg)
    case Closed => BothFilled(s, h, EntryLeg) && BothFilled(s, h, ExitLeg)
    case Failed => HasPair(s, h, EntryLeg)
  }

  /** What a call in flight still relies on, however stale its reads are. */
  ghost predicate CallOk(s: System, c: Call) {
    match c
    case Emitting(h, leg, qty) => h in s.hedges && qty > 0.0 && (leg == ExitLeg ==> BothFilled(s, h, EntryLeg))
    case Summing(h, leg) => h in s.hedges && HasPair(s, h, leg) && (leg == ExitLeg ==> BothFilled(s, h, EntryLeg))
    case Writing(h, leg, target) =>
      && h in s.hedges
      && HasPair(s, h, leg)
      && (leg == ExitLeg ==> BothFilled(s, h, EntryLeg))
      && (target == Failed || (target == (if leg == EntryLeg then Open else Closed) && BothFilled(s, h, leg)))
    case Finished => true
  }

  ghost predicate Inv(s: System) {
    && (forall h, leg :: PairOk(s, h, leg))
    && (forall h :: h in s.hedges ==> StatusOk(s, h))
    && (forall id :: id in s.calls ==> CallOk(s, s.calls[id]))
  }

  /** Facts about legs only accumulate. */
  ghost predicate Grows(s: System, t: System) {
    && (forall h :: h in s.hedges ==> h in t.hedges)
    && (forall k :: k in s.intents ==> k in t.intents)
    && (forall k :: IsFilled(s, k) ==> IsFilled(t, k))
  }

  lemma StepGrows(s: System, a: Action)
    ensures Grows(s, Apply(s, a))
  {
  }

  lemma CallSurvives(s: System, t: System, c: Call)
    requires Grows(s, t) && CallOk(s, c)
    ensures CallOk(t, c)
  {
  }

  lemma StatusSurvives(s: System, t: System, h: string)
    requires Grows(s, t) && h in s.hedges && StatusOk(s, h) && t.hedges[h] == s.hedges[h]
    ensures StatusOk(t, h)
  {
  }

  lemma PairsSurvive(s: System, a: Action)
    requires Inv(s)
    ensures forall h, leg :: PairOk(Apply(s, a), h, leg)
  {
    hide Judge;
    hide Plan;
    var t := Apply(s, a);
    forall h, leg ensures PairOk(t, h, leg) {
      assert PairOk(s, h, leg);
    }
  }

  lemma StatusesStayOk(s: System, a: Action)
    requires Inv(s)
    ensures forall h :: h in Apply(s, a).hedges ==> StatusOk(Apply(s, a), h)
  {
    hide Judge;
    hide Plan;
    var t := Apply(s, a);
    StepGrows(s, a);
    forall h | h in t.hedges ensures StatusOk(t, h) {
      if h in s.hedges && t.hedges[h] == s.hedges[h] {
        StatusSurvives(s, t, h);
      } else if a.Proceed? {
        assert CallOk(s, s.calls[a.call]);
        CallSurvives(s, t, s.calls[a.call]);
      }
    }
  }

  lemma CallsStayOk(s: System, a: Action)
    requires Inv(s)
    ensures forall id :: id in Apply(s, a).calls ==> CallOk(Apply(s, a), Apply(s, a).calls[id])
  {
    var t := Apply(s, a);
    StepGrows(s, a);
    forall id | id in t.calls ensures CallOk(t, t.calls[id]) {
      if id in s.calls && t.calls[id] == s.calls[id] {
        CallSurvives(s, t, s.calls[id]);
      } else if a.Load? && a.h in s.hedges {
        assert StatusOk(s, a.h);
        CallSurvives(s, t, Plan(s.hedges[a.h], a.h, a.input));
      } else if a.Proceed? && s.calls[id].Summing? {
        CallSurvives(s, t, s.calls[id]);
      }
    }
  }

  lemma StepKeepsInv(s: System, a: Action)
    requires Inv(s)
    ensures Inv(Apply(s, a))
  {
    PairsSurvive(s, a);
    StatusesStayOk(s, a);
    CallsStayOk(s, a);
  }

  lemma {:induction false} TraceKeepsInv(actions: seq<Action>)
    ensures Inv(Trace(EMPTY, actions))
  {
    hide Apply;
    hide Inv;
    if actions == [] {
      assert Inv(EMPTY) by { EmptyInv(); }
    } else {
      TraceKeepsInv(actions[..|actions| - 1]);
      StepKeepsInv(Trace(EMPTY, actions[..|actions| - 1]), actions[|actions| - 1]);
    }
  }

  lemma EmptyInv()
    ensures Inv(EMPTY)
  {
  }

  // ----- what it means for the legs -----

  /** Signed filled quantity of one leg. */
  function Signed(s: System, k: Key): real {
    if !IsFilled(s, k) then 0.0
    else if s.intents[k].direction == Buy then s.intents[k].qty else -s.intents[k].qty
  }

  function Net(s: System, h: string, c: Category): real {
    Signed(s, Key(h, c, EntryLeg)) + Signed(s, Key(h, c, ExitLeg))
  }

  /**
   * Under any interleaving: an open hedge has both entry legs filled, a closed one all four, and its spot
   * and perpetual exposures cancel.
   */
  lemma LegsMatchStatus(actions: seq<Action>, h: string)
    requires h in Trace(EMPTY, actions).hedges
    ensures
      var s := Trace(EMPTY, actions);
      && (forall leg :: PairOk(s, h, leg))
      && (s.hedges[h] in {Open, Closing, Closed} ==> BothFilled(s, h, EntryLeg))
      && (s.hedges[h] == Closed ==> BothFilled(s, h, ExitLeg) && Net(s, h, Spot) == -Net(s, h, Perp))
  {
    TraceKeepsInv(actions);
    var s := Trace(EMPTY, actions);
    assert StatusOk(s, h) && PairOk(s, h, EntryLeg) && PairOk(s, h, ExitLeg);
  }

  /** A closed hedge is flat on each side exactly if it exited the quantity it entered. */
  lemma ClosedIsFlat(actions: seq<Action>, h: string)
    requires h in Trace(EMPTY, actions).hedges && Trace(EMPTY, actions).hedges[h] == Closed
    ensures
      var s := Trace(EMPTY, actions);
      && BothFilled(s, h, EntryLeg) && BothFilled(s, h, ExitLeg)
      && (Net(s, h, Spot) == 0.0 && Net(s, h, Perp) == 0.0
          <==> s.intents[Key(h, Spot, ExitLeg)].qty == s.intents[Key(h, Spot, EntryLeg)].qty)
  {
    LegsMatchStatus(actions, h);
    var s := Trace(EMPTY, actions);
    assert PairOk(s, h, EntryLeg) && PairOk(s, h, ExitLeg);
  }

  // ----- which way the legs go -----

  /** Quantity of a leg that has filled. */
  function FilledQty(s: System, k: Key): real {
    if IsFilled(s, k) then s.intents[k].qty else 0.0
  }

  /**
   * Under any interleaving a hedge is long spot by what its entry bought less what its exit sold, and short the
   * perpetual by what its entry sold less what its exit bought.
   */
  lemma NetIsEntryLessExit(actions: seq<Action>, h: string)
    ensures
      var s := Trace(EMPTY, actions);
      && Net(s, h, Spot) == FilledQty(s, Key(h, Spot, EntryLeg)) - FilledQty(s, Key(h, Spot, ExitLeg))
      && Net(s, h, Perp) == FilledQty(s, Key(h, Perp, ExitLeg)) - FilledQty(s, Key(h, Perp, EntryLeg))
  {
    TraceKeepsInv(actions);
    var s := Trace(EMPTY, actions);
    hide Trace;
    assert PairOk(s, h, EntryLeg) && PairOk(s, h, ExitLeg);
  }

  /** An open hedge holds its positive entry quantity in spot and is short as much exactly if no exit leg has filled. */
  lemma OpenIsHedgedExactly(actions: seq<Action>, h: string)
    requires h in Trace(EMPTY, actions).hedges && Trace(EMPTY, actions).hedges[h] == Open
    ensures
      var s := Trace(EMPTY, actions);
      && Key(h, Spot, EntryLeg) in s.intents
      && var qty := s.intents[Key(h, Spot, EntryLeg)].qty;
         && qty > 0.0
         && (Net(s, h, Spot) == qty && Net(s, h, Perp) == -qty
             <==> !IsFilled(s, Key(h, Spot, ExitLeg)) && !IsFilled(s, Key(h, Perp, ExitLeg)))
  {
    LegsMatchStatus(actions, h);
    NetIsEntryLessExit(actions, h);
    var s := Trace(EMPTY, actions);
    hide Trace;
    hide Net;
    assert PairOk(s, h, EntryLeg) && PairOk(s, h, ExitLeg);
  }

  /** A leg that fills moves its side by its quantity: up for spot entries and perpetual exits, else down. */
  lemma FillMovesNet(actions: seq<Action>, k: Key)
    requires k in Trace(EMPTY, actions).intents && Trace(EMPTY, actions).intents[k].state != Filled
    ensures
      var s, t := Trace(EMPTY, actions), Apply(Trace(EMPTY, actions), Execute(k, Filled));
      var qty := s.intents[k].qty;
      && qty > 0.0
      && (k.category == Spot ==>
            && Net(t, k.hedgeId, Spot) - Net(s, k.hedgeId, Spot) == (if k.leg == EntryLeg then qty else -qty)
            && Net(t, k.hedgeId, Perp) == Net(s, k.hedgeId, Perp))
      && (k.category == Perp ==>
            && Net(t, k.hedgeId, Perp) - Net(s, k.hedgeId, Perp) == (if k.leg == EntryLeg then -qty else qty)
            && Net(t, k.hedgeId, Spot) == Net(s, k.hedgeId, Spot))
  {
    var a := Execute(k, Filled);
    NetIsEntryLessExit(actions, k.hedgeId);
    NetIsEntryLessExit(actions + [a], k.hedgeId);
    TraceKeepsInv(actions);
    Extend(actions, a);
    assert PairOk(Trace(EMPTY, actions), k.hedgeId, k.leg);
    hide Trace;
    hide Net;
    ExecuteFills(Trace(EMPTY, actions), k);
    hide Apply;
    hide FilledQty;
    hide Inv;
  }

  lemma ExecuteFills(s: System, k: Key)
    requires k in s.intents && s.intents[k].state != Filled
    ensures forall j ::
      FilledQty(Apply(s, Execute(k, Filled)), j) == if j == k then s.intents[k].qty else FilledQty(s, j)
    ensures FilledQty(s, k) == 0.0
  {
  }

  // ----- the order of statuses -----

  /** A closed and a failed hedge are both at their end: neither comes after the other. */
  function Rank(st: Status): nat {
    match st
    case Planned => 0
    case Opening => 1
    case Open => 2
    case Closing => 3
    case Closed => 4
    case Failed => 4
  }

  predicate Advances(before: Status, after: Status) {
    before == after || Rank(before) < Rank(after)
  }

  predicate Terminal(st: Status) {
    st == Closed || st == Failed
  }

  /** The status a call must have read to be where it is. */
  function ReadStatus(c: Call): Status
    requires !c.Finished?
  {
    match c
    case Emitting(_, leg, _) => if leg == EntryLeg then Planned else Open
    case Summing(_, leg) => if leg == EntryLeg then Opening else Closing
    case Writing(_, leg, _) => if leg == EntryLeg then Opening else Closing
  }

  /** That is what it did read: a call is loaded at that status, and keeps it until it is finished. */
  lemma CallsReadTheirStatus(s: System, id: nat, h: string, input: Input)
    ensures
      var t := Apply(s, Load(id, h, input));
      id !in s.calls && !t.calls[id].Finished? ==> h in s.hedges && s.hedges[h] == ReadStatus(t.calls[id])
    ensures
      var t := Continue(s, id);
      id in s.calls && !t.calls[id].Finished? ==>
        !s.calls[id].Finished? && ReadStatus(t.calls[id]) == ReadStatus(s.calls[id])
  {
  }

  /**
   * A call whose hedge still has the status it read only ever advances it; status writes carry no version
   * check, so this is the condition under which the order of statuses is safe.
   */
  lemma FreshCallsNeverRegress(s: System, id: nat)
    requires Inv(s) && id in s.calls && !s.calls[id].Finished?
    requires s.hedges[s.calls[id].hedgeId] == ReadStatus(s.calls[id])
    ensures forall h :: h in s.hedges ==>
      h in Continue(s, id).hedges && Advances(s.hedges[h], Continue(s, id).hedges[h])
  {
    assert CallOk(s, s.calls[id]);
  }

  /** The next operation of this call overwrites the final status of its hedge with another. */
  predicate OverwritesFinal(s: System, c: Call) {
    match c
    case Emitting(h, leg, _) =>
      && leg == ExitLeg && h in s.hedges && s.hedges[h] == Failed
      && Key(h, Spot, ExitLeg) !in s.intents && Key(h, Perp, ExitLeg) !in s.intents
    case Writing(h, _, target) => h in s.hedges && Terminal(s.hedges[h]) && target != s.hedges[h]
    case Summing(_, _) => false
    case Finished => false
  }

  /** It does that, or takes a hedge that is already closing back to open. */
  predicate AboutToRegress(s: System, c: Call) {
    OverwritesFinal(s, c) || (c.Writing? && c.target == Open && c.hedgeId in s.hedges && s.hedges[c.hedgeId] == Closing)
  }

  /**
   * Where the order of statuses fails, for every step of every run: only a call's own operation fails to advance
   * a status, exactly when it writes another over a final one, emits the exit of a hedge that has failed
   * meanwhile, or opens one that is already closing. In every case the status is no longer the one the call
   * read, so a write guarded by that status would be refused.
   */
  lemma StepRegressesExactly(actions: seq<Action>, a: Action, h: string)
    requires h in Trace(EMPTY, actions).hedges
    ensures
      var s := Trace(EMPTY, actions);
      && h in Apply(s, a).hedges
      && (!Advances(s.hedges[h], Apply(s, a).hedges[h])
          <==> a.Proceed? && a.call in s.calls && AboutToRegress(s, s.calls[a.call]) && s.calls[a.call].hedgeId == h)
      && (!Advances(s.hedges[h], Apply(s, a).hedges[h]) ==> s.hedges[h] != ReadStatus(s.calls[a.call]))
  {
    TraceKeepsInv(actions);
    var s := Trace(EMPTY, actions);
    hide Trace;
    StepRegressesAt(s, a, h);
  }

  lemma StepRegressesAt(s: System, a: Action, h: string)
    requires Inv(s) && h in s.hedges
    ensures h in Apply(s, a).hedges
    ensures !Advances(s.hedges[h], Apply(s, a).hedges[h])
      <==> a.Proceed? && a.call in s.calls && AboutToRegress(s, s.calls[a.call]) && s.calls[a.call].hedgeId == h
    ensures !Advances(s.hedges[h], Apply(s, a).hedges[h]) ==> s.hedges[h] != ReadStatus(s.calls[a.call])
  {
    hide Plan;
    hide Judge;
    assert StatusOk(s, h);
    if a.Proceed? && a.call in s.calls {
      assert CallOk(s, s.calls[a.call]);
    }
  }

  /** When a final status is lost, for every step of every run. */
  lemma FinalStatusLostExactly(actions: seq<Action>, a: Action, h: string)
    requires h in Trace(EMPTY, actions).hedges && Terminal(Trace(EMPTY, actions).hedges[h])
    ensures
      var s := Trace(EMPTY, actions);
      && h in Apply(s, a).hedges
      && (Apply(s, a).hedges[h] != s.hedges[h]
          <==> a.Proceed? && a.call in s.calls && OverwritesFinal(s, s.calls[a.call]) && s.calls[a.call].hedgeId == h)
  {
    hide Trace;
    hide Apply;
    hide OverwritesFinal;
    StepRegressesExactly(actions, a, h);
  }

  /** No call of the run proceeds unless its hedge still has the status it read. */
  ghost predicate Guarded(actions: seq<Action>) {
    forall n :: 0 <= n < |actions| ==> ProceedsFresh(Trace(EMPTY, actions[..n]), actions[n])
  }

  predicate ProceedsFresh(s: System, a: Action) {
    a.Proceed? && a.call in s.calls && !s.calls[a.call].Finished? && s.calls[a.call].hedgeId in s.hedges ==>
      s.hedges[s.calls[a.call].hedgeId] == ReadStatus(s.calls[a.call])
  }

  /** From one status to another of the hedge, forward only, so that a final status stays as it is. */
  predicate Forward(s: System, t: System, h: string)
    requires h in s.hedges
  {
    && h in t.hedges
    && Advances(s.hedges[h], t.hedges[h])
    && (Terminal(s.hedges[h]) ==> t.hedges[h] == s.hedges[h])
  }

  lemma FreshStepForward(s: System, a: Action, h: string)
    requires Inv(s) && ProceedsFresh(s, a) && h in s.hedges
    ensures Forward(s, Apply(s, a), h)
  {
    hide Plan;
    hide Judge;
    StepRegressesAt(s, a, h);
  }

  lemma ForwardOn(s: System, t: System, u: System, h: string)
    requires h in s.hedges && Forward(s, t, h) && Forward(t, u, h)
    ensures Forward(s, u, h)
  {
  }

  /**
   * With that guard the status of every hedge only ever advances, over whole runs and any interleaving; so a
   * closed or failed hedge stays as it is.
   */
  lemma {:induction false} GuardedRunsNeverRegress(actions: seq<Action>, m: nat, h: string)
    requires Guarded(actions) && m <= |actions| && h in Trace(EMPTY, actions[..m]).hedges
    ensures Forward(Trace(EMPTY, actions[..m]), Trace(EMPTY, actions), h)
    decreases |actions|
  {
    hide Forward;
    hide ProceedsFresh;
    hide Apply;
    hide Inv;
    if m == |actions| {
      assert actions[..m] == actions;
      StaysForward(Trace(EMPTY, actions), h);
    } else {
      var before, a := actions[..|actions| - 1], actions[|actions| - 1];
      assert before[..m] == actions[..m];
      assert forall n :: 0 <= n < |before| ==> before[..n] == actions[..n];
      GuardedRunsNeverRegress(before, m, h);
      GuardedStep(Trace(EMPTY, actions[..m]), before, a, h);
      assert Trace(EMPTY, actions) == Apply(Trace(EMPTY, before), a);
    }
  }

  lemma StaysForward(s: System, h: string)
    requires h in s.hedges
    ensures Forward(s, s, h)
  {
  }

  lemma GuardedStep(s: System, before: seq<Action>, a: Action, h: string)
    requires h in s.hedges && Forward(s, Trace(EMPTY, before), h) && ProceedsFresh(Trace(EMPTY, before), a)
    ensures Forward(s, Apply(Trace(EMPTY, before), a), h)
  {
    var t := Trace(EMPTY, before);
    TraceKeepsInv(before);
    FreshStepForward(t, a, h);
    hide Apply;
    ForwardOn(s, t, Apply(t, a), h);
  }

  /** A whole call without interference: load, then up to two more operations. */
  function Advance(s: System, id: nat, h: string, input: Input): System {
    Continue(Continue(Apply(s, Load(id, h, input)), id), id)
  }

  /** Atomic calls only ever advance a status, and leave a final one as it is. */
  lemma AtomicCallsNeverRegress(s: System, id: nat, h: string, input: Input)
    requires Inv(s) && id !in s.calls
    ensures forall g :: g in s.hedges ==> Forward(s, Advance(s, id, h, input), g)
  {
    if h in s.hedges {
      assert StatusOk(s, h);
    }
  }

  /** Both legs of the stage are new, of this quantity, and on these sides. */
  predicate Placed(s: System, h: string, leg: LegType, qty: real, spot: Direction, perp: Direction) {
    && Key(h, Spot, leg) in s.intents && s.intents[Key(h, Spot, leg)] == Intent(spot, qty, Pending)
    && Key(h, Perp, leg) in s.intents && s.intents[Key(h, Perp, leg)] == Intent(perp, qty, Pending)
  }

  predicate LegFailed(s: System, h: string, leg: LegType) {
    exists c :: HasFailed(s, Key(h, c, leg))
  }

  /**
   * What a whole call does, status by status, from any consistent state in which the stage's legs are not there
   * yet: it enters in an open window for a positive quantity unless the balance check fails or finds the symbol
   * not flat; it leaves once funding is paid; and it judges placed legs by failure first.
   */
  lemma CallDecidesExactly(s: System, id: nat, h: string, input: Input)
    requires Inv(s) && id !in s.calls && h in s.hedges
    requires s.hedges[h] == Planned ==> !HasPair(s, h, EntryLeg)
    requires s.hedges[h] == Open ==> !HasPair(s, h, ExitLeg)
    ensures
      var t := Advance(s, id, h, input);
      var entryQty := input.entryQty.Else(0.0);
      var exitQty := if input.exitQty.Some? then input.exitQty.value else entryQty;
      && h in t.hedges
      && match s.hedges[h]
         case Planned =>
           if input.fundingWindowOpen && entryQty > 0.0
              && input.gate in {NoGate, GateSays(None), GateSays(Some(true))}
           then t.hedges[h] == Opening && Placed(t, h, EntryLeg, entryQty, Buy, Sell)
           else t.hedges[h] == Planned && t.intents == s.intents
         case Opening =>
           t.intents == s.intents
           && t.hedges[h] == (if LegFailed(s, h, EntryLeg) then Failed
                              else if BothFilled(s, h, EntryLeg) then Open else Opening)
         case Open =>
           if input.fundingPaymentReceived && exitQty > 0.0
           then t.hedges[h] == Closing && Placed(t, h, ExitLeg, exitQty, Sell, Buy)
           else t.hedges[h] == Open && t.intents == s.intents
         case Closing =>
           t.intents == s.intents
           && t.hedges[h] == (if LegFailed(s, h, ExitLeg) then Failed
                              else if BothFilled(s, h, ExitLeg) then Closed else Closing)
         case Closed => t.hedges[h] == Closed && t.intents == s.intents
         case Failed => t.hedges[h] == Failed && t.intents == s.intents
  {
    assert PairOk(s, h, EntryLeg) && PairOk(s, h, ExitLeg);
    GateOpens(input.gate);
    AnyLeg(s, h, EntryLeg);
    AnyLeg(s, h, ExitLeg);
    hide Inv;
    hide HasFailed;
    hide LegFailed;
    hide GatePasses;
  }

  lemma GateOpens(g: Gate)
    ensures GatePasses(g) <==> g in {NoGate, GateSays(None), GateSays(Some(true))}
  {
    if g.GateSays? && g.flat.Some? {
      assert g.flat.value == true || g.flat.value == false;
    }
  }

  lemma AnyLeg(s: System, h: string, leg: LegType)
    ensures LegFailed(s, h, leg) <==> HasFailed(s, Key(h, Spot, leg)) || HasFailed(s, Key(h, Perp, leg))
  {
    forall c | HasFailed(s, Key(h, c, leg)) ensures HasFailed(s, Key(h, Spot, leg)) || HasFailed(s, Key(h, Perp, leg)) {
      assert c == Spot || c == Perp;
    }
  }

  const ENTRY_INPUT := Input(true, true, Some(1.0), None, NoGate)

  lemma Extend(actions: seq<Action>, a: Action)
    ensures Trace(EMPTY, actions + [a]) == Apply(Trace(EMPTY, actions), a)
  {
    assert (actions + [a])[..|actions|] == actions;
  }

  function SpotEntry(h: string): Key { Key(h, Spot, EntryLeg) }

  function PerpEntry(h: string): Key { Key(h, Perp, EntryLeg) }

  lemma StartOfTrace()
    ensures Trace(EMPTY, []) == EMPTY
  {
  }

  lemma Then(p: seq<Action>, a: Action) returns (q: seq<Action>)
    ensures Trace(EMPTY, q) == Apply(Trace(EMPTY, p), a)
  {
    Extend(p, a);
    q := p + [a];
  }

  /** A hedge whose entry has just been emitted. */
  lemma JustOpening(h: string) returns (p: seq<Action>)
    ensures Trace(EMPTY, p).hedges == map[h := Opening]
    ensures Trace(EMPTY, p).intents
         == map[SpotEntry(h) := Leg(Spot, EntryLeg, 1.0), PerpEntry(h) := Leg(Perp, EntryLeg, 1.0)]
    ensures Trace(EMPTY, p).calls == map[0 := Finished]
  {
    hide Trace;
    p := [];
    StartOfTrace();
    p := Then(p, NewHedge(h));
    p := Then(p, Load(0, h, ENTRY_INPUT));
    p := Then(p, Proceed(0));
  }

  /**
   * Interleaved calls can move a status backwards: two calls both judge the entry filled; one writes OPEN and
   * a later call emits the exit; then the second write turns CLOSING back into OPEN.
   */
  lemma InterleavedCallsRegress(h: string)
    ensures exists actions: seq<Action>, a: Action ::
      var s := Trace(EMPTY, actions);
      && h in s.hedges && s.hedges[h] == Closing
      && h in Apply(s, a).hedges && Apply(s, a).hedges[h] == Open
  {
    hide Trace;
    var p := JustOpening(h);
    var p1 := Then(p, Execute(SpotEntry(h), Filled));
    var p2 := Then(p1, Execute(PerpEntry(h), Filled));
    assert BothFilled(Trace(EMPTY, p2), h, EntryLeg);
    RegressFromFilled(h, p2);
  }

  lemma RegressFromFilled(h: string, p: seq<Action>)
    requires
      var s := Trace(EMPTY, p);
      && s.hedges == map[h := Opening] && BothFilled(s, h, EntryLeg)
      && Key(h, Spot, ExitLeg) !in s.intents && Key(h, Perp, ExitLeg) !in s.intents
      && 1 !in s.calls && 2 !in s.calls && 3 !in s.calls
    ensures exists actions: seq<Action>, a: Action ::
      var s := Trace(EMPTY, actions);
      && h in s.hedges && s.hedges[h] == Closing
      && h in Apply(s, a).hedges && Apply(s, a).hedges[h] == Open
  {
    hide Trace;
    var p1 := Then(p, Load(1, h, ENTRY_INPUT));
    var p2 := Then(p1, Load(2, h, ENTRY_INPUT));
    var p3 := Then(p2, Proceed(1));
    var p4 := Then(p3, Proceed(2));
    RegressFromJudged(h, p4);
  }

  lemma RegressFromJudged(h: string, p: seq<Action>)
    requires
      var s := Trace(EMPTY, p);
      && s.hedges == map[h := Opening]
      && Key(h, Spot, ExitLeg) !in s.intents && Key(h, Perp, ExitLeg) !in s.intents
      && 1 in s.calls && s.calls[1] == Writing(h, EntryLeg, Open)
      && 2 in s.calls && s.calls[2] == Writing(h, EntryLeg, Open)
      && 3 !in s.calls
    ensures exists actions: seq<Action>, a: Action ::
      var s := Trace(EMPTY, actions);
      && h in s.hedges && s.hedges[h] == Closing
      && h in Apply(s, a).hedges && Apply(s, a).hedges[h] == Open
  {
    hide Trace;
    var p1 := Then(p, Proceed(1));
    var p2 := Then(p1, Load(3, h, ENTRY_INPUT));
    var p3 := Then(p2, Proceed(3));
    var s3 := Trace(EMPTY, p3);
    assert s3.hedges[h] == Closing && s3.calls[2] == Writing(h, EntryLeg, Open);
    assert Apply(s3, Proceed(2)).hedges[h] == Open;
  }

  const EXIT_INPUT := Input(true, true, None, Some(1.0), NoGate)

  /**
   * The emit case is reached too: a call judges a failed entry leg, the leg is retried and fills, a second call
   * writes OPEN and a third plans the exit; then the first writes FAILED, and the exit turns it into CLOSING.
   */
  lemma EmittingCallsRegress(h: string)
    ensures exists actions: seq<Action>, a: Action ::
      var s := Trace(EMPTY, actions);
      && h in s.hedges && s.hedges[h] == Failed
      && h in Apply(s, a).hedges && Apply(s, a).hedges[h] == Closing
  {
    hide Trace;
    var p := JustOpening(h);
    var p1 := Then(p, Execute(SpotEntry(h), FailedIntent));
    assert HasFailed(Trace(EMPTY, p1), SpotEntry(h));
    var p2 := Then(p1, Load(1, h, ENTRY_INPUT));
    var p3 := Then(p2, Proceed(1));
    assert Trace(EMPTY, p3).calls[1] == Writing(h, EntryLeg, Failed);
    EmitFromJudged(h, p3);
  }

  lemma EmitFromJudged(h: string, p: seq<Action>)
    requires
      var s := Trace(EMPTY, p);
      && s.hedges == map[h := Opening] && HasPair(s, h, EntryLeg)
      && !IsFilled(s, SpotEntry(h)) && !IsFilled(s, PerpEntry(h))
      && Key(h, Spot, ExitLeg) !in s.intents && Key(h, Perp, ExitLeg) !in s.intents
      && 1 in s.calls && s.calls[1] == Writing(h, EntryLeg, Failed) && 2 !in s.calls && 3 !in s.calls
    ensures exists actions: seq<Action>, a: Action ::
      var s := Trace(EMPTY, actions);
      && h in s.hedges && s.hedges[h] == Failed
      && h in Apply(s, a).hedges && Apply(s, a).hedges[h] == Closing
  {
    hide Trace;
    var p1 := Then(p, Execute(SpotEntry(h), Pending));
    var p2 := Then(p1, Execute(SpotEntry(h), Filled));
    var p3 := Then(p2, Execute(PerpEntry(h), Filled));
    assert BothFilled(Trace(EMPTY, p3), h, EntryLeg);
    var p4 := Then(p3, Load(2, h, ENTRY_INPUT));
    var p5 := Then(p4, Proceed(2));
    assert Trace(EMPTY, p5).calls[2] == Writing(h, EntryLeg, Open);
    EmitFromFilled(h, p5);
  }

  lemma EmitFromFilled(h: string, p: seq<Action>)
    requires
      var s := Trace(EMPTY, p);
      && s.hedges == map[h := Opening]
      && Key(h, Spot, ExitLeg) !in s.intents && Key(h, Perp, ExitLeg) !in s.intents
      && 1 in s.calls && s.calls[1] == Writing(h, EntryLeg, Failed)
      && 2 in s.calls && s.calls[2] == Writing(h, EntryLeg, Open) && 3 !in s.calls
    ensures exists actions: seq<Action>, a: Action ::
      var s := Trace(EMPTY, actions);
      && h in s.hedges && s.hedges[h] == Failed
      && h in Apply(s, a).hedges && Apply(s, a).hedges[h] == Closing
  {
    hide Trace;
    var p1 := Then(p, Proceed(2));
    var p2 := Then(p1, Load(3, h, EXIT_INPUT));
    assert Trace(EMPTY, p2).calls[3] == Emitting(h, ExitLeg, 1.0);
    var p3 := Then(p2, Proceed(1));
    var s3 := Trace(EMPTY, p3);
    assert s3.hedges[h] == Failed && s3.calls[3] == Emitting(h, ExitLeg, 1.0);
    assert Apply(s3, Proceed(3)).hedges[h] == Closing;
  }

  function SpotExit(h: string): Key { Key(h, Spot, ExitLeg) }

  function PerpExit(h: string): Key { Key(h, Perp, ExitLeg) }

  /** A hedge whose entry is complete and whose exit has just been emitted. */
  lemma JustClosing(h: string) returns (p: seq<Action>)
    ensures
      var s := Trace(EMPTY, p);
      && s.hedges == map[h := Closing] && HasPair(s, h, ExitLeg)
      && !IsFilled(s, SpotExit(h)) && !IsFilled(s, PerpExit(h)) && s.calls.Keys == {0, 1, 2}
  {
    hide Trace;
    p := JustOpening(h);
    p := Then(p, Execute(SpotEntry(h), Filled));
    p := Then(p, Execute(PerpEntry(h), Filled));
    var s := Trace(EMPTY, p);
    assert BothFilled(s, h, EntryLeg) && SpotExit(h) !in s.intents && PerpExit(h) !in s.intents;
    p := Opened(h, p);
  }

  lemma Opened(h: string, start: seq<Action>) returns (p: seq<Action>)
    requires
      var s := Trace(EMPTY, start);
      && s.hedges == map[h := Opening] && s.calls.Keys == {0} && BothFilled(s, h, EntryLeg)
      && SpotExit(h) !in s.intents && PerpExit(h) !in s.intents
    ensures
      var s := Trace(EMPTY, p);
      && s.hedges == map[h := Closing] && HasPair(s, h, ExitLeg)
      && !IsFilled(s, SpotExit(h)) && !IsFilled(s, PerpExit(h)) && s.calls.Keys == {0, 1, 2}
  {
    hide Trace;
    p := Then(start, Load(1, h, ENTRY_INPUT));
    p := Then(p, Proceed(1));
    p := Then(p, Proceed(1));
    assert Trace(EMPTY, p).hedges == map[h := Open];
    p := Then(p, Load(2, h, EXIT_INPUT));
    assert Trace(EMPTY, p).calls[2] == Emitting(h, ExitLeg, 1.0);
    p := Then(p, Proceed(2));
  }

  /**
   * A closed hedge does become a failed one: a call judges a failed exit leg, the leg is retried and both fill,
   * a second call writes CLOSED; then the first writes FAILED.
   */
  lemma ClosedBecomesFailed(h: string)
    ensures exists actions: seq<Action>, a: Action ::
      var s := Trace(EMPTY, actions);
      && h in s.hedges && s.hedges[h] == Closed
      && h in Apply(s, a).hedges && Apply(s, a).hedges[h] == Failed
  {
    hide Trace;
    var p := JustClosing(h);
    p := Then(p, Execute(SpotExit(h), FailedIntent));
    assert HasFailed(Trace(EMPTY, p), SpotExit(h));
    p := Then(p, Load(3, h, EXIT_INPUT));
    p := Then(p, Proceed(3));
    assert Trace(EMPTY, p).calls[3] == Writing(h, ExitLeg, Failed);
    ClosedUnderJudged(h, p);
  }

  lemma ClosedUnderJudged(h: string, start: seq<Action>)
    requires
      var s := Trace(EMPTY, start);
      && s.hedges == map[h := Closing] && HasPair(s, h, ExitLeg)
      && !IsFilled(s, SpotExit(h)) && !IsFilled(s, PerpExit(h))
      && 3 in s.calls && s.calls[3] == Writing(h, ExitLeg, Failed) && 4 !in s.calls
    ensures exists actions: seq<Action>, a: Action ::
      var s := Trace(EMPTY, actions);
      && h in s.hedges && s.hedges[h] == Closed
      && h in Apply(s, a).hedges && Apply(s, a).hedges[h] == Failed
  {
    hide Trace;
    var p := Then(start, Execute(SpotExit(h), Pending));
    p := Then(p, Execute(SpotExit(h), Filled));
    p := Then(p, Execute(PerpExit(h), Filled));
    assert BothFilled(Trace(EMPTY, p), h, ExitLeg);
    p := Then(p, Load(4, h, EXIT_INPUT));
    p := Then(p, Proceed(4));
    assert Trace(EMPTY, p).calls[4] == Writing(h, ExitLeg, Closed);
    p := Then(p, Proceed(4));
    var s := Trace(EMPTY, p);
    assert s.hedges[h] == Closed && s.calls[3] == Writing(h, ExitLeg, Failed);
    assert Apply(s, Proceed(3)).hedges[h] == Failed;
  }

  // ----- the store -----

  function HowMany(first: bool, second: bool): nat {
    (if first then 1 else 0) + (if second then 1 else 0)
  }

  /** The rows of one run, and a call that runs to its end before anything else happens. */
  class HedgeStore {
    var hedges: map<string, Status>
    var intents: map<Key, Intent>

    function View(): System
      reads this
    {
      System(hedges, intents, map[])
    }

    /** Inserts both legs and moves the status, unless a leg exists already: then nothing changes. */
    method EmitHedgeIntents(h: string, leg: LegType, qty: real) returns (ok: bool)
      requires h in hedges
      modifies this
      ensures View() == Emit(old(View()), h, leg, qty)
      ensures ok <==> Key(h, Spot, leg) !in old(intents) && Key(h, Perp, leg) !in old(intents)
    {
      var spot, perp := Key(h, Spot, leg), Key(h, Perp, leg);
      if spot in intents || perp in intents { return false; }
      var isEntry := leg == EntryLeg;
      intents := intents[spot := Intent(if isEntry then Buy else Sell, qty, Pending)];
      intents := intents[perp := Intent(if isEntry then Sell else Buy, qty, Pending)];
      hedges := hedges[h := if isEntry then Opening else Closing];
      return true;
    }

    /** Counts of the hedge's legs of one type: both filled, any failed, how many there are. */
    method SummariseLegStates(h: string, leg: LegType) returns (bothFilled: bool, anyTerminalFailure: bool, count: nat)
      ensures bothFilled <==> BothFilled(View(), h, leg)
      ensures anyTerminalFailure <==> HasFailed(View(), Key(h, Spot, leg)) || HasFailed(View(), Key(h, Perp, leg))
      ensures count == 2 <==> HasPair(View(), h, leg)
    {
      var spot, perp := Key(h, Spot, leg), Key(h, Perp, leg);
      count := HowMany(spot in intents, perp in intents);
      var filled := HowMany(IsFilled(View(), spot), IsFilled(View(), perp));
      var failed := HowMany(HasFailed(View(), spot), HasFailed(View(), perp));
      bothFilled := count == 2 && filled == 2;
      anyTerminalFailure := failed > 0;
    }

    /** `advanceHedge`, uninterrupted: the atomic call of the protocol. */
    method AdvanceHedge(h: string, input: Input)
      modifies this
      ensures
        var s := Advance(old(View()), 0, h, input);
        hedges == s.hedges && intents == s.intents
    {
      if h !in hedges { return; }
      match hedges[h] {
        case Planned =>
          if !input.fundingWindowOpen { return; }
          var qty := input.entryQty.Else(0.0);
          if qty <= 0.0 { return; }
          if input.gate.GateThrows? { return; }
          if input.gate.GateSays? && input.gate.flat == Some(false) { return; }
          var ok := EmitHedgeIntents(h, EntryLeg, qty);
        case Opening =>
          var bothFilled, anyTerminalFailure, count := SummariseLegStates(h, EntryLeg);
          if anyTerminalFailure {
            hedges := hedges[h := Failed];
          } else if bothFilled {
            hedges := hedges[h := Open];
          }
        case Open =>
          if !input.fundingPaymentReceived { return; }
          var exitQty := input.exitQty.Else(input.entryQty.Else(0.0));
          if exitQty <= 0.0 { return; }
          var ok := EmitHedgeIntents(h, ExitLeg, exitQty);
        case Closing =>
          var bothFilled, anyTerminalFailure, count := SummariseLegStates(h, ExitLeg);
          if anyTerminalFailure {
            hedges := hedges[h := Failed];
          } else if bothFilled {
            hedges := hedges[h := Closed];
          }
        case _ =>
      }
    }
  }
}
