/** Delivery of destiny updates to one client: a lane that holds updates back until the
    full state has been sent, a batched lane, an immediate lane, and dogma events.

    The history records what was accepted, sent and dropped; nothing reads it back. */
module DestinyLanes {

  /** What the code inspects of the first item of an update. */
  datatype Head = Text | Integer | LongInteger | Other

  datatype Update = Update(items: seq<Head>, content: int)

  /** An update inside a packet, as it is or wrapped in a packaged action. */
  datatype Action = Bare(update: Update) | Packaged(update: Update)

  datatype Packet = DestinyUpdate(actions: seq<Action>, waitForBubble: bool) | MultiEvent(events: seq<Update>)

  datatype Lane = Deferred | Batched | Immediate | Events

  datatype Fact =
    | Accepted(lane: Lane, update: Update)
    | Sent(lane: Lane, packet: Packet)
    | Dropped(updates: seq<Action>, events: seq<Update>)

  /** What happened, newest last. */
  datatype History = Start | Then(past: History, fact: Fact)

  datatype Lanes = Lanes(setStateSent: bool, bubbleWait: bool, packaged: bool,
                         pending: seq<Update>, updates: seq<Action>, events: seq<Update>,
                         history: History)

  const FRESH := Lanes(false, false, false, [], [], [], Start)

  // ---------------------------------------------------------------- operations

  predicate Scalar(u: Update) {
    u.items != [] && u.items[0] != Other
  }

  function Wrapped(u: Update): Action
    requires Scalar(u)
  {
    if u.items[0] == Text then Bare(u) else Packaged(u)
  }

  function QueueUpdate(l: Lanes, docked: bool, u: Update, doPackage: bool, isSetState: bool): Lanes {
    if docked || u.items == [] then
      l
    else if !isSetState && !l.setStateSent then
      l.(pending := l.pending + [u], history := Then(l.history, Accepted(Deferred, u)))
    else if doPackage && isSetState then
      l.(history := Then(Then(l.history, Accepted(Immediate, u)), Sent(Immediate, DestinyUpdate([Bare(u)], l.bubbleWait))))
    else if !Scalar(u) then
      l
    else
      l.(updates := l.updates + [Wrapped(u)], packaged := true, history := Then(l.history, Accepted(Batched, u)))
  }

  function QueueEvent(l: Lanes, u: Update): Lanes {
    if u.items == [] || u.items[0] != Text then l
    else l.(events := l.events + [u], history := Then(l.history, Accepted(Events, u)))
  }

  function SentBatches(l: Lanes): History {
    var first := if l.updates == [] then l.history
                 else Then(l.history, Sent(Batched, DestinyUpdate(l.updates, l.bubbleWait)));
    if l.events == [] then first else Then(first, Sent(Events, MultiEvent(l.events)))
  }

  function SendQueuedUpdates(l: Lanes, docked: bool): Lanes {
    if docked then
      l.(updates := [], events := [], history := Then(l.history, Dropped(l.updates, l.events)))
    else
      l.(updates := [], events := [], packaged := false, history := SentBatches(l))
  }

  function FlushQueue(l: Lanes, docked: bool): Lanes {
    if l.updates != [] || l.events != [] then SendQueuedUpdates(l, docked) else l
  }

  /** The held-back updates that a flush puts into its packet; the others are skipped. */
  function Sendable(us: seq<Update>): seq<Update> {
    if us == [] then []
    else
      var front := Sendable(us[..|us| - 1]);
      if Scalar(us[|us| - 1]) then front + [us[|us| - 1]] else front
  }

  function BareAll(us: seq<Update>): (r: seq<Action>)
    ensures |r| == |us|
    ensures forall i :: 0 <= i < |us| ==> r[i] == Bare(us[i])
  {
    if us == [] then [] else BareAll(us[..|us| - 1]) + [Bare(us[|us| - 1])]
  }

  /** The flush of the held-back lane does not look at where the client is. */
  function FlushPending(l: Lanes): Lanes {
    if l.pending == [] then l
    else l.(pending := [],
            history := Then(l.history, Sent(Deferred, DestinyUpdate(BareAll(Sendable(l.pending)), l.bubbleWait))))
  }

  function SetStateSent(l: Lanes, sent: bool): Lanes {
    var m := l.(setStateSent := sent);
    if sent then FlushPending(m) else m
  }

  // ---------------------------------------------------------------------- runs

  datatype Op =
    | Offer(docked: bool, update: Update, doPackage: bool, isSetState: bool)
    | OfferEvent(update: Update)
    | Flush(docked: bool)
    | StateSent(sent: bool)
    | Wait(bubble: bool)
    | Unsent // the flag is reset directly, without a flush

  function Step(l: Lanes, op: Op): Lanes {
    match op
    case Offer(docked, u, doPackage, isSetState) => QueueUpdate(l, docked, u, doPackage, isSetState)
    case OfferEvent(u) => QueueEvent(l, u)
    case Flush(docked) => FlushQueue(l, docked)
    case StateSent(sent) => SetStateSent(l, sent)
    case Wait(bubble) => l.(bubbleWait := bubble)
    case Unsent => l.(setStateSent := false)
  }

  function Run(l: Lanes, ops: seq<Op>): Lanes {
    if ops == [] then l else Step(Run(l, ops[..|ops| - 1]), ops[|ops| - 1])
  }

  // ---------------------------------------------------------------- accounting

  function UpdatesOf(actions: seq<Action>): (r: seq<Update>)
    ensures |r| == |actions|
    ensures forall i :: 0 <= i < |actions| ==> r[i] == actions[i].update
  {
    if actions == [] then [] else UpdatesOf(actions[..|actions| - 1]) + [actions[|actions| - 1].update]
  }

  function Carried(p: Packet): seq<Update> {
    match p
    case DestinyUpdate(actions, _) => UpdatesOf(actions)
    case MultiEvent(events) => events
  }

  /** The updates a lane has let go of: put on the wire or dropped. */
  function Out(history: History, lane: Lane): seq<Update> {
    match history
    case Start => []
    case Then(past, Accepted(_, _)) => Out(past, lane)
    case Then(past, Sent(through, p)) => if through == lane then Out(past, lane) + Carried(p) else Out(past, lane)
    case Then(past, Dropped(updates, events)) =>
      if lane == Batched then Out(past, lane) + UpdatesOf(updates)
      else if lane == Events then Out(past, lane) + events
      else Out(past, lane)
  }

  /** The updates a lane has taken in for delivery. The held-back lane takes in every
      update but will skip those without a string, int or long head. */
  function In(history: History, lane: Lane): seq<Update> {
    match history
    case Start => []
    case Then(past, Accepted(into, u)) =>
      if into == lane && (lane == Deferred ==> Scalar(u)) then In(past, lane) + [u] else In(past, lane)
    case Then(past, _) => In(past, lane)
  }

  /** The updates a lane still holds for delivery. */
  function Holding(l: Lanes, lane: Lane): seq<Update> {
    match lane
    case Deferred => Sendable(l.pending)
    case Batched => UpdatesOf(l.updates)
    case Immediate => []
    case Events => l.events
  }

  ghost predicate Balanced(l: Lanes, lane: Lane) {
    In(l.history, lane) == Out(l.history, lane) + Holding(l, lane)
  }

  /** Every accepted update is in exactly one place, each lane in the order of arrival:
      what a lane took in is what it let go of followed by what it still holds. */
  ghost predicate Accounted(l: Lanes) {
    && (l.setStateSent ==> l.pending == [])
    && forall lane: Lane :: Balanced(l, lane)
  }

  lemma SendableAppend(us: seq<Update>, u: Update)
    ensures Sendable(us + [u]) == Sendable(us) + if Scalar(u) then [u] else []
  {
    assert (us + [u])[..|us|] == us;
  }

  lemma Associates(a: seq<Update>, b: seq<Update>, c: seq<Update>)
    ensures (a + b) + c == a + (b + c)
    ensures c == [] ==> a + c == a
  {
  }

  lemma DeferBalanced(l: Lanes, u: Update, lane: Lane)
    requires Balanced(l, lane)
    ensures Balanced(l.(pending := l.pending + [u], history := Then(l.history, Accepted(Deferred, u))), lane)
  {
    SendableAppend(l.pending, u);
    Associates(Out(l.history, lane), Sendable(l.pending), [u]);
    Associates(Out(l.history, lane), Sendable(l.pending), []);
    Associates(Sendable(l.pending), [], []);
  }

  lemma BatchBalanced(l: Lanes, u: Update, lane: Lane)
    requires Balanced(l, lane) && Scalar(u)
    ensures Balanced(l.(updates := l.updates + [Wrapped(u)], packaged := true,
                        history := Then(l.history, Accepted(Batched, u))), lane)
  {
    UpdatesOfAppend(l.updates, Wrapped(u));
    Associates(Out(l.history, lane), UpdatesOf(l.updates), [u]);
  }

  lemma UpdatesOfAppend(actions: seq<Action>, a: Action)
    ensures UpdatesOf(actions + [a]) == UpdatesOf(actions) + [a.update]
  {
    assert (actions + [a])[..|actions|] == actions;
  }

  lemma ImmediateBalanced(l: Lanes, u: Update, p: Packet, lane: Lane)
    requires Balanced(l, lane) && Carried(p) == [u]
    ensures Balanced(l.(history := Then(Then(l.history, Accepted(Immediate, u)), Sent(Immediate, p))), lane)
  {
    var taken := Then(l.history, Accepted(Immediate, u));
    var sent := Then(taken, Sent(Immediate, p));
    if lane == Immediate {
      assert In(sent, lane) == In(taken, lane) == In(l.history, lane) + [u];
      assert Out(sent, lane) == Out(taken, lane) + [u] == Out(l.history, lane) + [u];
      Associates(Out(l.history, lane), [], []);
      Associates(Out(l.history, lane) + [u], [], []);
    } else {
      assert In(sent, lane) == In(taken, lane) == In(l.history, lane);
      assert Out(sent, lane) == Out(taken, lane) == Out(l.history, lane);
    }
  }

  lemma QueueUpdateBalanced(l: Lanes, docked: bool, u: Update, doPackage: bool, isSetState: bool, lane: Lane)
    requires Balanced(l, lane)
    ensures Balanced(QueueUpdate(l, docked, u, doPackage, isSetState), lane)
  {
    DeferBalanced(l, u, lane);
    var p := DestinyUpdate([Bare(u)], l.bubbleWait);
    assert Carried(p) == [u];
    ImmediateBalanced(l, u, p, lane);
    if Scalar(u) {
      BatchBalanced(l, u, lane);
    }
  }

  lemma FlushQueueBalanced(l: Lanes, docked: bool, lane: Lane)
    requires Balanced(l, lane)
    ensures Balanced(FlushQueue(l, docked), lane)
  {
    Associates(Out(l.history, lane), Holding(l, lane), []);
  }

  lemma SetStateSentBalanced(l: Lanes, sent: bool, lane: Lane)
    requires Balanced(l, lane)
    ensures Balanced(SetStateSent(l, sent), lane)
  {
    if sent && l.pending != [] && lane == Deferred {
      assert UpdatesOf(BareAll(Sendable(l.pending))) == Sendable(l.pending);
      Associates(Out(l.history, lane), Sendable(l.pending), []);
    }
  }

  lemma StepBalanced(l: Lanes, op: Op, lane: Lane)
    requires Balanced(l, lane)
    ensures Balanced(Step(l, op), lane)
  {
    match op
    case Offer(docked, u, doPackage, isSetState) => QueueUpdateBalanced(l, docked, u, doPackage, isSetState, lane);
    case OfferEvent(u) => Associates(Out(l.history, lane), Holding(l, lane), [u]);
    case Flush(docked) => FlushQueueBalanced(l, docked, lane);
    case StateSent(sent) => SetStateSentBalanced(l, sent, lane);
    case Wait(bubble) =>
    case Unsent =>
  }

  lemma StepAccounted(l: Lanes, op: Op)
    requires Accounted(l)
    ensures Accounted(Step(l, op))
  {
    forall lane: Lane
      ensures Balanced(Step(l, op), lane)
    {
      StepBalanced(l, op, lane);
    }
  }

  /** Conservation and order, over every run. */
  lemma {:induction false} Conservation(ops: seq<Op>)
    ensures Accounted(Run(FRESH, ops))
  {
    if ops != [] {
      Conservation(ops[..|ops| - 1]);
      StepAccounted(Run(FRESH, ops[..|ops| - 1]), ops[|ops| - 1]);
    }
  }

  // ------------------------------------------------------- what is offered is taken

  /** Whether the state counts as sent after an operation. */
  function SentAfter(sent: bool, op: Op): bool {
    match op
    case StateSent(b) => b
    case Unsent => false
    case _ => sent
  }

  /** The lane an offer in space belongs to: the full state, packaged, goes out alone; other
      updates are held back until the state is sent, and batched from then on. A full state
      not packaged is batched too. Updates without a string, int or long head go nowhere,
      unless they are the full state. */
  function Bound(sent: bool, op: Op, lane: Lane): seq<Update> {
    match op
    case Offer(false, u, doPackage, isSetState) =>
      var readable := u.items != [] && u.items[0] in {Text, Integer, LongInteger};
      if lane == Immediate && u.items != [] && doPackage && isSetState then [u]
      else if lane == Deferred && readable && !sent && !isSetState then [u]
      else if lane == Batched && readable && (if isSetState then !doPackage else sent) then [u]
      else []
    case OfferEvent(u) => if lane == Events && u.items != [] && u.items[0] == Text then [u] else []
    case _ => []
  }

  function Offered(sent: bool, ops: seq<Op>, lane: Lane): seq<Update> {
    if ops == [] then []
    else
      var front := ops[..|ops| - 1];
      Offered(sent, front, lane) + Bound(SentBy(sent, front), ops[|ops| - 1], lane)
  }

  function SentBy(sent: bool, ops: seq<Op>): bool {
    if ops == [] then sent else SentAfter(SentBy(sent, ops[..|ops| - 1]), ops[|ops| - 1])
  }

  lemma OfferTakes(l: Lanes, op: Op, lane: Lane)
    requires op.Offer?
    ensures In(Step(l, op).history, lane) == In(l.history, lane) + Bound(l.setStateSent, op, lane)
  {
    var u := op.update;
    if !op.docked && u.items != [] {
      assert Scalar(u) <==> u.items[0] in {Text, Integer, LongInteger};
      if op.doPackage && op.isSetState {
        var taken := Then(l.history, Accepted(Immediate, u));
        assert In(Then(taken, Sent(Immediate, DestinyUpdate([Bare(u)], l.bubbleWait))), lane) == In(taken, lane);
      }
    }
  }

  lemma FlushTakes(l: Lanes, docked: bool, sent: bool, lane: Lane)
    ensures In(FlushQueue(l, docked).history, lane) == In(SetStateSent(l, sent).history, lane) == In(l.history, lane)
  {
  }

  lemma StepTakes(l: Lanes, op: Op, lane: Lane)
    ensures Step(l, op).setStateSent == SentAfter(l.setStateSent, op)
    ensures In(Step(l, op).history, lane) == In(l.history, lane) + Bound(l.setStateSent, op, lane)
  {
    hide Sendable, BareAll, Wrapped;
    match op
    case Offer(_, _, _, _) => OfferTakes(l, op, lane);
    case Flush(docked) => FlushTakes(l, docked, true, lane);
    case StateSent(sent) => FlushTakes(l, true, sent, lane);
    case _ =>
  }

  /** Nothing offered is lost on the way in: over every run each lane takes in, in order,
      exactly the offers bound for it. */
  lemma {:induction false} Intake(l: Lanes, ops: seq<Op>, lane: Lane)
    ensures Run(l, ops).setStateSent == SentBy(l.setStateSent, ops)
    ensures In(Run(l, ops).history, lane) == In(l.history, lane) + Offered(l.setStateSent, ops, lane)
  {
    hide Step, In, Bound, SentAfter;
    if ops != [] {
      var front, op := ops[..|ops| - 1], ops[|ops| - 1];
      Intake(l, front, lane);
      StepTakes(Run(l, front), op, lane);
    }
  }

  /** What a lane has put on the wire. */
  function Wire(history: History, lane: Lane): seq<Update> {
    match history
    case Start => []
    case Then(past, Sent(through, p)) => if through == lane then Wire(past, lane) + Carried(p) else Wire(past, lane)
    case Then(past, _) => Wire(past, lane)
  }

  predicate NothingDropped(history: History) {
    history.Then? ==> !history.fact.Dropped? && NothingDropped(history.past)
  }

  lemma {:induction false} WireIsOut(history: History, lane: Lane)
    requires NothingDropped(history)
    ensures Out(history, lane) == Wire(history, lane)
  {
    if history.Then? {
      WireIsOut(history.past, lane);
    }
  }

  lemma {:induction false} NoFlushDocked(ops: seq<Op>)
    requires Flush(true) !in ops
    ensures NothingDropped(Run(FRESH, ops).history)
  {
    if ops != [] {
      NoFlushDocked(ops[..|ops| - 1]);
      assert ops[|ops| - 1] in ops;
    }
  }

  /** From end to end: over every run whose flushes are made in space, a last flush and a
      last declaration of the state leave on the wire, lane by lane and in order, exactly
      what was offered, and nothing held. */
  lemma Delivered(ops: seq<Op>, lane: Lane)
    requires Flush(true) !in ops
    ensures var all := ops + [StateSent(true)] + [Flush(false)];
            Wire(Run(FRESH, all).history, lane) == Offered(false, ops, lane)
  {
    hide Step, Wire, Out, In, Bound, Holding, Offered;
    var all := ops + [StateSent(true)] + [Flush(false)];
    Conservation(all);
    assert Balanced(Run(FRESH, all), lane);
    NoFlushDocked(all);
    WireIsOut(Run(FRESH, all).history, lane);
    Intake(FRESH, all, lane);
    FinishOffersNothing(FRESH.setStateSent, ops, lane);
    RunFinish(FRESH, ops);
    NothingHeld(Run(FRESH, ops), lane);
    FreshTookNothing(lane);
    Associates(Out(Run(FRESH, all).history, lane), [], []);
    Associates([], Offered(false, ops, lane), []);
  }

  lemma FreshTookNothing(lane: Lane)
    ensures In(FRESH.history, lane) == []
  {
  }

  lemma FinishOffersNothing(sent: bool, ops: seq<Op>, lane: Lane)
    ensures Offered(sent, ops + [StateSent(true)] + [Flush(false)], lane) == Offered(sent, ops, lane)
  {
    var told := ops + [StateSent(true)];
    assert told[..|ops|] == ops && (told + [Flush(false)])[..|told|] == told;
    Associates(Offered(sent, ops, lane), [], []);
  }

  lemma RunFinish(l: Lanes, ops: seq<Op>)
    ensures Run(l, ops + [StateSent(true)] + [Flush(false)]) == FlushQueue(SetStateSent(Run(l, ops), true), false)
  {
    hide FlushQueue, SetStateSent;
    var told := ops + [StateSent(true)];
    assert told[..|ops|] == ops && (told + [Flush(false)])[..|told|] == told;
    assert Run(l, told) == Step(Run(l, ops), StateSent(true));
    assert Run(l, told + [Flush(false)]) == Step(Run(l, told), Flush(false));
  }

  lemma NothingHeld(l: Lanes, lane: Lane)
    ensures Holding(FlushQueue(SetStateSent(l, true), false), lane) == []
  {
  }

  /** A flush in space sends the updates first and the events behind, each in one packet,
      the updates under the flag of the moment; and empties both queues. */
  lemma FlushedInSpace(l: Lanes)
    ensures var m := FlushQueue(l, false);
            && m.updates == [] && m.events == [] && m.pending == l.pending
            && m.setStateSent == l.setStateSent && m.bubbleWait == l.bubbleWait
    ensures l.updates != [] && l.events != [] ==>
              FlushQueue(l, false).history
              == Then(Then(l.history, Sent(Batched, DestinyUpdate(l.updates, l.bubbleWait))), Sent(Events, MultiEvent(l.events)))
    ensures l.updates != [] && l.events == [] ==>
              FlushQueue(l, false).history == Then(l.history, Sent(Batched, DestinyUpdate(l.updates, l.bubbleWait)))
    ensures l.updates == [] && l.events != [] ==>
              FlushQueue(l, false).history == Then(l.history, Sent(Events, MultiEvent(l.events)))
    ensures l.updates == [] && l.events == [] ==> FlushQueue(l, false) == l
  {
  }

  /** At a station both queues are dropped. */
  lemma FlushedAtStation(l: Lanes)
    ensures var m := FlushQueue(l, true);
            && m.updates == [] && m.events == [] && m.pending == l.pending
            && forall lane: Lane :: Wire(m.history, lane) == Wire(l.history, lane)
  {
  }

  /** Batched updates go wrapped by their heads, however they were offered. */
  lemma WrappedByHead(l: Lanes, u: Update, doPackage: bool)
    requires l.setStateSent && u.items != []
    ensures var m := QueueUpdate(l, false, u, doPackage, false);
            && (u.items[0] == Text ==> m.updates == l.updates + [Bare(u)])
            && (u.items[0] in {Integer, LongInteger} ==> m.updates == l.updates + [Packaged(u)])
            && (u.items[0] == Other ==> m == l)
  {
  }

  // ------------------------------------------------------- held back, then sent

  /** The updates of a run that arrive in space, not empty, and are not the full state. */
  function Arrivals(ops: seq<Op>): seq<Update> {
    if ops == [] then []
    else
      var front := Arrivals(ops[..|ops| - 1]);
      match ops[|ops| - 1]
      case Offer(docked, u, _, isSetState) =>
        if !docked && u.items != [] && !isSetState then front + [u] else front
      case _ => front
  }

  /** Until the full state is declared sent, nothing of the held-back lane reaches the
      wire and nothing arriving reaches another lane: the lane just grows. */
  lemma {:induction false} HeldBack(l: Lanes, ops: seq<Op>)
    requires !l.setStateSent && StateSent(true) !in ops
    ensures var m := Run(l, ops);
            && !m.setStateSent
            && m.pending == l.pending + Arrivals(ops)
            && Out(m.history, Deferred) == Out(l.history, Deferred)
  {
    if ops != [] {
      var front, op := ops[..|ops| - 1], ops[|ops| - 1];
      HeldBack(l, front);
      NothingDeferredSent(Run(l, front), op);
      HeldBackStep(Run(l, front), op);
    }
  }

  lemma HeldBackStep(l: Lanes, op: Op)
    requires !l.setStateSent && op != StateSent(true)
    ensures !Step(l, op).setStateSent
    ensures Step(l, op).pending == if op.Offer? && !op.docked && op.update.items != [] && !op.isSetState
                                   then l.pending + [op.update] else l.pending
  {
  }

  lemma NothingDeferredSent(l: Lanes, op: Op)
    requires op != StateSent(true)
    ensures Out(Step(l, op).history, Deferred) == Out(l.history, Deferred)
  {
  }

  /** Declaring the full state sent puts every held-back update with a string, int or
      long head on the wire, in one packet, in the order of arrival. */
  lemma ReleasedAtOnce(ops: seq<Op>)
    ensures var l := Run(FRESH, ops); var m := SetStateSent(l, true);
            && m.pending == []
            && Out(m.history, Deferred) == In(l.history, Deferred)
            && m.history == if l.pending == [] then l.history
                            else Then(l.history, Sent(Deferred, DestinyUpdate(BareAll(Sendable(l.pending)), l.bubbleWait)))
  {
    var l := Run(FRESH, ops);
    Conservation(ops);
    SetStateSentBalanced(l, true, Deferred);
    Associates(Out(SetStateSent(l, true).history, Deferred), [], []);
  }

  /** Order holds within a lane only: a younger held-back update can be sent before an
      older batched one. */
  lemma LanesOvertake(older: Update, younger: Update)
    requires Scalar(older) && Scalar(younger)
    ensures var l := Step(Step(SetStateSent(FRESH, true), Offer(false, older, false, false)), Unsent);
            var m := Step(l, Offer(false, younger, false, false));
            FlushQueue(SetStateSent(m, true), false).history ==
            Then(Then(Then(Then(Start,
              Accepted(Batched, older)),
              Accepted(Deferred, younger)),
              Sent(Deferred, DestinyUpdate([Bare(younger)], false))),
              Sent(Batched, DestinyUpdate([Wrapped(older)], false)))
  {
    SendableAppend([], younger);
    assert [] + [younger] == [younger];
    assert BareAll([younger]) == [Bare(younger)];
    assert [] + [Wrapped(older)] == [Wrapped(older)];
  }

  // ------------------------------------------------------------ what is on the wire

  /** No lane but the immediate one carries a head the client cannot read, and the
      batched lane carries integer heads wrapped. */
  ghost predicate Readable(f: Fact) {
    f.Sent? && f.packet.DestinyUpdate? ==>
      && (f.lane == Deferred ==> forall a :: a in f.packet.actions ==> a.Bare? && Scalar(a.update))
      && (f.lane == Batched ==> forall a :: a in f.packet.actions ==> Scalar(a.update) && a == Wrapped(a.update))
  }

  ghost predicate AllReadable(l: Lanes) {
    && (forall a :: a in l.updates ==> Scalar(a.update) && a == Wrapped(a.update))
    && HistoryReadable(l.history)
  }

  ghost predicate HistoryReadable(history: History) {
    history.Then? ==> Readable(history.fact) && HistoryReadable(history.past)
  }

  lemma {:induction false} SendableScalar(us: seq<Update>)
    ensures forall u :: u in Sendable(us) <==> u in us && Scalar(u)
  {
    if us != [] {
      SendableScalar(us[..|us| - 1]);
      assert us == us[..|us| - 1] + [us[|us| - 1]];
    }
  }

  lemma StepReadable(l: Lanes, op: Op)
    requires AllReadable(l)
    ensures AllReadable(Step(l, op))
  {
    if op.StateSent? {
      SendableScalar(l.pending);
      var sent := BareAll(Sendable(l.pending));
      forall a | a in sent
        ensures a.Bare? && Scalar(a.update)
      {
        var i :| 0 <= i < |sent| && sent[i] == a;
        assert Sendable(l.pending)[i] in Sendable(l.pending);
      }
    }
  }

  lemma {:induction false} WireReadable(ops: seq<Op>)
    ensures AllReadable(Run(FRESH, ops))
  {
    if ops != [] {
      WireReadable(ops[..|ops| - 1]);
      StepReadable(Run(FRESH, ops[..|ops| - 1]), ops[|ops| - 1]);
    }
  }

  /** An integer head leaves the held-back lane unwrapped, and the batched lane wrapped. */
  lemma IntegerHeadBare(u: Update)
    requires u.items != [] && u.items[0] == Integer
    ensures SetStateSent(Step(FRESH, Offer(false, u, false, false)), true).history
            == Then(Then(Start, Accepted(Deferred, u)), Sent(Deferred, DestinyUpdate([Bare(u)], false)))
    ensures FlushQueue(Step(SetStateSent(FRESH, true), Offer(false, u, false, false)), false).history
            == Then(Then(Start, Accepted(Batched, u)), Sent(Batched, DestinyUpdate([Packaged(u)], false)))
  {
    SendableAppend([], u);
    assert [] + [u] == [u];
    assert BareAll([u]) == [Bare(u)];
    assert [] + [Packaged(u)] == [Packaged(u)];
  }

  // ---------------------------------------------------------------- while docked

  function SentCount(history: History): nat {
    match history
    case Start => 0
    case Then(past, fact) => SentCount(past) + if fact.Sent? then 1 else 0
  }

  predicate AtStation(op: Op) {
    match op
    case Offer(docked, _, _, _) => docked
    case Flush(docked) => docked
    case _ => true
  }

  /** A docked client has no ballpark, so nothing may be sent to it. That holds for every
      operation but one: declaring the state sent while updates are held back. */
  lemma DockedSendsNothing(l: Lanes, op: Op)
    requires AtStation(op)
    ensures SentCount(Step(l, op).history) == SentCount(l.history) <==> !(op == StateSent(true) && l.pending != [])
  {
  }
}
