/** Runs of the session protocol, and the client replica that applies its packets. */
module SessionReplica {
  import opened Session

  datatype Op = SetVar(k: Key, v: Val) | SendInitial | SendChange

  /** The server's store and everything it has put on the wire. */
  datatype Link = Link(store: Store, sent: seq<Packet>)

  function SendInitialStatus(l: Link): Link {
    Link(AfterInitial(l.store), l.sent + [InitialState(InitialValues(l.store))])
  }

  /** Nothing is sent without the dirty bit, nor when no flagged key is persisted. */
  function SendChanges(l: Link): Link {
    var changes := Changes(l.store);
    Link(AfterChanges(l.store), if changes == map[] then l.sent else l.sent + [SessionChange(changes)])
  }

  function SetIn(h: Hash, l: Link, k: Key, v: Val): Link {
    l.(store := Set(h, l.store, k, v))
  }

  function Step(h: Hash, l: Link, op: Op): Link {
    match op
    case SetVar(k, v) => SetIn(h, l, k, v)
    case SendInitial => SendInitialStatus(l)
    case SendChange => SendChanges(l)
  }

  function Run(h: Hash, l: Link, ops: seq<Op>): Link {
    if ops == [] then l else Step(h, Run(h, l, ops[..|ops| - 1]), ops[|ops| - 1])
  }

  // ------------------------------------------------------------- the client side

  function Apply(held: map<Key, Val>, p: Packet): map<Key, Val> {
    match p
    case InitialState(values) => values
    case SessionChange(changes) => held + map k | k in changes :: changes[k].cur
  }

  /** What a client holds that applied every packet in order. */
  function Replica(sent: seq<Packet>): map<Key, Val> {
    if sent == [] then map[] else Apply(Replica(sent[..|sent| - 1]), sent[|sent| - 1])
  }

  /** A key the client was never told about counts as None. */
  function Held(sent: seq<Packet>, k: Key): Val {
    var held := Replica(sent);
    if k in held then held[k] else None
  }

  lemma ReplicaAppend(sent: seq<Packet>, p: Packet)
    ensures Replica(sent + [p]) == Apply(Replica(sent), p)
  {
    assert (sent + [p])[..|sent|] == sent;
  }

  lemma {:induction false} RunAppend(h: Hash, l: Link, first: seq<Op>, second: seq<Op>)
    ensures Run(h, l, first + second) == Run(h, Run(h, l, first), second)
  {
    if second == [] {
      assert first + second == first;
    } else {
      var front, last := second[..|second| - 1], second[|second| - 1];
      assert first + second == (first + front) + [last];
      assert (first + second)[..|first + second| - 1] == first + front;
      RunAppend(h, l, first, front);
    }
  }

  // ----------------------------------------------------------------- bookkeeping

  /** The dirty bit is set exactly when some entry is flagged, and a flagged entry
      holds two values that hash differently. */
  ghost predicate WellFlagged(h: Hash, s: Store) {
    && (s.dirty <==> exists k :: Flagged(s, k))
    && forall k :: Flagged(s, k) ==> h(Lookup(s, k).last) != h(Lookup(s, k).cur)
  }

  lemma WellFlaggedSet(h: Hash, s: Store, k: Key, v: Val)
    requires WellFlagged(h, s)
    ensures WellFlagged(h, Set(h, s, k, v))
  {
    var t := Set(h, s, k, v);
    forall j
      ensures Lookup(t, j) == if j == k && h(v) != h(Current(s, k)) then Entry(Current(s, k), v, true) else Lookup(s, j)
    {
    }
    if h(v) != h(Current(s, k)) {
      assert Flagged(t, k);
    } else if s.dirty {
      var j :| Flagged(s, j);
      assert Flagged(t, j);
    }
    forall j | Flagged(t, j)
      ensures h(Lookup(t, j).last) != h(Lookup(t, j).cur)
      ensures t.dirty
    {
      assert Flagged(s, j) || (j == k && h(v) != h(Current(s, k)));
    }
  }

  lemma WellFlaggedSettled(h: Hash, s: Store)
    ensures WellFlagged(h, AfterInitial(s))
    ensures WellFlagged(h, s) ==> WellFlagged(h, AfterChanges(s))
  {
    assert forall k :: !Flagged(AfterInitial(s), k);
  }

  /** The bookkeeping holds after every run, and at every point of it a flush tells the
      client exactly the flagged persisted keys, and a second flush tells it nothing. */
  lemma {:induction false} Bookkeeping(h: Hash, l: Link, ops: seq<Op>)
    requires WellFlagged(h, l.store)
    ensures var s := Run(h, l, ops).store;
            && WellFlagged(h, s)
            && (forall k :: k in Changes(s) <==> Flagged(s, k) && k != ClientID && k != SessionID && k != Sid)
            && Changes(AfterChanges(s)) == map[]
    ensures var once := SendChanges(Run(h, l, ops)); SendChanges(once) == once
  {
    if ops != [] {
      var before := Run(h, l, ops[..|ops| - 1]);
      Bookkeeping(h, l, ops[..|ops| - 1]);
      match ops[|ops| - 1]
      case SetVar(k, v) => WellFlaggedSet(h, before.store, k, v);
      case SendInitial => WellFlaggedSettled(h, before.store);
      case SendChange => WellFlaggedSettled(h, before.store);
    }
    ChangesAreFlagged(h, Run(h, l, ops).store);
  }

  lemma ChangesAreFlagged(h: Hash, s: Store)
    requires WellFlagged(h, s)
    ensures forall k :: k in Changes(s) <==> Persisted(k) && Flagged(s, k)
  {
    forall k | Flagged(s, k)
      ensures k in s.entries && s.dirty
    {
    }
  }

  lemma DefaultsWellFlagged(h: Hash)
    ensures WellFlagged(h, DEFAULTS)
  {
  }

  // ----------------------------------------------------------------- replication

  /** The client holds the server's value of every persisted key not flagged. */
  ghost predicate InSync(l: Link) {
    forall k {:trigger Held(l.sent, k)} ::
      Persisted(k) && !Flagged(l.store, k) ==> Held(l.sent, k) == Current(l.store, k)
  }

  lemma InSyncInitial(l: Link)
    ensures InSync(SendInitialStatus(l))
  {
    ReplicaAppend(l.sent, InitialState(InitialValues(l.store)));
  }

  lemma InSyncChanges(h: Hash, l: Link)
    requires InSync(l) && WellFlagged(h, l.store)
    ensures InSync(SendChanges(l))
  {
    var changes := Changes(l.store);
    ChangesAreFlagged(h, l.store);
    if changes != map[] {
      ReplicaAppend(l.sent, SessionChange(changes));
    }
    forall k | Persisted(k)
      ensures Held(SendChanges(l).sent, k) == Current(l.store, k)
    {
      assert Flagged(l.store, k) || Held(l.sent, k) == Current(l.store, k);
      assert k in changes <==> Flagged(l.store, k);
    }
  }

  lemma InSyncSet(h: Hash, l: Link, k: Key, v: Val)
    requires InSync(l)
    ensures InSync(SetIn(h, l, k, v))
  {
    forall j | Persisted(j) && !Lookup(SetIn(h, l, k, v).store, j).changed
      ensures Lookup(l.store, j).changed || Current(SetIn(h, l, k, v).store, j) == Current(l.store, j)
    {
    }
    assert !Lookup(SetIn(h, l, k, v).store, k).changed ==> !Lookup(l.store, k).changed;
  }

  lemma InSyncStep(h: Hash, l: Link, op: Op)
    requires InSync(l) && WellFlagged(h, l.store)
    ensures InSync(Step(h, l, op))
  {
    match op
    case SetVar(k, v) => InSyncSet(h, l, k, v);
    case SendInitial => InSyncInitial(l);
    case SendChange => InSyncChanges(h, l);
  }

  lemma {:induction false} InSyncRun(h: Hash, l: Link, ops: seq<Op>)
    requires InSync(l) && WellFlagged(h, l.store)
    ensures InSync(Run(h, l, ops))
  {
    if ops != [] {
      InSyncRun(h, l, ops[..|ops| - 1]);
      Bookkeeping(h, l, ops[..|ops| - 1]);
      InSyncStep(h, Run(h, l, ops[..|ops| - 1]), ops[|ops| - 1]);
    }
  }

  lemma CleanInSync(h: Hash, l: Link)
    requires InSync(l) && WellFlagged(h, l.store) && !l.store.dirty
    ensures forall k :: Persisted(k) ==> Held(l.sent, k) == Current(l.store, k)
  {
    assert forall k :: !Flagged(l.store, k);
  }

  /** Once the initial state has been sent, the client agrees with the server on every key
      that is not flagged, after any run, and on all of them when the session is not dirty:
      on every key but the three that are never told. */
  lemma Replication(h: Hash, l: Link, before: seq<Op>, after: seq<Op>)
    requires WellFlagged(h, l.store)
    ensures var now := Run(h, l, before + [SendInitial] + after);
            && InSync(now)
            && forall k :: k != ClientID && k != SessionID && k != Sid && (!Flagged(now.store, k) || !now.store.dirty) ==>
                 Held(now.sent, k) == Current(now.store, k)
  {
    var start := Run(h, l, before);
    Bookkeeping(h, l, before);
    InSyncInitial(start);
    assert (before + [SendInitial])[..|before|] == before;
    RunAppend(h, l, before + [SendInitial], after);
    var now := Run(h, l, before + [SendInitial] + after);
    InSyncRun(h, SendInitialStatus(start), after);
    Bookkeeping(h, l, before + [SendInitial] + after);
    if !now.store.dirty {
      CleanInSync(h, now);
    }
  }

  function KeysOf(p: Packet): set<Key> {
    match p
    case InitialState(values) => values.Keys
    case SessionChange(changes) => changes.Keys
  }

  predicate Discreet(p: Packet) {
    KeysOf(p) !! {ClientID, SessionID, Sid}
  }

  /** Those three are in no packet of any run. */
  lemma {:induction false} NeverTold(h: Hash, l: Link, ops: seq<Op>)
    requires forall p :: p in l.sent ==> Discreet(p)
    ensures forall p :: p in Run(h, l, ops).sent ==> Discreet(p)
  {
    if ops != [] {
      NeverTold(h, l, ops[..|ops| - 1]);
      StepNeverTold(h, Run(h, l, ops[..|ops| - 1]), ops[|ops| - 1]);
    }
  }

  lemma StepNeverTold(h: Hash, l: Link, op: Op)
    requires forall p :: p in l.sent ==> Discreet(p)
    ensures forall p :: p in Step(h, l, op).sent ==> Discreet(p)
  {
    assert Discreet(InitialState(InitialValues(l.store))) && Discreet(SessionChange(Changes(l.store)));
    forall p | p in Step(h, l, op).sent
      ensures Discreet(p)
    {
      assert p in l.sent || p == InitialState(InitialValues(l.store)) || p == SessionChange(Changes(l.store));
    }
  }

  /** Without the initial state the defaults never reach the client. */
  lemma InitialStateNeeded(h: Hash)
    ensures Held(Run(h, Link(DEFAULTS, []), [SendChange]).sent, Role) != Current(DEFAULTS, Role)
  {
    var ops := [SendChange];
    assert ops[..0] == [];
  }

  /** With it they do: the roles of a player and of a newbie, no user, no address yet. */
  lemma DefaultsTold()
    ensures var sent := SendInitialStatus(Link(DEFAULTS, [])).sent;
            && Replica(sent).Keys == {Role, UserId, Address}
            && Held(sent, Role) == Long(0x2000_0000_0000_0000 + 0x0800_0000_0000_0000)
            && Held(sent, UserId) == Int(0) && Held(sent, Address) == Str("0.0.0.0")
  {
    ReplicaAppend([], InitialState(InitialValues(DEFAULTS)));
  }

  // ------------------------------------------------- the schedule does not matter

  function Sets(ops: seq<Op>): seq<Op> {
    if ops == [] then []
    else
      var front := Sets(ops[..|ops| - 1]);
      if ops[|ops| - 1].SetVar? then front + [ops[|ops| - 1]] else front
  }

  ghost predicate SameValues(s: Store, t: Store) {
    forall k :: Current(s, k) == Current(t, k)
  }

  lemma SameValuesSet(h: Hash, s: Store, t: Store, k: Key, v: Val)
    requires SameValues(s, t)
    ensures SameValues(Set(h, s, k, v), Set(h, t, k, v))
  {
    assert Current(s, k) == Current(t, k);
    forall j
      ensures Current(Set(h, s, k, v), j) == Current(Set(h, t, k, v), j)
    {
      assert Current(s, j) == Current(t, j);
    }
  }

  lemma SameValuesFlush(l: Link)
    ensures SameValues(SendInitialStatus(l).store, l.store) && SameValues(SendChanges(l).store, l.store)
  {
  }

  /** The values the server holds depend on the stores alone, not on the flushes. */
  lemma {:induction false} ValuesFromSets(h: Hash, l: Link, ops: seq<Op>)
    ensures SameValues(Run(h, l, ops).store, Run(h, l, Sets(ops)).store)
  {
    if ops != [] {
      var front, op := ops[..|ops| - 1], ops[|ops| - 1];
      ValuesFromSets(h, l, front);
      if op.SetVar? {
        SameValuesSet(h, Run(h, l, front).store, Run(h, l, Sets(front)).store, op.k, op.v);
        assert (Sets(front) + [op])[..|Sets(front)|] == Sets(front);
      } else {
        SameValuesFlush(Run(h, l, front));
      }
    }
  }

  /** Replaying collapsed deltas gives what replaying every store would: two runs with
      the same stores, flushed at any points, leave both clients with the same values
      after a last flush. */
  lemma {:induction false} AnySchedule(h: Hash, l: Link, first: seq<Op>, second: seq<Op>, k: Key)
    requires WellFlagged(h, l.store) && Persisted(k)
    requires Sets(first) == Sets(second)
    ensures Held(Run(h, l, [SendInitial] + first + [SendChange]).sent, k)
            == Held(Run(h, l, [SendInitial] + second + [SendChange]).sent, k)
  {
    FlushedValue(h, l, first, k);
    FlushedValue(h, l, second, k);
  }

  lemma FlushedValue(h: Hash, l: Link, ops: seq<Op>, k: Key)
    requires WellFlagged(h, l.store) && Persisted(k)
    ensures Held(Run(h, l, [SendInitial] + ops + [SendChange]).sent, k) == Current(Run(h, l, Sets(ops)).store, k)
  {
    var front := [SendInitial] + ops;
    var before := Run(h, l, front);
    assert (front + [SendChange])[..|front|] == front;
    assert [] + [SendInitial] + ops == front;
    Replication(h, l, [], ops);
    Bookkeeping(h, l, front);
    FlushTells(h, before, k);
    ValuesFromSets(h, l, front);
    InitialNotASet(ops);
  }

  lemma FlushTells(h: Hash, l: Link, k: Key)
    requires InSync(l) && WellFlagged(h, l.store) && Persisted(k)
    ensures Held(SendChanges(l).sent, k) == Current(l.store, k)
  {
    InSyncChanges(h, l);
    SameValuesFlush(l);
    WellFlaggedSettled(h, l.store);
    CleanInSync(h, SendChanges(l));
  }

  lemma InitialNotASet(ops: seq<Op>)
    ensures Sets([SendInitial] + ops) == Sets(ops)
  {
    SetsAppend([SendInitial], ops);
    assert Sets([SendInitial]) == [];
    assert [] + Sets(ops) == Sets(ops);
  }

  lemma {:induction false} SetsAppend(first: seq<Op>, second: seq<Op>)
    ensures Sets(first + second) == Sets(first) + Sets(second)
  {
    if second == [] {
      assert first + second == first;
    } else {
      assert (first + second)[..|first + second| - 1] == first + second[..|second| - 1];
      SetsAppend(first, second[..|second| - 1]);
    }
  }

  // -------------------------------------------------------- the reported old value

  /** One value more, if it hashes differently from the last. */
  function Taken(h: Hash, trail: seq<Val>, v: Val): (r: seq<Val>)
    requires trail != []
    ensures r != []
  {
    if h(v) != h(trail[|trail| - 1]) then trail + [v] else trail
  }

  /** The values the key really took, from its value before the stores. */
  function Trail(h: Hash, start: Val, ops: seq<Op>, k: Key): (r: seq<Val>)
    ensures r != []
  {
    if ops == [] then [start]
    else
      var front := Trail(h, start, ops[..|ops| - 1], k);
      match ops[|ops| - 1]
      case SetVar(j, v) => if j == k then Taken(h, front, v) else front
      case _ => front
  }

  /** The entry of a key that took the values of a trail since it was last flushed. */
  predicate TellsTrail(e: Entry, trail: seq<Val>)
    requires trail != []
  {
    && e.cur == trail[|trail| - 1]
    && (e.changed <==> |trail| > 1)
    && (e.changed ==> e.last == trail[|trail| - 2])
  }

  lemma SetTakes(h: Hash, s: Store, k: Key, v: Val, trail: seq<Val>)
    requires trail != [] && TellsTrail(Lookup(s, k), trail)
    ensures TellsTrail(Lookup(Set(h, s, k, v), k), Taken(h, trail, v))
  {
  }

  lemma SetElsewhere(h: Hash, s: Store, j: Key, v: Val, k: Key)
    requires j != k
    ensures Lookup(Set(h, s, j, v), k) == Lookup(s, k)
  {
  }

  /** After a flush and any stores, a key is flagged exactly when it took a new value;
      it then holds the last value taken and reports the one before that as the old one. */
  lemma {:induction false} TrailHeld(h: Hash, l: Link, ops: seq<Op>, k: Key)
    requires !Lookup(l.store, k).changed
    requires forall op :: op in ops ==> op.SetVar?
    ensures TellsTrail(Lookup(Run(h, l, ops).store, k), Trail(h, Current(l.store, k), ops, k))
  {
    hide Set, Taken;
    if ops != [] {
      var front, op := ops[..|ops| - 1], ops[|ops| - 1];
      hide TellsTrail;
      assert op in ops;
      TrailHeld(h, l, front, k);
      var s := Run(h, l, front).store;
      if op.k == k {
        SetTakes(h, s, k, op.v, Trail(h, Current(l.store, k), front, k));
      } else {
        SetElsewhere(h, s, op.k, op.v, k);
      }
    }
  }

  /** The values stored in a key, whether or not they took effect. */
  function Stored(ops: seq<Op>, k: Key): seq<Val> {
    if ops == [] then []
    else
      var front := Stored(ops[..|ops| - 1], k);
      match ops[|ops| - 1]
      case SetVar(j, v) => if j == k then front + [v] else front
      case _ => front
  }

  /** How many of the stored values come before those at the end that hash alike. */
  function Earlier(h: Hash, values: seq<Val>): (n: nat)
    ensures n == 0 || n < |values|
  {
    var last := |values| - 1;
    if last < 1 then 0
    else if h(values[last - 1]) == h(values[last]) then Earlier(h, values[..last])
    else last
  }

  /** What the stores alone say of the trail: its last value hashes as the last store, and
      the value before it as the last store that hashes otherwise, or it is the start. */
  predicate TrailOfStores(h: Hash, start: Val, values: seq<Val>, trail: seq<Val>) {
    var n := Earlier(h, values);
    && trail != [] && trail[0] == start
    && (forall v :: v in trail ==> v == start || v in values)
    && (if values == [] then trail == [start] else h(trail[|trail| - 1]) == h(values[|values| - 1]))
    && (|trail| > 1 <==> values != [] && (n > 0 || h(values[|values| - 1]) != h(start)))
    && (|trail| > 1 ==> if n > 0 then h(trail[|trail| - 2]) == h(values[n - 1]) else trail[|trail| - 2] == start)
  }

  lemma TakenOfStores(h: Hash, start: Val, values: seq<Val>, trail: seq<Val>, v: Val)
    requires TrailOfStores(h, start, values, trail)
    ensures TrailOfStores(h, start, values + [v], Taken(h, trail, v))
  {
    assert (values + [v])[..|values|] == values;
  }

  lemma {:induction false} StoresTrail(h: Hash, start: Val, ops: seq<Op>, k: Key)
    ensures TrailOfStores(h, start, Stored(ops, k), Trail(h, start, ops, k))
  {
    if ops != [] {
      hide TrailOfStores, Taken;
      var front, op := ops[..|ops| - 1], ops[|ops| - 1];
      StoresTrail(h, start, front, k);
      if op.SetVar? && op.k == k {
        TakenOfStores(h, start, Stored(front, k), Trail(h, start, front, k), op.v);
      }
    }
  }

  /** A flush is said to let the client compare the old value with what it holds. By the
      stores alone: a key is told when its last store hashes as a new value or another store
      came between, and the reported old value hashes as the client's exactly when no store
      between hashes otherwise than the last, or the last that does hashes as the client's. */
  lemma ReportedOldValue(h: Hash, l: Link, ops: seq<Op>, k: Key)
    requires WellFlagged(h, l.store) && InSync(l) && !l.store.dirty && Persisted(k)
    requires forall op :: op in ops ==> op.SetVar?
    ensures var changes := Changes(Run(h, l, ops).store);
            var values, held := Stored(ops, k), Held(l.sent, k);
            var n := Earlier(h, values);
            && (k in changes <==> values != [] && (n > 0 || h(values[|values| - 1]) != h(held)))
            && (k in changes ==> h(changes[k].cur) == h(values[|values| - 1]))
            && (k in changes ==> (h(changes[k].last) == h(held) <==> n == 0 || h(values[n - 1]) == h(held)))
            && (k in changes && (forall v :: v in values && h(v) == h(held) ==> v == held) ==>
                  (changes[k].last == held <==> n == 0 || values[n - 1] == held))
  {
    hide TrailOfStores, Trail, Changes, Run, Stored, Earlier, Held, InSync, WellFlagged;
    ChangesTellTrail(h, l, ops, k);
    StoresTrail(h, Held(l.sent, k), ops, k);
    OldValue(h, Held(l.sent, k), Stored(ops, k), Trail(h, Held(l.sent, k), ops, k));
  }

  lemma ChangesTellTrail(h: Hash, l: Link, ops: seq<Op>, k: Key)
    requires WellFlagged(h, l.store) && InSync(l) && !l.store.dirty && Persisted(k)
    requires forall op :: op in ops ==> op.SetVar?
    ensures var changes := Changes(Run(h, l, ops).store);
            var t := Trail(h, Held(l.sent, k), ops, k);
            && (k in changes <==> |t| > 1)
            && (k in changes ==> changes[k] == Delta(t[|t| - 2], t[|t| - 1]))
  {
    hide Trail, Run;
    assert !Flagged(l.store, k);
    TrailHeld(h, l, ops, k);
    Bookkeeping(h, l, ops);
  }

  lemma OldValue(h: Hash, start: Val, values: seq<Val>, trail: seq<Val>)
    requires TrailOfStores(h, start, values, trail)
    ensures trail != []
    ensures var n := Earlier(h, values);
            && (|trail| > 1 <==> values != [] && (n > 0 || h(values[|values| - 1]) != h(start)))
            && (|trail| > 1 ==>
                  && h(trail[|trail| - 1]) == h(values[|values| - 1])
                  && (h(trail[|trail| - 2]) == h(start) <==> n == 0 || h(values[n - 1]) == h(start))
                  && ((forall v :: v in values && h(v) == h(start) ==> v == start) ==>
                        (trail[|trail| - 2] == start <==> n == 0 || values[n - 1] == start)))
  {
    if |trail| > 1 {
      assert trail[|trail| - 2] in trail;
    }
  }

  /** Two stores between flushes: the client holds None and is told the old value was 1. */
  lemma OldValueWrong(h: Hash)
    requires h(None) != h(Int(1)) && h(Int(1)) != h(Int(2))
    ensures var l := Run(h, Link(DEFAULTS, []), [SendInitial, SetVar(ShipId, Int(1)), SetVar(ShipId, Int(2))]);
            && Held(l.sent, ShipId) == None
            && ShipId in Changes(l.store) && Changes(l.store)[ShipId] == Delta(Int(1), Int(2))
  {
    var ops := [SendInitial, SetVar(ShipId, Int(1)), SetVar(ShipId, Int(2))];
    var l0 := Link(DEFAULTS, []);
    assert ops[..2] == [SendInitial, SetVar(ShipId, Int(1))];
    assert ops[..2][..1] == [SendInitial];
    assert ops[..1][..0] == [];
    var l1 := SendInitialStatus(l0);
    assert Run(h, l0, [SendInitial]) == l1;
    assert Run(h, l0, ops[..2]) == SetIn(h, l1, ShipId, Int(1));
    ReplicaAppend([], InitialState(InitialValues(DEFAULTS)));
    assert [] + [InitialState(InitialValues(DEFAULTS))] == l1.sent;
  }

  // -------------------------------------------------------------- values lost

  /** A store takes effect exactly when the value is new and its hash is too. */
  lemma StoreTakesEffect(h: Hash, s: Store, k: Key, v: Val)
    ensures Current(Set(h, s, k, v), k) == v <==> h(v) != h(Current(s, k)) || v == Current(s, k)
    ensures forall j :: j != k ==> Lookup(Set(h, s, k, v), j) == Lookup(s, j)
  {
  }

  /** The hash of a 32-bit integer: its value, but -1 hashes as -2. */
  function IntHash(n: int): int {
    if n == -1 then -2 else n
  }

  /** Storing an integer over an integer fails for one pair of values only: -1 and -2. */
  lemma IntegerStoreLost(h: Hash, s: Store, k: Key, m: int, n: int)
    requires forall i :: h(Int(i)) == IntHash(i)
    requires Current(s, k) == Int(m)
    ensures Current(Set(h, s, k, Int(n)), k) != Int(n) <==> {m, n} == {-1, -2}
  {
    StoreTakesEffect(h, s, k, Int(n));
    assert {m, n} == {-1, -2} <==> (m == -1 && n == -2) || (m == -2 && n == -1) by {
      if {m, n} == {-1, -2} {
        assert m in {-1, -2} && n in {-1, -2};
        assert -1 in {m, n} && -2 in {m, n};
      }
    }
  }
}
