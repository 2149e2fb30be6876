/** What holding updates back is for: no update held back reaches a client but right behind
    the full state, over every run. */
module FullStateFirst {
  import opened ClientState
  import opened ClientRuns
  import opened ClientDelivery
  import DestinyLanes
  import SessionReplica

  /** Every packet of held-back updates comes directly after a packet sent alone. */
  predicate StateFirst(h: DestinyLanes.History) {
    match h
    case Start => true
    case Then(past, Sent(lane, _)) =>
      && StateFirst(past)
      && (lane == DestinyLanes.Deferred ==>
            past.Then? && past.fact.Sent? && past.fact.lane == DestinyLanes.Immediate)
    case Then(past, _) => StateFirst(past)
  }

  /** The full state is not empty. */
  predicate Whole(env: Env) {
    env.snapshot.items != []
  }

  /** The client's system is no station. */
  predicate Based(d: StaticData, p: Place) {
    !IsStation(d, p.systemData)
  }

  predicate InOrder(d: StaticData, c: Client) {
    StateFirst(c.lanes.history) && Based(d, c.place)
  }

  lemma MoveWhere(d: StaticData, c: Client, env: Env, location: nat)
    requires Based(d, c.place)
    ensures var p := MoveToLocation(d, c, env, location).place;
            (p.location == c.place.location || p.location == location) && Based(d, p)
  {
    if IsStation(d, location) || IsSolarSystem(d, location) {
      var b := Depart(d, c, location);
      assert d.stations.Keys !! d.systems.Keys;
      if IsStation(d, location) {
        assert d.stations[location].system in d.systems.Keys;
      } else {
        assert location in d.systems.Keys;
      }
      ArrivePlace(d, b, env);
      ArrivePlace(d, Boot(b), env);
    }
  }

  lemma ArrivePlace(d: StaticData, c: Client, env: Env)
    requires Docked(d, c) || InSpace(d, c)
    ensures var p := Arrive(d, c, env).place;
            p.location == c.place.location && p.systemData == c.place.systemData
  {
    assert c.place.location != 0;
  }

  lemma MoveInOrder(d: StaticData, c: Client, env: Env, location: nat)
    requires InOrder(d, c)
    ensures InOrder(d, MoveToLocation(d, c, env, location))
  {
    hide MoveToLocation;
    MoveWhere(d, c, env, location);
    MoveResets(d, c, env, location);
  }

  /** The full state goes out alone, and what was held back right behind it. */
  lemma SendSetStateInOrder(d: StaticData, c: Client, env: Env)
    requires InOrder(d, c) && !Docked(d, c) && Whole(env)
    ensures InOrder(d, SendSetState(d, c, env))
    ensures env.inBubble ==> SendSetState(d, c, env).lanes.setStateSent && SendSetState(d, c, env).lanes.pending == []
  {
    if env.inBubble {
      var u := env.snapshot;
      var h := DestinyLanes.Then(c.lanes.history, DestinyLanes.Accepted(DestinyLanes.Immediate, u));
      var packet := DestinyLanes.DestinyUpdate([DestinyLanes.Bare(u)], c.lanes.bubbleWait);
      QueueInOrder(c.lanes, false, u, true, true);
      var l := DestinyLanes.QueueUpdate(c.lanes, false, u, true, true);
      assert l.history == DestinyLanes.Then(h, DestinyLanes.Sent(DestinyLanes.Immediate, packet));
      assert StateFirst(DestinyLanes.FlushPending(l.(setStateSent := true)).history);
    }
  }

  /** Lanes on which the full state has gone out alone, at once, followed by what was held
      back, in one packet if there was any. */
  function WithFullState(l: DestinyLanes.Lanes, snapshot: DestinyLanes.Update): DestinyLanes.Lanes {
    var taken := DestinyLanes.Then(l.history, DestinyLanes.Accepted(DestinyLanes.Immediate, snapshot));
    var alone := DestinyLanes.DestinyUpdate([DestinyLanes.Bare(snapshot)], l.bubbleWait);
    var sent := DestinyLanes.Then(taken, DestinyLanes.Sent(DestinyLanes.Immediate, alone));
    var behind := DestinyLanes.DestinyUpdate(DestinyLanes.BareAll(DestinyLanes.Sendable(l.pending)), l.bubbleWait);
    l.(setStateSent := true, pending := [],
       history := if l.pending == [] then sent
                  else DestinyLanes.Then(sent, DestinyLanes.Sent(DestinyLanes.Deferred, behind)))
  }

  /** Asked for in space, with the ship in a bubble, the full state does go out. */
  lemma FullStateGoesOut(d: StaticData, c: Client, env: Env)
    requires c.place.location !in d.stations && Whole(env)
    ensures env.inBubble ==> SendSetState(d, c, env) == c.(lanes := WithFullState(c.lanes, env.snapshot))
    ensures !env.inBubble ==> SendSetState(d, c, env) == c
    ensures env.inBubble ==>
              Resend(d, c, env) == c.(lanes := WithFullState(c.lanes.(setStateSent := false), env.snapshot))
    ensures !env.inBubble ==> Resend(d, c, env) == c.(lanes := c.lanes.(setStateSent := false))
  {
  }

  /** At a station it is refused, but the state counts as sent. */
  lemma FullStateRefused(d: StaticData, c: Client, env: Env)
    requires c.place.location in d.stations
    ensures env.inBubble ==> SendSetState(d, c, env) == StateSent(c, true)
    ensures !env.inBubble ==> SendSetState(d, c, env) == c
  {
  }

  lemma QueueInOrder(l: DestinyLanes.Lanes, docked: bool, u: DestinyLanes.Update, doPackage: bool, isSetState: bool)
    requires StateFirst(l.history)
    ensures StateFirst(DestinyLanes.QueueUpdate(l, docked, u, doPackage, isSetState).history)
  {
    var taken := DestinyLanes.Then(l.history, DestinyLanes.Accepted(DestinyLanes.Immediate, u));
    assert StateFirst(taken);
  }

  lemma FlushInOrder(l: DestinyLanes.Lanes, docked: bool)
    requires StateFirst(l.history)
    ensures StateFirst(DestinyLanes.FlushQueue(l, docked).history)
  {
    var first := DestinyLanes.Then(l.history, DestinyLanes.Sent(DestinyLanes.Batched, DestinyLanes.DestinyUpdate(l.updates, l.bubbleWait)));
    assert StateFirst(first);
  }

  lemma ResendInOrder(d: StaticData, c: Client, env: Env)
    requires InOrder(d, c) && !Docked(d, c) && Whole(env)
    ensures InOrder(d, Resend(d, c, env))
  {
    hide SendSetState;
    SendSetStateInOrder(d, StateSent(c, false), env);
  }

  lemma BallParkInOrder(d: StaticData, c: Client, env: Env)
    requires InOrder(d, c) && (!Docked(d, c) || c.place.login) && Whole(env)
    ensures InOrder(d, SetBallPark(d, c, env)) && SetBallPark(d, c, env).place == c.place
  {
    hide SendSetState;
    var open := c.(lanes := c.lanes.(bubbleWait := false));
    assert InOrder(d, open);
    if !c.place.login {
      SendSetStateInOrder(d, open, env);
      SendSetStatePlace(d, open, env);
    }
  }

  lemma SendSetStatePlace(d: StaticData, c: Client, env: Env)
    ensures SendSetState(d, c, env).place == c.place
  {
  }

  lemma DockInOrder(d: StaticData, c: Client, env: Env)
    requires InOrder(d, c)
    ensures InOrder(d, DockToStation(d, c, env))
  {
    hide MoveToLocation;
    MoveInOrder(d, Docking(c), env, c.place.dockStation);
    ChangeInOrder(d, SetSessionTimer(d, MoveToLocation(d, Docking(c), env, c.place.dockStation), env.timerTime));
  }

  lemma ChangeInOrder(d: StaticData, c: Client)
    requires InOrder(d, c)
    ensures InOrder(d, SendSessionChange(d, c))
  {
  }

  lemma UndockInOrder(d: StaticData, c: Client, env: Env)
    requires InOrder(d, c)
    ensures InOrder(d, UndockFromStation(d, c, env))
  {
    hide MoveToLocation, SendSessionChange;
    MoveInOrder(d, Undocking(c), env, c.place.systemData);
    var outside := MoveToLocation(d, Undocking(c), env, c.place.systemData);
    var timed := outside.(move := SetStateTimer(outside.move, State.Undock, UNDOCK_TIME));
    ChangeInOrder(d, SetSessionTimer(d, timed, env.timerTime));
  }

  lemma SpaceNotDocked(d: StaticData, c: Client)
    requires InSpace(d, c)
    ensures !Docked(d, c)
  {
    assert d.stations.Keys !! d.systems.Keys;
    assert c.place.location in d.systems.Keys;
  }

  lemma GateInOrder(d: StaticData, c: Client, env: Env, gate: Gate)
    requires InOrder(d, c) && Whole(env)
    ensures InOrder(d, StargateJump(d, c, env, gate))
  {
    hide MoveToLocation, Resend;
    if gate.Gate? {
      MoveInOrder(d, Crossing(c, gate), env, gate.system);
      var there := MoveToLocation(d, Crossing(c, gate), env, gate.system);
      if InSpace(d, there) {
        SpaceNotDocked(d, there);
        ResendInOrder(d, there, env);
      }
    }
  }

  lemma ExecuteInOrder(d: StaticData, c: Client, env: Env)
    requires InOrder(d, c) && Whole(env)
    ensures InOrder(d, ExecuteJump(d, c, env))
    ensures InOrder(d, ExecuteDriveJump(d, c, env))
    ensures InOrder(d, ExecuteWormholeJump(d, c, env))
  {
    hide MoveToLocation, Resend;
    var launched := Launching(c, State.Jump);
    MoveInOrder(d, launched, env, c.move.system);
    var there := MoveToLocation(d, launched, env, c.move.system);
    if InSpace(d, there) {
      SpaceNotDocked(d, there);
      ResendInOrder(d, there, env);
    }
    MoveInOrder(d, Launching(c, DriveJump), env, c.move.system);
    MoveInOrder(d, Plunging(c), env, c.move.system);
  }

  lemma WarpInInOrder(d: StaticData, c: Client, env: Env)
    requires InOrder(d, c) && !Docked(d, c) && Whole(env)
    ensures InOrder(d, WarpIn(d, c, env))
  {
    hide MoveToLocation, Resend;
    MoveInOrder(d, c, env, c.place.systemData);
    MoveWhere(d, c, env, c.place.systemData);
    var entered := if env.inBubble then c else MoveToLocation(d, c, env, c.place.systemData);
    ResendInOrder(d, entered, env.(inBubble := true));
  }

  lemma EndLoginInOrder(d: StaticData, c: Client, env: Env)
    requires InOrder(d, c) && !Docked(d, c) && Whole(env)
    ensures InOrder(d, EndLogin(d, c, env))
  {
    hide SetBallPark, WarpIn;
    var entered := c.(place := c.place.(login := false));
    assert InOrder(d, entered);
    BallParkInOrder(d, entered, env);
    WarpInInOrder(d, SetBallPark(d, entered, env), env);
  }

  lemma ExpiredInOrder(d: StaticData, c: Client, env: Env)
    requires InOrder(d, c) && !Docked(d, c) && Whole(env)
    ensures InOrder(d, StateExpired(d, c, env))
  {
    hide SetBallPark, EndLogin, ExecuteJump, ExecuteDriveJump, ExecuteWormholeJump, DockToStation, SendSessionChange;
    match c.move.state
    case Idle => ChangeInOrder(d, Tell(d, Retried(c), Session.NextSessionChange, Session.Long(env.now + RETRY_CHANGE)));
    case Dock => DockInOrder(d, c, env);
    case Undock => BallParkInOrder(d, c, env);
    case Killed => ChangeInOrder(d, c);
    case Board => ChangeInOrder(d, c);
    case Login => EndLoginInOrder(d, c, env);
    case Jump => ExecuteInOrder(d, c, env);
    case DriveJump => ExecuteInOrder(d, c, env);
    case WormholeJump => ExecuteInOrder(d, c, env);
    case _ =>
  }

  lemma TickInOrder(d: StaticData, c: Client, env: Env, stateFires: bool, ballparkFires: bool)
    requires InOrder(d, c) && Whole(env)
    ensures InOrder(d, Tick(d, c, env, stateFires, ballparkFires))
  {
    hide SetBallPark, StateExpired;
    if !Docked(d, c) && c.place.shipInSpace {
      var quiet := c.(move := c.move.(ballparkTimer := false));
      BallParkInOrder(d, quiet, env);
      var parked := Parked(d, c, env, ballparkFires);
      assert InOrder(d, parked) && parked.place == c.place;
      ExpiredInOrder(d, parked.(move := parked.move.(stateTimer := false)), env);
    }
  }

  // ------------------------------------------------------------------------ runs

  /** The full state of an operation that may send one is not empty. */
  predicate Ordinary(op: Op) {
    match op
    case RequestGate(_, env) => Whole(env)
    case Passing(env, _, _, _) => Whole(env)
    case Beyonce(env) => Whole(env)
    case WarpDone(env) => Whole(env)
    case RequestState(env) => Whole(env)
    case _ => true
  }

  /** Updates are held back, and the last packet was not one sent alone. */
  predicate Waiting(l: DestinyLanes.Lanes) {
    && l.pending != []
    && !(l.history.Then? && l.history.fact.Sent? && l.history.fact.lane == DestinyLanes.Immediate)
  }

  /** What breaks the order: a full state asked for at a station, where it is refused while
      the held-back updates are let go; and the state declared sent by anyone else. */
  predicate Breaks(d: StaticData, c: Client, op: Op) {
    match op
    case WarpDone(env) =>
      Docked(d, c) && c.place.shipInSpace && !c.lanes.setStateSent && env.inBubble && Waiting(c.lanes)
    case RequestState(env) => Docked(d, c) && c.place.shipInSpace && env.inBubble && Waiting(c.lanes)
    case DeclareState(sent) => sent && Waiting(c.lanes)
    case _ => false
  }

  lemma DeclaredInOrder(l: DestinyLanes.Lanes)
    requires StateFirst(l.history)
    ensures StateFirst(DestinyLanes.SetStateSent(l, true).history) <==> !Waiting(l)
  {
  }

  /** At a station the full state is refused, and what was held back goes out. */
  lemma DockedInOrder(d: StaticData, c: Client, env: Env)
    requires InOrder(d, c) && Docked(d, c)
    ensures InOrder(d, SendSetState(d, c, env)) <==> !(env.inBubble && Waiting(c.lanes))
  {
    DeclaredInOrder(c.lanes);
  }

  lemma ShipInOrder(d: StaticData, c: Client, op: Op)
    requires InOrder(d, c)
    requires op.BoardInSpace? || op.BoardInHangar? || op.Popped? || op.SessionTimer? || op.Share?
    ensures InOrder(d, ClientStep(d, c, op))
  {
    hide FixLocation, Flushed, SetAll, SendSessionChange, SetShip, Aboard;
    match op
    case BoardInSpace(ship, now) => AboardInOrder(d, c, ship, now);
    case BoardInHangar(ship, _) => SetShipInOrder(d, c, ship);
    case Popped(pod, now) => AboardInOrder(d, Popping(c), pod, now);
    case SessionTimer(_) =>
    case Share(values, _) =>
      ChangeInOrder(d, c.(link := SetAll(d.hash, c.link, SharedWrites(Done, values))));
  }

  lemma SetShipInOrder(d: StaticData, c: Client, ship: nat)
    requires InOrder(d, c)
    ensures InOrder(d, SetShip(d, c, ship))
  {
  }

  lemma AboardInOrder(d: StaticData, c: Client, ship: nat, now: int)
    requires InOrder(d, c)
    ensures InOrder(d, SendSessionChange(d, Aboard(d, c, ship, now)))
  {
    hide SetShip, SendSessionChange;
    SetShipInOrder(d, c, ship);
    ChangeInOrder(d, Aboard(d, c, ship, now));
  }

  lemma PoddedInOrder(d: StaticData, c: Client, env: Env, pod: nat, clone: nat)
    requires InOrder(d, c)
    ensures InOrder(d, AfterPodded(d, c, env, pod, clone))
  {
    hide MoveToLocation, SendSessionChange;
    var dead := Podding(d, c, pod);
    assert InOrder(d, dead);
    MoveInOrder(d, dead, env, clone);
    ChangeInOrder(d, UpdateSession(d, MoveToLocation(d, dead, env, clone), env.timerTime));
  }

  lemma LaneInOrder(d: StaticData, c: Client, op: Op)
    requires InOrder(d, c)
    requires op.Offer? || op.OfferEvent? || op.Flush? || op.DeclareState?
    ensures InOrder(d, ClientStep(d, c, op)) <==> !Breaks(d, c, op)
  {
    hide DestinyLanes.QueueUpdate, DestinyLanes.FlushQueue;
    match op
    case Offer(u, doPackage, isSetState) => QueueInOrder(c.lanes, Docked(d, c), u, doPackage, isSetState);
    case OfferEvent(_) =>
    case Flush => FlushInOrder(c.lanes, Docked(d, c));
    case DeclareState(sent) => DeclaredInOrder(c.lanes);
  }

  lemma WarpDoneInOrder(d: StaticData, c: Client, env: Env)
    requires InOrder(d, c) && Whole(env)
    ensures InOrder(d, LoginWarpComplete(d, c, env)) <==> !Breaks(d, c, WarpDone(env))
  {
    hide SendSetState;
    var idle := if c.move.state == LoginWarp then c.(move := c.move.(state := Idle)) else c;
    assert InOrder(d, idle);
    if Docked(d, c) {
      DockedInOrder(d, idle, env);
    } else {
      SendSetStateInOrder(d, idle, env);
    }
  }

  lemma RequestInOrder(d: StaticData, c: Client, env: Env)
    requires InOrder(d, c) && Whole(env)
    ensures InOrder(d, StateRequested(d, c, env)) <==> !Breaks(d, c, RequestState(env))
  {
    hide SendSetState;
    if Docked(d, c) {
      DockedInOrder(d, StateSent(c, false), env);
    } else {
      ResendInOrder(d, c, env);
    }
  }

  lemma BeyonceInOrder(d: StaticData, c: Client, env: Env)
    requires InOrder(d, c) && Whole(env)
    ensures InOrder(d, BindBeyonce(d, c, env))
  {
    hide SetBallPark;
    if c.place.login {
      BallParkInOrder(d, c.(place := c.place.(beyonce := true)), env);
    }
  }

  /** Every step keeps the order, except exactly those that break it. */
  lemma StepInOrder(d: StaticData, c: Client, op: Op)
    requires InOrder(d, c) && Ordinary(op) && !op.RequestWormhole? && !op.Passing?
    ensures InOrder(d, ClientStep(d, c, op)) <==> !Breaks(d, c, op)
  {
    hide StargateJump, UndockFromStation, MoveToLocation, LoginWarpComplete, AfterPodded, SendSessionChange,
         BindBeyonce, StateRequested, Aboard, SetShip, SetAll;
    match op
    case RequestGate(gate, env) => GateInOrder(d, c, env, gate);
    case Beyonce(env) => BeyonceInOrder(d, c, env);
    case WarpDone(env) => WarpDoneInOrder(d, c, env);
    case RequestState(env) => RequestInOrder(d, c, env);
    case LeaveStation(env) => UndockInOrder(d, c, env);
    case BoardInSpace(_, _) => ShipInOrder(d, c, op);
    case BoardInHangar(_, _) => ShipInOrder(d, c, op);
    case Popped(_, _) => ShipInOrder(d, c, op);
    case SessionTimer(_) => ShipInOrder(d, c, op);
    case Share(_, _) => ShipInOrder(d, c, op);
    case Podded(pod, clone, env) => PoddedInOrder(d, c, env, pod, clone);
    case Relocate(location, env) => MoveInOrder(d, c, env, location);
    case Offer(_, _, _) => LaneInOrder(d, c, op);
    case OfferEvent(_) => LaneInOrder(d, c, op);
    case Flush => LaneInOrder(d, c, op);
    case DeclareState(_) => LaneInOrder(d, c, op);
    case _ =>
  }

  lemma OneStepInOrder(d: StaticData, j: Joint, op: Op)
    requires InOrder(d, j.client) && Ordinary(op)
    ensures InOrder(d, Step(d, j, op).client) <==> !Breaks(d, j.client, op)
  {
    hide ClientStep, Tick, Waiting;
    if op.Passing? {
      TickInOrder(d, j.client, op.env, op.stateFires, op.ballparkFires);
    } else if !op.RequestWormhole? {
      StepInOrder(d, j.client, op);
    }
  }

  /** No step of the run breaks the order. */
  ghost predicate NeverBreaks(d: StaticData, j: Joint, ops: seq<Op>) {
    ops != [] ==>
      && NeverBreaks(d, j, ops[..|ops| - 1])
      && !Breaks(d, Run(d, j, ops[..|ops| - 1]).client, ops[|ops| - 1])
  }

  /** Over every run, whoever asks for the full state: as long as no step breaks the order,
      a client that has not got the full state is sent no update that was held back. */
  lemma {:induction false} HeldBackBehindState(d: StaticData, j: Joint, ops: seq<Op>)
    requires StateFirst(j.client.lanes.history) && Based(d, j.client.place)
    requires NeverBreaks(d, j, ops) && forall op :: op in ops ==> Ordinary(op)
    ensures StateFirst(Run(d, j, ops).client.lanes.history) && Based(d, Run(d, j, ops).client.place)
  {
    hide Step, Ordinary, Breaks;
    if ops != [] {
      var front, op := ops[..|ops| - 1], ops[|ops| - 1];
      HeldBackBehindState(d, j, front);
      assert op in ops;
      OneStepInOrder(d, Run(d, j, front), op);
    }
  }

  // -------------------------------------------------------------- the order broken

  lemma SelectedInSpace(d: StaticData, c: Client, env: Env, row: Row)
    requires IsSolarSystem(d, row.system) && !IsStation(d, row.station) && env.boots
    requires c.place.login && !c.place.shipInSpace && !IsJump(c.move.state)
    ensures var r := SelectCharacter(d, c, env, row);
            && r.lanes == c.lanes.(bubbleWait := false, setStateSent := false)
            && r.place.location == row.system && r.place.system == To(row.system) && r.place.shipInSpace
            && r.place.login && !IsJump(r.move.state)
  {
    assert d.stations.Keys !! d.systems.Keys;
    assert row.system in d.systems.Keys;
  }

  /** Such a run exists. Updates held back, a new client is sent to a station whose system
      does not boot; its ship is seen in a bubble again, and the login warp is ended. */
  lemma DockedWarpDone(d: StaticData, holes: Holes, row: Row, station: nat, u: DestinyLanes.Update,
                       up: Env, down: Env, back: Env)
    requires IsSolarSystem(d, row.system) && !IsStation(d, row.station) && up.boots
    requires IsStation(d, station) && SystemOf(d, station) != row.system && !down.boots
    requires u.items != [] && back.inBubble
    ensures var known := NEW_CLIENT.(link := SessionReplica.SendInitialStatus(NEW_CLIENT.link));
            var ops := [Offer(u, true, false), Relocate(station, down), WarpDone(back)];
            var h := Run(d, Joint(SelectCharacter(d, known, up, row), holes), ops).client.lanes.history;
            && h.Then? && h.fact.Sent? && h.fact.lane == DestinyLanes.Deferred
            && h.past == DestinyLanes.Then(DestinyLanes.Start, DestinyLanes.Accepted(DestinyLanes.Deferred, u))
            && !StateFirst(h)
  {
    hide SelectCharacter, MoveToLocation, LoginWarpComplete;
    var known := NEW_CLIENT.(link := SessionReplica.SendInitialStatus(NEW_CLIENT.link));
    SelectedInSpace(d, known, up, row);
    var start := Joint(SelectCharacter(d, known, up, row), holes);
    RunThree(d, start, Offer(u, true, false), Relocate(station, down), WarpDone(back));
    SpaceNotDocked(d, start.client);
    var held := ClientStep(d, start.client, Offer(u, true, false));
    FailedMove(d, held, down, station);
    DockedLetsGo(d, MoveToLocation(d, held, down, station), back);
  }

  lemma DockedLetsGo(d: StaticData, c: Client, env: Env)
    requires Docked(d, c) && c.place.shipInSpace && !c.lanes.setStateSent && env.inBubble && c.lanes.pending != []
    ensures var h := LoginWarpComplete(d, c, env).lanes.history;
            h.Then? && h.past == c.lanes.history && h.fact.Sent? && h.fact.lane == DestinyLanes.Deferred
  {
  }

  lemma FailedMove(d: StaticData, c: Client, env: Env, station: nat)
    requires IsStation(d, station) && c.place.system != Null && c.place.system != To(SystemOf(d, station)) && !env.boots
    ensures var r := MoveToLocation(d, c, env, station);
            && Docked(d, r) && r.place.shipInSpace == c.place.shipInSpace
            && r.lanes == c.lanes.(bubbleWait := false) && r.move == c.move
  {
  }
}
