/** Over every run of a client, the view of its location stays of one kind. */
module LocationRuns {
  import opened Session
  import opened SessionReplica
  import opened ClientState
  import opened LocationView
  import ClientRuns

  // ------------------------------------------------------------------ what keeps it

  lemma TimerSane(d: StaticData, c: Client, time: int, n: nat)
    requires PlacesHashApart(d) && Sane(d, c.link, n)
    ensures var r := SetSessionTimer(d, c, time);
            Sane(d, r.link, n) && ServerView(r.link.store) == ServerView(c.link.store)
  {
    var w := Write(Done, NextSessionChange, Long(time + NEXT_CHANGE));
    assert SetAll(d.hash, c.link, w) == SetIn(d.hash, c.link, w.k, w.v);
    SaneWrites(d, c.link, n, w);
  }

  lemma DestinySane(d: StaticData, c: Client, env: Env, n: nat)
    requires PlacesHashApart(d) && Sane(d, c.link, n)
    ensures var r := SetDestiny(d, c, env);
            && Sane(d, r.link, n) && ServerView(r.link.store) == ServerView(c.link.store)
            && Whereabouts(r.place) == Whereabouts(c.place)
  {
    hide Sane;
    var there := c.(lanes := c.lanes.(bubbleWait := false, setStateSent := false),
                    place := c.place.(shipInSpace := true));
    TimerSane(d, there, env.shipTime, n);
  }

  lemma ArriveLocated(d: StaticData, c: Client, env: Env, n: nat)
    requires PlacesHashApart(d) && Sane(d, c.link, n) && HashesApart(d, c.place.ship)
    requires Docked(d, c) || InSpace(d, c)
    requires c.place.systemData == SystemOf(d, c.place.location)
    ensures Located(d, Arrive(d, c, env), n)
    ensures Arrive(d, c, env).place.location == c.place.location
    ensures ClientView(Arrive(d, c, env).link.sent) == ServerView(Arrive(d, c, env).link.store)
  {
    hide Sane, ServerView, ClientView, SendSessionChange;
    DestinySane(d, c, env, n);
    var settled := CharacterPlaced(d, ShipPlaced(d, c, env));
    assert 0 !in d.stations && d.stations.Keys !! d.systems.Keys;
    UpdatedLocated(d, settled, env.now, n);
    SessionChangeLocated(d, UpdateSession(d, settled, env.now), n);
    SessionChangeView(d, UpdateSession(d, settled, env.now));
  }

  /** A flush does not change what the server holds. */
  lemma SessionChangeView(d: StaticData, c: Client)
    requires c.place.location != 0
    ensures ServerView(SendSessionChange(d, c).link.store) == ServerView(c.link.store)
  {
    SameValuesFlush(c.link);
  }

  /** Setting the location keys anew makes the view right, whatever it was. */
  lemma UpdatedLocated(d: StaticData, c: Client, now: int, n: nat)
    requires PlacesHashApart(d) && Sane(d, c.link, n) && Placed(d, c.place)
    ensures Located(d, UpdateSession(d, c, now), n)
  {
    var p := c.place;
    var view := ServerView(c.link.store);
    UpdatedView(d, c.link, p, now);
    if IsStation(d, p.charStation) {
      StationView(d, view, p.charStation);
    } else {
      SpaceView(d, view, p.charSystem, p.ship);
    }
    SystemView(d, view, PlaceWrites(d, p), p, now);
    SaneWrites(d, c.link, n, SystemWrites(d, PlaceWrites(d, p), p, now));
  }

  /** The whole way into a system: right at its end, or nothing told if it does not boot. */
  lemma EnterLocated(d: StaticData, c: Client, env: Env, location: nat, n: nat)
    requires PlacesHashApart(d) && Sane(d, c.link, n) && Placed(d, c.place)
    requires IsStation(d, location) || IsSolarSystem(d, location)
    ensures var b := Depart(d, c, location);
            Located(d, Enter(d, b, env), n)
            || (Enter(d, b, env).link == c.link && Placed(d, Enter(d, b, env).place)
                && Enter(d, b, env).place.charStation == c.place.charStation
                && Enter(d, b, env).place.charSystem == c.place.charSystem)
  {
    var b := Depart(d, c, location);
    if b.place.system != Null {
      ArriveLocated(d, b, env, n);
    } else if env.boots {
      ArriveLocated(d, Boot(b), env, n);
    }
  }

  lemma MoveLocated(d: StaticData, c: Client, env: Env, location: nat, n: nat)
    requires Located(d, c, n)
    ensures Located(d, MoveToLocation(d, c, env, location), n)
  {
    DestinySane(d, c, env, n);
    if IsStation(d, location) || IsSolarSystem(d, location) {
      EnterLocated(d, c, env, location, n);
    }
  }

  /** A move leaves the link in order even if the view was mixed. */
  lemma MoveSane(d: StaticData, c: Client, env: Env, location: nat, n: nat)
    requires PlacesHashApart(d) && Sane(d, c.link, n) && Placed(d, c.place)
    ensures var r := MoveToLocation(d, c, env, location); Sane(d, r.link, n) && Placed(d, r.place)
  {
    DestinySane(d, c, env, n);
    if IsStation(d, location) || IsSolarSystem(d, location) {
      EnterLocated(d, c, env, location, n);
    }
  }

  lemma SetVarLocated(d: StaticData, c: Client, k: Key, v: Val, n: nat)
    requires Located(d, c, n) && !OfLocation(k)
    ensures Located(d, Tell(d, c, k, v), n)
  {
    assert SetAll(d.hash, c.link, Write(Done, k, v)) == SetIn(d.hash, c.link, k, v);
    SaneWrites(d, c.link, n, Write(Done, k, v));
  }

  lemma SetShipSane(d: StaticData, c: Client, ship: nat, n: nat)
    requires Located(d, c, n) && HashesApart(d, ship)
    ensures var r := SetShip(d, c, ship);
            && Sane(d, r.link, n) && Placed(d, r.place)
            && ServerView(r.link.store) == if InSpace(d, c) then ServerView(c.link.store).(ship := Int(ship))
                                           else ServerView(c.link.store)
  {
    if InSpace(d, c) {
      var w := Write(Done, ShipId, Int(ship));
      assert SetAll(d.hash, c.link, w) == SetIn(d.hash, c.link, ShipId, Int(ship));
      assert Known(d, Int(ship));
      assert KnownWrites(d, w.before);
      SaneWrites(d, c.link, n, w);
      assert Overlaid(ServerView(c.link.store), w) == With(ServerView(c.link.store), ShipId, Int(ship));
    }
  }

  /** A change of ship keeps the view right exactly when the client is not astray: a client
      shown docked must not be told of its ship. */
  lemma SetShipLocated(d: StaticData, c: Client, ship: nat, n: nat)
    requires Located(d, c, n) && HashesApart(d, ship)
    ensures Located(d, SetShip(d, c, ship), n) <==> !Astray(d, c.place)
    ensures Astray(d, c.place) ==> !Shaped(ServerView(SetShip(d, c, ship).link.store))
  {
    SetShipSane(d, c, ship, n);
  }

  lemma ShareLocated(d: StaticData, c: Client, values: seq<(string, Val)>, send: bool, n: nat)
    requires Located(d, c, n)
    ensures Located(d, ClientRuns.ShareValues(d, c, values, send), n)
  {
    SharedView(d, ServerView(c.link.store), Done, values);
    SaneWrites(d, c.link, n, SharedWrites(Done, values));
    var told := c.(link := SetAll(d.hash, c.link, SharedWrites(Done, values)));
    SessionChangeLocated(d, told, n);
  }

  lemma DockLocated(d: StaticData, c: Client, env: Env, n: nat)
    requires Located(d, c, n)
    ensures Located(d, DockToStation(d, c, env), n)
  {
    hide Located, MoveToLocation, SendSessionChange;
    LocatedFrame(d, c, Docking(c), n);
    MoveLocated(d, Docking(c), env, c.place.dockStation, n);
    NextChangeLocated(d, MoveToLocation(d, Docking(c), env, c.place.dockStation), Long(env.timerTime + NEXT_CHANGE), n);
  }

  lemma UndockLocated(d: StaticData, c: Client, env: Env, n: nat)
    requires Located(d, c, n)
    ensures Located(d, UndockFromStation(d, c, env), n)
  {
    hide Located, MoveToLocation, SendSessionChange;
    LocatedFrame(d, c, Undocking(c), n);
    MoveLocated(d, Undocking(c), env, c.place.systemData, n);
    var outside := MoveToLocation(d, Undocking(c), env, c.place.systemData);
    var timed := outside.(move := SetStateTimer(outside.move, State.Undock, UNDOCK_TIME));
    LocatedFrame(d, outside, timed, n);
    NextChangeLocated(d, timed, Long(env.timerTime + NEXT_CHANGE), n);
  }

  lemma GateLocated(d: StaticData, c: Client, env: Env, gate: Gate, n: nat)
    requires Located(d, c, n)
    ensures Located(d, StargateJump(d, c, env, gate), n)
  {
    hide Located, MoveToLocation, Tell;
    if gate.Gate? {
      LocatedFrame(d, c, Crossing(c, gate), n);
      MoveLocated(d, Crossing(c, gate), env, gate.system, n);
      var there := MoveToLocation(d, Crossing(c, gate), env, gate.system);
      var seen := Resend(d, there, env);
      LocatedFrame(d, there, seen, n);
      SetVarLocated(d, seen, NextSessionChange, Long(env.timerTime + NEXT_CHANGE), n);
      var jumped := StargateJump(d, c, env, gate);
      if !Free(c.move) || !gate.securityAllows {
      } else if !c.place.autopilot {
        LocatedFrame(d, c, jumped, n);
      } else {
        LocatedFrame(d, if InSpace(d, there) then SetSessionTimer(d, seen, env.timerTime) else there, jumped, n);
      }
    }
  }

  lemma ExecuteLocated(d: StaticData, c: Client, env: Env, n: nat)
    requires Located(d, c, n)
    ensures Located(d, ExecuteJump(d, c, env), n)
  {
    MoveLocated(d, Launching(c, State.Jump), env, c.move.system, n);
  }

  lemma ExecuteDriveLocated(d: StaticData, c: Client, env: Env, n: nat)
    requires Located(d, c, n)
    ensures Located(d, ExecuteDriveJump(d, c, env), n)
  {
    MoveLocated(d, Launching(c, DriveJump), env, c.move.system, n);
  }

  lemma ExecuteWormholeLocated(d: StaticData, c: Client, env: Env, n: nat)
    requires Located(d, c, n)
    ensures Located(d, ExecuteWormholeJump(d, c, env), n)
  {
    MoveLocated(d, Plunging(c), env, c.move.system, n);
  }

  lemma BallParkLocated(d: StaticData, c: Client, env: Env, n: nat)
    requires Located(d, c, n)
    ensures Located(d, SetBallPark(d, c, env), n)
  {
    hide Located;
    LocatedFrame(d, c, SetBallPark(d, c, env), n);
  }

  function Whereabouts(p: Place): (nat, nat, Ref, nat, nat, nat) {
    (p.location, p.systemData, p.system, p.charStation, p.charSystem, p.ship)
  }

  /** The invariant speaks of the link and of some of the place only. */
  lemma LocatedFrame(d: StaticData, c: Client, e: Client, n: nat)
    requires Located(d, c, n) && e.link == c.link && Whereabouts(e.place) == Whereabouts(c.place)
    ensures Located(d, e, n)
  {
  }

  lemma RetryLocated(d: StaticData, c: Client, env: Env, n: nat)
    requires Located(d, c, n)
    ensures Located(d, Retry(d, c, env), n)
  {
    assert Retry(d, c, env) == SendSessionChange(d, Tell(d, Retried(c), NextSessionChange, Long(env.now + RETRY_CHANGE)));
    LocatedFrame(d, c, Retried(c), n);
    NextChangeLocated(d, Retried(c), Long(env.now + RETRY_CHANGE), n);
  }

  lemma NextChangeLocated(d: StaticData, c: Client, v: Val, n: nat)
    requires Located(d, c, n)
    ensures Located(d, SendSessionChange(d, Tell(d, c, NextSessionChange, v)), n)
  {
    hide Located, SendSessionChange, Tell;
    SetVarLocated(d, c, NextSessionChange, v, n);
    SessionChangeLocated(d, Tell(d, c, NextSessionChange, v), n);
  }

  lemma WarpInLocated(d: StaticData, c: Client, env: Env, n: nat)
    requires Located(d, c, n)
    ensures Located(d, WarpIn(d, c, env), n)
  {
    hide Located, MoveToLocation;
    MoveLocated(d, c, env, c.place.systemData, n);
    var entered := if env.inBubble then c else MoveToLocation(d, c, env, c.place.systemData);
    LocatedFrame(d, entered, WarpIn(d, c, env), n);
  }

  lemma LoginLocated(d: StaticData, c: Client, env: Env, n: nat)
    requires Located(d, c, n)
    ensures Located(d, EndLogin(d, c, env), n)
  {
    hide Located, SetBallPark, WarpIn;
    var entered := c.(place := c.place.(login := false));
    LocatedFrame(d, c, entered, n);
    BallParkLocated(d, entered, env, n);
    WarpInLocated(d, SetBallPark(d, entered, env), env, n);
  }

  lemma StateLocated(d: StaticData, c: Client, state: State, n: nat)
    requires Located(d, c, n)
    ensures Located(d, WithState(c, state), n)
  {
  }

  lemma ExpiredLocated(d: StaticData, c: Client, env: Env, n: nat)
    requires Located(d, c, n)
    ensures Located(d, StateExpired(d, c, env), n)
  {
    hide Located, Retry, DockToStation, SetBallPark, SendSessionChange, EndLogin,
         ExecuteJump, ExecuteDriveJump, ExecuteWormholeJump;
    match c.move.state
    case Idle => RetryLocated(d, c, env, n);
    case Dock => DockLocated(d, c, env, n);
    case Undock =>
      BallParkLocated(d, c, env, n);
      StateLocated(d, SetBallPark(d, c, env), Idle, n);
    case Killed =>
      SessionChangeLocated(d, c, n);
      StateLocated(d, SendSessionChange(d, c), Idle, n);
    case Board =>
      SessionChangeLocated(d, c, n);
      StateLocated(d, SendSessionChange(d, c), Idle, n);
    case Login => LoginLocated(d, c, env, n);
    case LoginWarp =>
    case Jump => ExecuteLocated(d, c, env, n);
    case DriveJump => ExecuteDriveLocated(d, c, env, n);
    case WormholeJump => ExecuteWormholeLocated(d, c, env, n);
    case Logout =>
    case Uncloak =>
  }

  lemma TickLocated(d: StaticData, c: Client, env: Env, stateFires: bool, ballparkFires: bool, n: nat)
    requires Located(d, c, n)
    ensures Located(d, Tick(d, c, env, stateFires, ballparkFires), n)
  {
    hide Located, SetBallPark, StateExpired;
    if !Docked(d, c) && c.place.shipInSpace {
      var quiet := c.(move := c.move.(ballparkTimer := false));
      LocatedFrame(d, c, quiet, n);
      BallParkLocated(d, quiet, env, n);
      var parked := if c.move.ballparkTimer && ballparkFires then SetBallPark(d, quiet, env) else c;
      LocatedFrame(d, parked, parked.(move := parked.move.(stateTimer := false)), n);
      ExpiredLocated(d, parked.(move := parked.move.(stateTimer := false)), env, n);
    } else {
      LocatedFrame(d, c, Tick(d, c, env, stateFires, ballparkFires), n);
    }
  }

  lemma AboardLocated(d: StaticData, c: Client, ship: nat, now: int, n: nat)
    requires Located(d, c, n) && HashesApart(d, ship) && !Astray(d, c.place)
    ensures Located(d, SendSessionChange(d, ClientRuns.Aboard(d, c, ship, now)), n)
  {
    SetShipLocated(d, c, ship, n);
    var ashore := SetShip(d, c, ship);
    var aboard := ashore.(place := ashore.place.(shipInSpace := true));
    LocatedFrame(d, ashore, aboard, n);
    NextChangeLocated(d, aboard, Long(now + NEXT_CHANGE), n);
  }

  /** Boarding in a hangar keeps the view right exactly when the client is not astray. */
  lemma HangarLocated(d: StaticData, c: Client, ship: nat, now: int, n: nat)
    requires Located(d, c, n) && HashesApart(d, ship)
    ensures Located(d, ClientRuns.BoardShip(d, c, ship, now), n)
            <==> !(ClientRuns.Boards(c, ship) && Astray(d, c.place))
  {
    SetShipLocated(d, c, ship, n);
    SetShipSane(d, c, ship, n);
    var ashore := SetShip(d, c, ship);
    TimerSane(d, ashore, now, n);
  }

  lemma PoddedLocated(d: StaticData, c: Client, env: Env, pod: nat, clone: nat, n: nat)
    requires Located(d, c, n) && HashesApart(d, pod)
    ensures Located(d, ClientRuns.AfterPodded(d, c, env, pod, clone), n)
  {
    var manual := c.(place := c.place.(autopilot := false));
    LocatedFrame(d, c, manual, n);
    SetShipSane(d, manual, pod, n);
    var dead := ClientRuns.Podding(d, c, pod);
    MoveSane(d, dead, env, clone, n);
    var woken := MoveToLocation(d, dead, env, clone);
    UpdatedLocated(d, woken, env.timerTime, n);
    SessionChangeLocated(d, UpdateSession(d, woken, env.timerTime), n);
  }

  /** None does not hash as a ship that is boarded. */
  predicate Usual(d: StaticData, op: ClientRuns.Op) {
    match op
    case BoardInSpace(ship, _) => HashesApart(d, ship)
    case BoardInHangar(ship, _) => HashesApart(d, ship)
    case Popped(pod, _) => HashesApart(d, pod)
    case Podded(pod, _, _) => HashesApart(d, pod)
    case _ => true
  }

  /** A new ship boarded as in a hangar while the client is astray. (Ships in space take a
      system, and one that is killed is shown its clone's station at once.) */
  predicate Mixes(d: StaticData, c: Client, op: ClientRuns.Op) {
    op.BoardInHangar? && ClientRuns.Boards(c, op.ship) && Astray(d, c.place)
  }

  /** Operations that neither move the client nor change its session. */
  predicate Silent(op: ClientRuns.Op) {
    op.RequestDrive? || op.RequestDock? || op.ChooseDock? || op.WarpDone? || op.UndockOver?
    || op.SetAutopilot? || op.Offer? || op.OfferEvent? || op.Flush? || op.DeclareState?
    || op.RequestState?
  }

  lemma SilentFrame(d: StaticData, c: Client, op: ClientRuns.Op)
    requires Silent(op)
    ensures var e := ClientRuns.ClientStep(d, c, op);
            e.link == c.link && Whereabouts(e.place) == Whereabouts(c.place)
  {
  }

  lemma SilentLocated(d: StaticData, c: Client, op: ClientRuns.Op, n: nat)
    requires Located(d, c, n) && Silent(op)
    ensures Located(d, ClientRuns.ClientStep(d, c, op), n)
  {
    SilentFrame(d, c, op);
    LocatedFrame(d, c, ClientRuns.ClientStep(d, c, op), n);
  }

  lemma BeyonceLocated(d: StaticData, c: Client, env: Env, n: nat)
    requires Located(d, c, n)
    ensures Located(d, BindBeyonce(d, c, env), n)
  {
    var bound := c.(place := c.place.(beyonce := true));
    LocatedFrame(d, c, bound, n);
    BallParkLocated(d, bound, env, n);
  }

  lemma ShipStepLocated(d: StaticData, c: Client, op: ClientRuns.Op, n: nat)
    requires Located(d, c, n) && Usual(d, op) && (op.BoardInSpace? || op.BoardInHangar? || op.Popped?)
    ensures Located(d, ClientRuns.ClientStep(d, c, op), n) <==> !Mixes(d, c, op)
  {
    hide SendSessionChange, ClientRuns.Aboard, ClientRuns.BoardShip, Sane, ServerView;
    match op
    case BoardInSpace(ship, now) =>
      if ClientRuns.Flies(c) {
        AboardLocated(d, c, ship, now, n);
      }
    case BoardInHangar(ship, now) => HangarLocated(d, c, ship, now, n);
    case Popped(pod, now) =>
      if ClientRuns.Flies(c) {
        LocatedFrame(d, c, ClientRuns.Popping(c), n);
        AboardLocated(d, ClientRuns.Popping(c), pod, now, n);
      }
  }

  lemma OtherStepLocated(d: StaticData, c: Client, op: ClientRuns.Op, n: nat)
    requires Located(d, c, n) && Usual(d, op) && !(op.BoardInSpace? || op.BoardInHangar? || op.Popped?)
    requires !op.RequestWormhole? && !op.Passing?
    ensures Located(d, ClientRuns.ClientStep(d, c, op), n)
  {
    hide Located, StargateJump, MoveToLocation, UndockFromStation, BindBeyonce,
         ClientRuns.AfterPodded, ClientRuns.ShareValues;
    match op
    case RequestGate(gate, env) => GateLocated(d, c, env, gate, n);
    case Beyonce(env) => BeyonceLocated(d, c, env, n);
    case LeaveStation(env) => UndockLocated(d, c, env, n);
    case Podded(pod, clone, env) => PoddedLocated(d, c, env, pod, clone, n);
    case Relocate(location, env) => MoveLocated(d, c, env, location, n);
    case SessionTimer(now) => SetVarLocated(d, c, NextSessionChange, Long(now + NEXT_CHANGE), n);
    case Share(values, send) => ShareLocated(d, c, values, send, n);
    case _ => SilentLocated(d, c, op, n);
  }

  /** Every step keeps the invariant, except exactly those that mix the view. */
  lemma StepLocated(d: StaticData, j: ClientRuns.Joint, op: ClientRuns.Op, n: nat)
    requires Located(d, j.client, n) && Usual(d, op)
    ensures Located(d, ClientRuns.Step(d, j, op).client, n) <==> !Mixes(d, j.client, op)
  {
    hide Located, ClientRuns.ClientStep, Tick;
    var c := j.client;
    if op.RequestWormhole? {
      LocatedFrame(d, c, ClientRuns.RequestWormholeJump(c, j.holes, op.hole, op.shipMass, op.spawn, op.offset).client, n);
    } else if op.Passing? {
      TickLocated(d, c, op.env, op.stateFires, op.ballparkFires, n);
    } else if op.BoardInSpace? || op.BoardInHangar? || op.Popped? {
      ShipStepLocated(d, c, op, n);
    } else {
      OtherStepLocated(d, c, op, n);
    }
  }

  /** No step of the run mixes the view. */
  ghost predicate NeverMixes(d: StaticData, j: ClientRuns.Joint, ops: seq<ClientRuns.Op>) {
    ops != [] ==>
      && NeverMixes(d, j, ops[..|ops| - 1])
      && !Mixes(d, ClientRuns.Run(d, j, ops[..|ops| - 1]).client, ops[|ops| - 1])
  }

  lemma {:induction false} RunLocated(d: StaticData, j: ClientRuns.Joint, ops: seq<ClientRuns.Op>, n: nat)
    requires Located(d, j.client, n) && NeverMixes(d, j, ops) && forall op :: op in ops ==> Usual(d, op)
    ensures Located(d, ClientRuns.Run(d, j, ops).client, n)
  {
    if ops != [] {
      RunLocated(d, j, ops[..|ops| - 1], n);
      StepLocated(d, ClientRuns.Run(d, j, ops[..|ops| - 1]), ops[|ops| - 1], n);
    }
  }

  // ----------------------------------------------------------------------- theorems

  /** What a connection holds before a character is chosen: nothing of a location. */
  ghost predicate Connected(d: StaticData, c: Client) {
    && WellFlagged(d.hash, c.link.store) && InSync(c.link)
    && ServerView(c.link.store) == View(None, None, None, None, None, None, None)
    && c.place.login && !IsJump(c.move.state)
  }

  /** The database row of a character that exists. */
  predicate Consistent(d: StaticData, row: Row) {
    && IsSolarSystem(d, row.system) && HashesApart(d, row.ship)
    && (IsStation(d, row.station) ==> SystemOf(d, row.station) == row.system)
    && (!IsStation(d, row.station) ==> row.station == 0)
  }

  lemma ProfileView(d: StaticData, view: View, row: Row)
    requires PlacesHashApart(d) && Consistent(d, row)
    ensures Overlaid(view, ProfileWrites(row)) == view.(system2 := Int(row.system))
    ensures KnownWrites(d, ProfileWrites(row))
  {
    var a := Write(SharedWrites(Done, row.identity), SolarSystemId2, Int(row.system));
    SharedView(d, view, Done, row.identity);
    assert Known(d, Int(row.system));
    assert Overlaid(view, a) == view.(system2 := Int(row.system)) && KnownWrites(d, a);
    var b := Write(Write(a, ConstellationId, Int(row.constellation)), RegionId, Int(row.region));
    assert Overlaid(view, b.before) == Overlaid(view, a) && KnownWrites(d, b.before);
    assert Overlaid(view, b) == Overlaid(view, a) && KnownWrites(d, b);
    SharedView(d, view, b, row.corporation);
  }

  lemma InitStationView(d: StaticData, view: View, before: Writes, station: nat)
    requires PlacesHashApart(d) && IsStation(d, station) && KnownWrites(d, before)
    ensures var w := InitStation(before, station);
            && KnownWrites(d, w)
            && Overlaid(view, w) == View(Int(station), Int(station), Int(station), Int(station),
                                         None, Overlaid(view, before).system2, None)
  {
    var w := InitStation(before, station);
    assert Known(d, Int(station));
    var v := Overlaid(view, before);
    assert Overlaid(view, w.before.before.before.before) == v.(system := None, ship := None);
    assert Overlaid(view, w.before.before)
           == v.(system := None, ship := None, station := Int(station), station2 := Int(station));
    assert KnownWrites(d, w.before.before.before.before);
    assert KnownWrites(d, w.before.before);
  }

  lemma InitSpaceView(d: StaticData, view: View, before: Writes, system: nat, ship: nat)
    requires PlacesHashApart(d) && IsSolarSystem(d, system) && HashesApart(d, ship) && KnownWrites(d, before)
    ensures var w := InitSpace(before, system, ship);
            && KnownWrites(d, w)
            && Overlaid(view, w) == View(None, None, None, Int(system), Int(system),
                                         Overlaid(view, before).system2, Int(ship))
  {
    var w := InitSpace(before, system, ship);
    assert Known(d, Int(system)) && Known(d, Int(ship));
    var v := Overlaid(view, before);
    assert Overlaid(view, w.before.before.before.before) == v.(station := None, station2 := None);
    assert Overlaid(view, w.before.before)
           == v.(station := None, station2 := None, worldspace := None, ship := Int(ship));
    assert KnownWrites(d, w.before.before.before.before);
    assert KnownWrites(d, w.before.before);
  }

  lemma InitView(d: StaticData, view: View, row: Row)
    requires PlacesHashApart(d) && Consistent(d, row)
    ensures KnownWrites(d, InitWrites(d, row))
    ensures Shaped(Overlaid(view, InitWrites(d, row)))
  {
    var p := ProfileWrites(row);
    ProfileView(d, view, row);
    if IsStation(d, row.station) {
      InitStationView(d, view, p, row.station);
    } else {
      InitSpaceView(d, view, p, row.system, row.ship);
    }
  }

  lemma SelectLocated(d: StaticData, c: Client, env: Env, row: Row)
    requires PlacesHashApart(d) && Connected(d, c) && Consistent(d, row) && env.boots
    ensures Located(d, SelectCharacter(d, c, env, row), |c.link.sent|)
  {
    var known := InitSession(d, c, row);
    var n := |c.link.sent|;
    InitView(d, ServerView(c.link.store), row);
    SaneWrites(d, c.link, n, InitWrites(d, row));
    var loaded := known.(place := known.place.(system := To(known.place.systemData),
                                               charStation := row.station, charSystem := row.system));
    var b := Depart(d, loaded, loaded.place.location);
    ArriveLocated(d, b, env, n);
    var there := MoveToLocation(d, loaded, env, loaded.place.location);
    assert there == Arrive(d, b, env);
    LocatedFrame(d, there, SelectCharacter(d, c, env, row), n);
  }

  lemma LawfulMeans(d: StaticData, c: Client, n: nat)
    requires Located(d, c, n)
    ensures AllShaped(c.link.sent, n)
    ensures ShowsCharacter(d, c.place, ServerView(c.link.store))
    ensures !c.link.store.dirty ==> ClientView(c.link.sent) == ServerView(c.link.store)
  {
    if !c.link.store.dirty {
      CleanInSync(d.hash, c.link);
    }
  }

  /** Once a character is chosen, after every run in which no ship is changed while the
      client is astray: each view the client was brought to since is that of a docked client
      or that of one in space, the server's is the one for where the character is, and a
      clean session means that the client's is too. */
  lemma AtomicView(d: StaticData, c: Client, env: Env, row: Row, holes: ClientRuns.Holes, ops: seq<ClientRuns.Op>)
    requires PlacesHashApart(d) && Connected(d, c) && Consistent(d, row) && env.boots
    requires NeverMixes(d, ClientRuns.Joint(SelectCharacter(d, c, env, row), holes), ops)
    requires forall op :: op in ops ==> Usual(d, op)
    ensures var now := ClientRuns.Run(d, ClientRuns.Joint(SelectCharacter(d, c, env, row), holes), ops).client;
            && AllShaped(now.link.sent, |c.link.sent|)
            && ShowsCharacter(d, now.place, ServerView(now.link.store))
            && (!now.link.store.dirty ==> ClientView(now.link.sent) == ServerView(now.link.store))
  {
    SelectLocated(d, c, env, row);
    var start := ClientRuns.Joint(SelectCharacter(d, c, env, row), holes);
    RunLocated(d, start, ops, |c.link.sent|);
    LawfulMeans(d, ClientRuns.Run(d, start, ops).client, |c.link.sent|);
  }

  // ------------------------------------------------------------------ going astray

  /** The client and its character are at the same place. */
  predicate Together(d: StaticData, p: Place) {
    if IsStation(d, p.charStation) then p.location == p.charStation
    else p.location == p.charSystem && p.charStation == 0
  }

  lemma TogetherNotAstray(d: StaticData, p: Place)
    requires Together(d, p)
    ensures !Astray(d, p)
  {
    assert d.stations.Keys !! d.systems.Keys;
    if IsStation(d, p.charStation) {
      assert p.location in d.stations.Keys;
    }
  }

  /** Only a system that does not boot takes them apart, and only if it must be entered. */
  lemma MoveTogether(d: StaticData, c: Client, env: Env, location: nat)
    requires Together(d, c.place) && Placed(d, c.place)
    requires IsStation(d, location) || IsSolarSystem(d, location)
    ensures var r := MoveToLocation(d, c, env, location);
            var stays := !c.place.login && c.place.location == location && !IsStation(d, location);
            Together(d, r.place) <==> stays || env.boots || Depart(d, c, location).place.system != Null
                                      || location == c.place.location
  {
    var b := Depart(d, c, location);
    ArriveTogether(d, b, env);
    ArriveTogether(d, Boot(b), env);
  }

  lemma ArriveTogether(d: StaticData, c: Client, env: Env)
    requires Docked(d, c) || InSpace(d, c)
    requires c.place.systemData == SystemOf(d, c.place.location)
    ensures Together(d, Arrive(d, c, env).place)
  {
    assert c.place.location != 0 && 0 !in d.stations;
  }

  lemma LastView(sent: seq<Packet>)
    ensures ViewAt(sent, |sent|) == ClientView(sent)
  {
    assert sent[..|sent|] == sent;
  }

  /** A flush after a client boarded a ship in its hangar while astray shows it a mixture: a
      ship at a station. */
  lemma HangarShowsMixture(d: StaticData, c: Client, ship: nat, now: int, n: nat)
    requires Located(d, c, n) && HashesApart(d, ship) && Astray(d, c.place) && ClientRuns.Boards(c, ship)
    ensures var r := SendSessionChange(d, ClientRuns.BoardShip(d, c, ship, now));
            !Shaped(ClientView(r.link.sent)) && !AllShaped(r.link.sent, n)
  {
    hide SendChanges, Session.Set, ClientView;
    var told := SetIn(d.hash, c.link, ShipId, Int(ship));
    var l := SetIn(d.hash, told, NextSessionChange, Long(now + NEXT_CHANGE));
    SetShipSane(d, c, ship, n);
    var ashore := SetShip(d, c, ship);
    TimerSane(d, ashore, now, n);
    assert Current(c.link.store, ShipId) == ServerView(c.link.store).ship;
    ShipFlagged(d, c.link, ship, Long(now + NEXT_CHANGE));
    assert WellFlagged(d.hash, l.store);
    assert c.place.location != 0;
    assert SendSessionChange(d, ClientRuns.BoardShip(d, c, ship, now)).link == SendChanges(l);
    FlushView(d, l);
    LastView(SendChanges(l).sent);
  }

  lemma ShipFlagged(d: StaticData, l: Link, ship: nat, v: Val)
    requires WellFlagged(d.hash, l.store) && Current(l.store, ShipId) == None
    requires PlacesHashApart(d) && HashesApart(d, ship)
    ensures var m := SetIn(d.hash, SetIn(d.hash, l, ShipId, Int(ship)), NextSessionChange, v);
            m.store.dirty && |SendChanges(m).sent| == |l.sent| + 1
  {
    var told := SetIn(d.hash, l, ShipId, Int(ship));
    var m := SetIn(d.hash, told, NextSessionChange, v);
    WellFlaggedSet(d.hash, l.store, ShipId, Int(ship));
    WellFlaggedSet(d.hash, told.store, NextSessionChange, v);
    ChangesAreFlagged(d.hash, m.store);
    assert Flagged(m.store, ShipId);
    assert ShipId in Changes(m.store);
  }

  /** So the view is not always one or the other: a docked client sent to a system that
      does not boot goes astray, and a ship boarded in its hangar then mixes its view at the
      next flush. */
  lemma BootFailureMixesView(d: StaticData, c: Client, holes: ClientRuns.Holes, env: Env, system: nat, ship: nat,
                             now: int, n: nat)
    requires Located(d, c, n) && Together(d, c.place) && Docked(d, c)
    requires IsSolarSystem(d, system) && c.place.system != To(system) && !env.boots
    requires HashesApart(d, ship) && ship != c.place.ship
    ensures var ops := [ClientRuns.Relocate(system, env), ClientRuns.BoardInHangar(ship, now), ClientRuns.Share([], true)];
            var r := ClientRuns.Run(d, ClientRuns.Joint(c, holes), ops).client;
            !Shaped(ClientView(r.link.sent)) && !AllShaped(r.link.sent, n)
  {
    hide MoveToLocation, SendSessionChange, ClientRuns.BoardShip, ClientRuns.Run,
         ClientView, ServerView, Located, Shaped, AllShaped;
    ClientRuns.RunThree(d, ClientRuns.Joint(c, holes), ClientRuns.Relocate(system, env),
                        ClientRuns.BoardInHangar(ship, now), ClientRuns.Share([], true));
    MoveLocated(d, c, env, system, n);
    LocatedPlaced(d, c, n);
    FailedBootAstray(d, c, env, system);
    var astray := MoveToLocation(d, c, env, system);
    HangarShowsMixture(d, astray, ship, now, n);
    NothingShared(d, ClientRuns.BoardShip(d, astray, ship, now));
  }

  lemma LocatedPlaced(d: StaticData, c: Client, n: nat)
    requires Located(d, c, n)
    ensures Placed(d, c.place)
  {
  }

  lemma NothingShared(d: StaticData, c: Client)
    ensures ClientRuns.ShareValues(d, c, [], true) == SendSessionChange(d, c)
  {
  }

  lemma FailedBootAstray(d: StaticData, c: Client, env: Env, system: nat)
    requires Together(d, c.place) && Placed(d, c.place) && Docked(d, c)
    requires IsSolarSystem(d, system) && c.place.system != To(system) && !env.boots
    ensures var r := MoveToLocation(d, c, env, system); Astray(d, r.place) && r.place.ship == c.place.ship
  {
    assert d.stations.Keys !! d.systems.Keys;
    assert c.place.location in d.stations.Keys && c.place.charSystem in d.systems.Keys && system in d.systems.Keys;
  }
}
