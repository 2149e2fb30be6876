/** As long as every system boots, client and character stay together, and so the client is
    never shown a mixture. */
module BootedRuns {
  import opened ClientState
  import opened ClientRuns
  import opened LocationView
  import LocationRuns
  import SessionReplica

  /** The system an operation may have to enter boots. */
  predicate Boots(op: Op) {
    match op
    case RequestGate(_, env) => env.boots
    case Passing(env, _, _, _) => env.boots
    case LeaveStation(env) => env.boots
    case Podded(_, _, env) => env.boots
    case Relocate(_, env) => env.boots
    case _ => true
  }

  /** The client is somewhere, and its character is there too. */
  predicate WithCharacter(d: StaticData, p: Place) {
    (IsStation(d, p.location) || IsSolarSystem(d, p.location)) && LocationRuns.Together(d, p)
  }

  predicate SameSpot(p: Place, q: Place) {
    p.location == q.location && p.charStation == q.charStation && p.charSystem == q.charSystem
  }

  lemma ChangeStays(d: StaticData, c: Client)
    requires WithCharacter(d, c.place)
    ensures SendSessionChange(d, c).place == c.place
  {
    assert c.place.location != 0;
  }

  lemma MoveWithCharacter(d: StaticData, c: Client, env: Env, location: nat)
    requires WithCharacter(d, c.place) && env.boots
    ensures WithCharacter(d, MoveToLocation(d, c, env, location).place)
  {
    hide Arrive;
    if IsStation(d, location) || IsSolarSystem(d, location) {
      var b := Depart(d, c, location);
      LocationRuns.ArriveTogether(d, b, env);
      LocationRuns.ArriveTogether(d, Boot(b), env);
      ArriveWhere(d, b, env);
      ArriveWhere(d, Boot(b), env);
    }
  }

  lemma ArriveWhere(d: StaticData, c: Client, env: Env)
    requires Docked(d, c) || InSpace(d, c)
    ensures Arrive(d, c, env).place.location == c.place.location
  {
    assert c.place.location != 0;
  }

  lemma BallParkStays(d: StaticData, c: Client, env: Env)
    ensures SetBallPark(d, c, env).place == c.place
  {
  }

  lemma DockUndockWithCharacter(d: StaticData, c: Client, env: Env)
    requires WithCharacter(d, c.place) && env.boots
    ensures WithCharacter(d, DockToStation(d, c, env).place)
    ensures WithCharacter(d, UndockFromStation(d, c, env).place)
  {
    hide MoveToLocation, SendSessionChange;
    MoveWithCharacter(d, Docking(c), env, c.place.dockStation);
    ChangeStays(d, SetSessionTimer(d, MoveToLocation(d, Docking(c), env, c.place.dockStation), env.timerTime));
    MoveWithCharacter(d, Undocking(c), env, c.place.systemData);
    var outside := MoveToLocation(d, Undocking(c), env, c.place.systemData);
    var timed := outside.(move := SetStateTimer(outside.move, State.Undock, UNDOCK_TIME));
    ChangeStays(d, SetSessionTimer(d, timed, env.timerTime));
  }

  lemma GateWithCharacter(d: StaticData, c: Client, env: Env, gate: Gate)
    requires WithCharacter(d, c.place) && env.boots
    ensures WithCharacter(d, StargateJump(d, c, env, gate).place)
  {
    hide MoveToLocation;
    if gate.Gate? {
      MoveWithCharacter(d, Crossing(c, gate), env, gate.system);
    }
  }

  lemma ExecuteWithCharacter(d: StaticData, c: Client, env: Env)
    requires WithCharacter(d, c.place) && env.boots
    ensures WithCharacter(d, ExecuteJump(d, c, env).place)
    ensures WithCharacter(d, ExecuteDriveJump(d, c, env).place)
    ensures WithCharacter(d, ExecuteWormholeJump(d, c, env).place)
  {
    hide MoveToLocation;
    MoveWithCharacter(d, Launching(c, State.Jump), env, c.move.system);
    MoveWithCharacter(d, Launching(c, DriveJump), env, c.move.system);
    MoveWithCharacter(d, Plunging(c), env, c.move.system);
  }

  lemma LoginWithCharacter(d: StaticData, c: Client, env: Env)
    requires WithCharacter(d, c.place) && env.boots
    ensures WithCharacter(d, EndLogin(d, c, env).place)
  {
    hide MoveToLocation, SetBallPark;
    var entered := c.(place := c.place.(login := false));
    BallParkStays(d, entered, env);
    var seen := SetBallPark(d, entered, env);
    MoveWithCharacter(d, seen, env, seen.place.systemData);
  }

  lemma ExpiredWithCharacter(d: StaticData, c: Client, env: Env)
    requires WithCharacter(d, c.place) && env.boots
    ensures WithCharacter(d, StateExpired(d, c, env).place)
  {
    hide SetBallPark, EndLogin, ExecuteJump, ExecuteDriveJump, ExecuteWormholeJump, DockToStation, SendSessionChange;
    match c.move.state
    case Idle =>
      ChangeStays(d, Tell(d, Retried(c), Session.NextSessionChange, Session.Long(env.now + RETRY_CHANGE)));
    case Dock => DockUndockWithCharacter(d, c, env);
    case Undock => BallParkStays(d, c, env);
    case Killed => ChangeStays(d, c);
    case Board => ChangeStays(d, c);
    case Login => LoginWithCharacter(d, c, env);
    case Jump => ExecuteWithCharacter(d, c, env);
    case DriveJump => ExecuteWithCharacter(d, c, env);
    case WormholeJump => ExecuteWithCharacter(d, c, env);
    case _ =>
  }

  lemma TickWithCharacter(d: StaticData, c: Client, env: Env, stateFires: bool, ballparkFires: bool)
    requires WithCharacter(d, c.place) && env.boots
    ensures WithCharacter(d, Tick(d, c, env, stateFires, ballparkFires).place)
  {
    hide SetBallPark, StateExpired;
    if !Docked(d, c) && c.place.shipInSpace {
      BallParkStays(d, c.(move := c.move.(ballparkTimer := false)), env);
      var parked := Parked(d, c, env, ballparkFires);
      ExpiredWithCharacter(d, parked.(move := parked.move.(stateTimer := false)), env);
    }
  }

  /** Operations that move neither the client nor its character. */
  predicate Stays(op: Op) {
    !op.RequestGate? && !op.RequestWormhole? && !op.Passing? && !op.LeaveStation? && !op.Podded? && !op.Relocate?
  }

  lemma ShipStays(d: StaticData, c: Client, ship: nat, now: int)
    requires WithCharacter(d, c.place)
    ensures SameSpot(SendSessionChange(d, Aboard(d, c, ship, now)).place, c.place)
  {
    hide SendSessionChange;
    ChangeStays(d, Aboard(d, c, ship, now));
  }

  lemma StaysWithCharacter(d: StaticData, c: Client, op: Op)
    requires WithCharacter(d, c.place) && Stays(op)
    ensures SameSpot(ClientStep(d, c, op).place, c.place)
  {
    hide SendSessionChange, SetBallPark, SetAll, Aboard;
    match op
    case Beyonce(env) => BallParkStays(d, c.(place := c.place.(beyonce := true)), env);
    case BoardInSpace(ship, now) => ShipStays(d, c, ship, now);
    case BoardInHangar(_, _) =>
    case Popped(pod, now) => ShipStays(d, Popping(c), pod, now);
    case SessionTimer(_) =>
    case Share(values, _) => ChangeStays(d, c.(link := SetAll(d.hash, c.link, SharedWrites(Done, values))));
    case _ =>
      hide ClientStep;
      LocationRuns.SilentFrame(d, c, op);
  }

  lemma PoddedWithCharacter(d: StaticData, c: Client, env: Env, pod: nat, clone: nat)
    requires WithCharacter(d, c.place) && env.boots
    ensures WithCharacter(d, AfterPodded(d, c, env, pod, clone).place)
  {
    hide MoveToLocation, SendSessionChange;
    MoveWithCharacter(d, Podding(d, c, pod), env, clone);
    ChangeStays(d, UpdateSession(d, MoveToLocation(d, Podding(d, c, pod), env, clone), env.timerTime));
  }

  lemma StepWithCharacter(d: StaticData, j: Joint, op: Op)
    requires WithCharacter(d, j.client.place) && Boots(op)
    ensures WithCharacter(d, Step(d, j, op).client.place)
  {
    hide StargateJump, UndockFromStation, AfterPodded, MoveToLocation, Tick, WithCharacter;
    var c := j.client;
    match op
    case RequestGate(gate, env) => GateWithCharacter(d, c, env, gate);
    case RequestWormhole(_, _, _, _) => SpotWithCharacter(d, c.place, Step(d, j, op).client.place);
    case Passing(env, stateFires, ballparkFires, _) => TickWithCharacter(d, c, env, stateFires, ballparkFires);
    case LeaveStation(env) => DockUndockWithCharacter(d, c, env);
    case Podded(pod, clone, env) => PoddedWithCharacter(d, c, env, pod, clone);
    case Relocate(location, env) => MoveWithCharacter(d, c, env, location);
    case _ =>
      hide ClientStep;
      StaysWithCharacter(d, c, op);
      SpotWithCharacter(d, c.place, Step(d, j, op).client.place);
  }

  lemma SpotWithCharacter(d: StaticData, p: Place, q: Place)
    requires WithCharacter(d, p) && SameSpot(p, q)
    ensures WithCharacter(d, q)
  {
  }

  lemma {:induction false} RunWithCharacter(d: StaticData, j: Joint, ops: seq<Op>)
    requires WithCharacter(d, j.client.place) && forall op :: op in ops ==> Boots(op)
    ensures WithCharacter(d, Run(d, j, ops).client.place)
    ensures LocationRuns.NeverMixes(d, j, ops)
  {
    hide Step, Boots;
    if ops != [] {
      var front, op := ops[..|ops| - 1], ops[|ops| - 1];
      assert op in ops;
      RunWithCharacter(d, j, front);
      StepWithCharacter(d, Run(d, j, front), op);
      LocationRuns.TogetherNotAstray(d, Run(d, j, front).client.place);
    }
  }

  lemma SelectWithCharacter(d: StaticData, c: Client, env: Env, row: Row)
    requires LocationRuns.Connected(d, c) && LocationRuns.Consistent(d, row) && env.boots
    ensures WithCharacter(d, SelectCharacter(d, c, env, row).place)
  {
    hide MoveToLocation;
    var known := InitSession(d, c, row);
    var loaded := known.(place := known.place.(system := To(known.place.systemData),
                                               charStation := row.station, charSystem := row.system));
    assert WithCharacter(d, loaded.place);
    MoveWithCharacter(d, loaded, env, loaded.place.location);
  }

  /** Once a character is chosen, over every run in which the systems to be entered boot:
      no view the client is brought to is ever a mixture, the server's is the one for where
      the client is, and a clean session means that the client's is too. */
  lemma NeverAMixture(d: StaticData, c: Client, env: Env, row: Row, holes: Holes, ops: seq<Op>)
    requires PlacesHashApart(d) && LocationRuns.Connected(d, c) && LocationRuns.Consistent(d, row) && env.boots
    requires forall op :: op in ops ==> LocationRuns.Usual(d, op) && Boots(op)
    ensures var now := Run(d, Joint(SelectCharacter(d, c, env, row), holes), ops).client;
            && AllShaped(now.link.sent, |c.link.sent|)
            && WithCharacter(d, now.place) && ShowsCharacter(d, now.place, ServerView(now.link.store))
            && (!now.link.store.dirty ==> ClientView(now.link.sent) == ServerView(now.link.store))
  {
    hide Run, SelectCharacter, WithCharacter, LocationRuns.Usual, Boots, AllShaped, ShowsCharacter;
    SelectWithCharacter(d, c, env, row);
    RunWithCharacter(d, Joint(SelectCharacter(d, c, env, row), holes), ops);
    LocationRuns.AtomicView(d, c, env, row, holes, ops);
  }
}
