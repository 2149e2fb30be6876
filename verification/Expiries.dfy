/** What a tick does in the end, state by state: where the client is when a jump or a docking
    is due, what it is sent, and what it is free for then. */
module Expiries {
  import opened ClientState
  import opened ClientRuns
  import opened SessionKeys
  import opened Arrivals
  import DestinyLanes
  import FullStateFirst
  import JumpTargets
  import LocationRuns
  import LocationView
  import Session

  /** In space with a ship, the state timer runs out, and the ballpark timer does not. */
  predicate Due(d: StaticData, c: Client, stateFires: bool, ballparkFires: bool) {
    && c.place.location !in d.stations && c.place.shipInSpace
    && c.move.stateTimer && stateFires && !(c.move.ballparkTimer && ballparkFires)
  }

  function Quiet(c: Client): Client {
    c.(move := c.move.(stateTimer := false))
  }

  lemma DueExpires(d: StaticData, c: Client, env: Env, stateFires: bool, ballparkFires: bool)
    requires Due(d, c, stateFires, ballparkFires)
    ensures Tick(d, c, env, stateFires, ballparkFires) == StateExpired(d, Quiet(c), env)
  {
    hide StateExpired, SetBallPark;
  }

  // ------------------------------------------------------------------------- jumps

  /** The lanes of a client that has entered a system: the full state is due. */
  function Entered(l: DestinyLanes.Lanes): DestinyLanes.Lanes {
    l.(bubbleWait := false, setStateSent := false)
  }

  /** The target of a jump that has been made, in the history too. */
  function Landed(m: Move): Move {
    m.(system := 0, point := NULL_ORIGIN, trace := Then(m.trace, Moved(m.state, m.system, m.point)))
  }

  /** What a jump needs: a target, and a system that boots and that the client is not in. */
  predicate CanLand(d: StaticData, c: Client, env: Env) {
    c.move.point != NULL_ORIGIN && env.boots && c.move.system in d.systems && !Already(d, c, c.move.system)
  }

  /** A gate jump that is due puts client, character and ship into the system of the jump,
      tells the client, and sends the full state; the client is free then but for a timer. */
  lemma GateJumpLands(d: StaticData, c: Client, env: Env, stateFires: bool, ballparkFires: bool)
    requires Due(d, c, stateFires, ballparkFires) && Orderly(d, c.link) && FullStateFirst.Whole(env)
    requires c.move.state == State.Jump && CanLand(d, c, env)
    ensures var r := Tick(d, c, env, stateFires, ballparkFires);
            && r.place == SettledAt(d, c.place, c.move.system).(beyonce := false)
            && r.move == Landed(c.move).(state := Idle)
            && r.lanes == (if env.inBubble then FullStateFirst.WithFullState(Entered(c.lanes), env.snapshot)
                           else Entered(c.lanes))
            && Announced(d, c.link, r.link, r.place, env.now)
  {
    hide MoveToLocation, Resend, Announced, StateExpired, Orderly, FullStateFirst.WithFullState;
    DueExpires(d, c, env, stateFires, ballparkFires);
    Disjoint(d, c.move.system);
    var jumping := Launching(Quiet(c), State.Jump);
    MoveSettles(d, jumping, env, c.move.system);
    var there := MoveToLocation(d, jumping, env, c.move.system);
    FullStateFirst.FullStateGoesOut(d, there, env);
    JumpExpires(d, Quiet(c), env);
  }

  lemma JumpExpires(d: StaticData, c: Client, env: Env)
    ensures c.move.state == State.Jump ==> StateExpired(d, c, env) == ExecuteJump(d, c, env)
    ensures c.move.state == State.DriveJump ==> StateExpired(d, c, env) == ExecuteDriveJump(d, c, env)
    ensures c.move.state == State.WormholeJump ==> StateExpired(d, c, env) == ExecuteWormholeJump(d, c, env)
  {
    hide ExecuteJump, ExecuteDriveJump, ExecuteWormholeJump;
  }

  /** A drive jump that is due does the same, but waits for the ballpark with its state kept. */
  lemma DriveJumpLands(d: StaticData, c: Client, env: Env, stateFires: bool, ballparkFires: bool)
    requires Due(d, c, stateFires, ballparkFires) && Orderly(d, c.link)
    requires c.move.state == State.DriveJump && CanLand(d, c, env)
    ensures var r := Tick(d, c, env, stateFires, ballparkFires);
            && r.place == SettledAt(d, c.place, c.move.system).(beyonce := false)
            && r.move == Landed(c.move).(stateTimer := false, ballparkTimer := true)
            && r.lanes == Entered(c.lanes)
            && Announced(d, c.link, r.link, r.place, env.now)
  {
    hide MoveToLocation, Announced, StateExpired, Orderly;
    DueExpires(d, c, env, stateFires, ballparkFires);
    Disjoint(d, c.move.system);
    MoveSettles(d, Launching(Quiet(c), State.DriveJump), env, c.move.system);
    JumpExpires(d, Quiet(c), env);
  }

  /** A wormhole jump too; the client is idle and out of the wormhole. */
  lemma WormholeJumpLands(d: StaticData, c: Client, env: Env, stateFires: bool, ballparkFires: bool)
    requires Due(d, c, stateFires, ballparkFires) && Orderly(d, c.link)
    requires c.move.state == State.WormholeJump && CanLand(d, c, env)
    ensures var r := Tick(d, c, env, stateFires, ballparkFires);
            && r.place == SettledAt(d, c.place, c.move.system).(beyonce := false)
            && r.move == Landed(c.move).(state := Idle, stateTimer := false, ballparkTimer := true, wormhole := 0)
            && r.lanes == Entered(c.lanes)
            && Announced(d, c.link, r.link, r.place, env.now)
  {
    hide MoveToLocation, Announced, StateExpired, Orderly;
    DueExpires(d, c, env, stateFires, ballparkFires);
    Disjoint(d, c.move.system);
    MoveSettles(d, Plunging(Quiet(c)), env, c.move.system);
    JumpExpires(d, Quiet(c), env);
  }

  /** A jump without a target point only makes the client idle. */
  lemma NoTarget(d: StaticData, c: Client, env: Env, stateFires: bool, ballparkFires: bool)
    requires Due(d, c, stateFires, ballparkFires) && c.move.point == NULL_ORIGIN
    requires c.move.state in {State.Jump, State.DriveJump, State.WormholeJump}
    ensures Tick(d, c, env, stateFires, ballparkFires) == c.(move := c.move.(stateTimer := false, state := Idle))
  {
    DueExpires(d, c, env, stateFires, ballparkFires);
  }

  /** Every jump that is executed, of any kind, and whether or not the system boots, puts the
      client into the system stored for it. */
  lemma JumpGoes(d: StaticData, c: Client, env: Env, stateFires: bool, ballparkFires: bool)
    requires Executes(d, c, env, stateFires, ballparkFires) && Somewhere(d, c.move.system)
    ensures Tick(d, c, env, stateFires, ballparkFires).place.location == c.move.system
  {
    hide MoveToLocation, Resend, SetBallPark, StateExpired;
    JumpTargets.ParkedSettles(d, c, env, ballparkFires);
    ParkedStays(d, c, env, ballparkFires);
    var parked := Parked(d, c, env, ballparkFires);
    ExecutedGoes(d, Quiet(parked), env);
  }

  lemma ParkedStays(d: StaticData, c: Client, env: Env, ballparkFires: bool)
    ensures Parked(d, c, env, ballparkFires).place == c.place && Parked(d, c, env, ballparkFires).link == c.link
  {
  }

  lemma ExecutedGoes(d: StaticData, c: Client, env: Env)
    requires IsJump(c.move.state) && c.move.point != NULL_ORIGIN && Somewhere(d, c.move.system)
    ensures StateExpired(d, c, env).place.location == c.move.system
  {
    hide MoveToLocation;
    MoveGoes(d, Launching(c, State.Jump), env, c.move.system);
    MoveGoes(d, Launching(c, State.DriveJump), env, c.move.system);
    MoveGoes(d, Plunging(c), env, c.move.system);
  }

  // ----------------------------------------------------------------------- docking

  /** A docking that is due ends in the hangar of the chosen station, and the client is shown
      that it is there. */
  lemma DockingDue(d: StaticData, c: Client, env: Env, stateFires: bool, ballparkFires: bool)
    requires Due(d, c, stateFires, ballparkFires) && c.move.state == State.Dock && Orderly(d, c.link)
    requires c.place.dockStation in d.stations
    requires env.boots || c.place.system == To(d.stations[c.place.dockStation].system)
    ensures var r, station := Tick(d, c, env, stateFires, ballparkFires), c.place.dockStation;
            && r.place == SettledAt(d, c.place, station).(autopilot := false,
                            beyonce := c.place.beyonce && c.place.system == To(d.stations[station].system))
            && r.move == c.move.(state := Idle, stateTimer := false)
            && r.lanes == c.lanes.(bubbleWait := true, setStateSent := false)
            && UpToDate(r.link)
            && ShowsStation(d, r.link.store, station) && ShowsSystem(d, r.link.store, d.stations[station].system)
            && Shows(d, r.link.store, Session.NextSessionChange, Session.Long(env.timerTime + 20 * SECOND))
  {
    hide DockToStation, StateExpired, UpToDate, Orderly;
    DueExpires(d, c, env, stateFires, ballparkFires);
    DockSettles(d, Quiet(c), env);
    assert StateExpired(d, Quiet(c), env) == DockToStation(d, Quiet(c), env) by {
      DockExpires(d, Quiet(c), env);
    }
  }

  lemma DockExpires(d: StaticData, c: Client, env: Env)
    requires c.move.state == State.Dock
    ensures StateExpired(d, c, env) == DockToStation(d, c, env)
  {
    hide DockToStation;
  }

  // ------------------------------------------------------------- what is seen of it

  lemma LocatedOrderly(d: StaticData, c: Client, n: nat)
    requires LocationView.Located(d, c, n)
    ensures Orderly(d, c.link)
  {
  }

  lemma SeenWhere(d: StaticData, c: Client, n: nat)
    requires LocationView.Located(d, c, n) && UpToDate(c.link)
    ensures LocationView.ShowsCharacter(d, c.place, LocationView.ClientView(c.link.sent))
    ensures LocationView.AllShaped(c.link.sent, n)
  {
  }

  /** After a docking that was due the client sees that station, and after a gate jump that was
      due that system, and never a mixture on the way. */
  lemma DueSeen(d: StaticData, c: Client, env: Env, stateFires: bool, ballparkFires: bool, n: nat)
    requires LocationView.Located(d, c, n) && Due(d, c, stateFires, ballparkFires)
    ensures var r := Tick(d, c, env, stateFires, ballparkFires);
            var seen := LocationView.ClientView(r.link.sent);
            && (c.move.state == State.Dock && c.place.dockStation in d.stations
                && (env.boots || c.place.system == To(d.stations[c.place.dockStation].system)) ==>
                  LocationView.StationShaped(seen) && seen.location == Session.Int(c.place.dockStation)
                  && LocationView.AllShaped(r.link.sent, n))
            && (c.move.state == State.Jump && CanLand(d, c, env) && FullStateFirst.Whole(env) ==>
                  LocationView.SpaceShaped(seen) && seen.location == Session.Int(c.move.system)
                  && LocationView.AllShaped(r.link.sent, n))
  {
    hide Tick, LocationView.Located, LocationView.ClientView, LocationView.AllShaped, UpToDate, Orderly, ShowsClient,
         SameElsewhere, ShowsStation, ShowsSystem, FullStateFirst.WithFullState;
    LocatedOrderly(d, c, n);
    LocationRuns.TickLocated(d, c, env, stateFires, ballparkFires, n);
    var r := Tick(d, c, env, stateFires, ballparkFires);
    if c.move.state == State.Dock && c.place.dockStation in d.stations
       && (env.boots || c.place.system == To(d.stations[c.place.dockStation].system)) {
      DockingDue(d, c, env, stateFires, ballparkFires);
      SeenWhere(d, r, n);
    }
    if c.move.state == State.Jump && CanLand(d, c, env) && FullStateFirst.Whole(env) {
      GateJumpLands(d, c, env, stateFires, ballparkFires);
      Disjoint(d, c.move.system);
      SeenWhere(d, r, n);
    }
  }

  // ------------------------------------------------------------------ the ballpark

  /** Without a ballpark bound, a client past its login and its undocking waits for it with
      the timer running. */
  lemma BallParkWaits(d: StaticData, c: Client, env: Env)
    requires !c.place.beyonce && !c.place.login && !c.place.undock
    ensures SetBallPark(d, c, env) == c.(lanes := c.lanes.(bubbleWait := true), move := c.move.(ballparkTimer := true))
  {
  }

  /** With it bound, and the full state still due, the full state goes out, except during a
      login, and what was waited for is over: the timer, and any jump. */
  lemma BallParkSettlesAll(d: StaticData, c: Client, env: Env)
    requires c.place.beyonce && !c.lanes.setStateSent && FullStateFirst.Whole(env)
    requires c.place.location !in d.stations || c.place.login
    ensures var r, open := SetBallPark(d, c, env), c.lanes.(bubbleWait := false);
            && r.place == c.place && r.link == c.link
            && r.move == c.move.(ballparkTimer := false,
                                 state := if c.move.state in {State.Jump, State.DriveJump, State.WormholeJump}
                                          then Idle else c.move.state)
            && r.lanes == if !c.place.login && env.inBubble then FullStateFirst.WithFullState(open, env.snapshot) else open
  {
    hide SendSetState, FullStateFirst.WithFullState;
    if !c.place.login {
      FullStateFirst.FullStateGoesOut(d, c.(lanes := c.lanes.(bubbleWait := false)), env);
    }
  }

  /** Otherwise only the updates may flow. */
  lemma BallParkOpens(d: StaticData, c: Client, env: Env)
    requires c.lanes.setStateSent || !c.place.beyonce
    requires c.place.beyonce || c.place.login || c.place.undock
    ensures SetBallPark(d, c, env) == c.(lanes := c.lanes.(bubbleWait := false))
  {
  }

  /** The ballpark timer alone asks for the ballpark. */
  lemma BallParkDue(d: StaticData, c: Client, env: Env, stateFires: bool)
    requires c.place.location !in d.stations && c.place.shipInSpace
    requires c.move.ballparkTimer && !(c.move.stateTimer && stateFires)
    ensures Tick(d, c, env, stateFires, true) == SetBallPark(d, c.(move := c.move.(ballparkTimer := false)), env)
  {
    hide SetBallPark, StateExpired;
    JumpTargets.ParkedSettles(d, c, env, true);
  }

  /** With both timers due, the ballpark is looked at first, and then the state. */
  lemma BothDue(d: StaticData, c: Client, env: Env)
    ensures Tick(d, c, env, true, true) == Tick(d, Tick(d, c, env, false, true), env, true, false)
            || c.place.location in d.stations
  {
    hide SetBallPark, StateExpired;
    ParkedStays(d, c, env, true);
    AskedStays(d, c.(move := c.move.(ballparkTimer := false)), env);
  }

  /** An undocking that is due asks for the ballpark and leaves the client idle. */
  lemma UndockingDue(d: StaticData, c: Client, env: Env, stateFires: bool, ballparkFires: bool)
    requires Due(d, c, stateFires, ballparkFires) && c.move.state == State.Undock
    ensures var asked := SetBallPark(d, Quiet(c), env);
            Tick(d, c, env, stateFires, ballparkFires) == asked.(move := asked.move.(state := Idle))
  {
    hide SetBallPark;
    DueExpires(d, c, env, stateFires, ballparkFires);
  }

  // -------------------------------------------------------------- the other states

  /** After a loss or a boarding the client is brought up to date and idle. */
  lemma ShipLossDue(d: StaticData, c: Client, env: Env, stateFires: bool, ballparkFires: bool)
    requires Due(d, c, stateFires, ballparkFires) && (c.move.state == State.Killed || c.move.state == State.Board)
    requires Orderly(d, c.link) && c.place.location != 0
    ensures var r := Tick(d, c, env, stateFires, ballparkFires);
            && r.place == c.place && r.lanes == c.lanes && r.move == c.move.(stateTimer := false, state := Idle)
            && UpToDate(r.link)
            && forall k :: Session.Current(r.link.store, k) == Session.Current(c.link.store, k)
  {
    hide SendSessionChange, UpToDate, Orderly;
    DueExpires(d, c, env, stateFires, ballparkFires);
    FlushShown(d, Quiet(c));
  }

  /** An idle client that has jumped on autopilot is told of a change in thirty seconds; any
      other is only left with its timer off. */
  lemma IdleDue(d: StaticData, c: Client, env: Env, stateFires: bool, ballparkFires: bool)
    requires Due(d, c, stateFires, ballparkFires) && c.move.state == Idle
    requires Orderly(d, c.link) && c.place.location != 0
    ensures var r := Tick(d, c, env, stateFires, ballparkFires);
            && r.place == c.place.(apRetry := false) && r.lanes == c.lanes && r.move == c.move.(stateTimer := false)
            && (!c.place.apRetry ==> r.link == c.link)
            && (c.place.apRetry ==>
                  && UpToDate(r.link)
                  && Shows(d, r.link.store, Session.NextSessionChange, Session.Long(env.now + 30 * SECOND))
                  && forall k :: k != Session.NextSessionChange ==>
                       Session.Current(r.link.store, k) == Session.Current(c.link.store, k))
  {
    hide SendSessionChange, UpToDate, Orderly, Session.Set;
    DueExpires(d, c, env, stateFires, ballparkFires);
    var retried := Retried(Quiet(c));
    var v := Session.Long(env.now + RETRY_CHANGE);
    OneShows(d, c.link, Session.NextSessionChange, v);
    SetOrderly(d, c.link, Session.NextSessionChange, v);
    FlushShown(d, Tell(d, retried, Session.NextSessionChange, v));
  }

  /** A login that is due, in space: the login is over, and a ship in a bubble is sent the full
      state and is warped in. */
  lemma LoginDue(d: StaticData, c: Client, env: Env, stateFires: bool, ballparkFires: bool)
    requires Due(d, c, stateFires, ballparkFires) && c.move.state == State.Login && FullStateFirst.Whole(env)
    requires c.place.location in d.systems && env.inBubble
    ensures var r := Tick(d, c, env, stateFires, ballparkFires);
            var asked := SetBallPark(d, Quiet(c).(place := c.place.(login := false)), env);
            && r.place == c.place.(login := false) && r.link == c.link
            && r.move == asked.move.(state := State.LoginWarp, stateTimer := true)
            && r.lanes == FullStateFirst.WithFullState(asked.lanes.(setStateSent := false), env.snapshot)
  {
    hide SetBallPark, Resend, MoveToLocation, FullStateFirst.WithFullState;
    DueExpires(d, c, env, stateFires, ballparkFires);
    Disjoint(d, c.place.location);
    var entered := Quiet(c).(place := c.place.(login := false));
    AskedStays(d, entered, env);
    FullStateFirst.FullStateGoesOut(d, SetBallPark(d, entered, env), env);
  }

  lemma AskedStays(d: StaticData, c: Client, env: Env)
    ensures var r := SetBallPark(d, c, env);
            r.place == c.place && r.link == c.link && r.move.stateTimer == c.move.stateTimer
  {
  }

  /** A ship without a bubble is put into its system anew first. */
  lemma LoginOutside(d: StaticData, c: Client, env: Env, stateFires: bool, ballparkFires: bool)
    requires Due(d, c, stateFires, ballparkFires) && c.move.state == State.Login && FullStateFirst.Whole(env)
    requires c.place.location in d.systems && c.place.systemData == c.place.location && !env.inBubble
    ensures var r := Tick(d, c, env, stateFires, ballparkFires);
            var asked := SetBallPark(d, Quiet(c).(place := c.place.(login := false)), env);
            && r.place == c.place.(login := false) && r.link == c.link
            && r.move == asked.move.(state := State.LoginWarp, stateTimer := true)
            && r.lanes == FullStateFirst.WithFullState(Entered(asked.lanes), env.snapshot)
  {
    hide SetBallPark, Resend, MoveToLocation, FullStateFirst.WithFullState;
    DueExpires(d, c, env, stateFires, ballparkFires);
    Disjoint(d, c.place.location);
    var entered := Quiet(c).(place := c.place.(login := false));
    AskedStays(d, entered, env);
    var asked := SetBallPark(d, entered, env);
    MoveWithin(d, asked, env, c.place.location);
    FullStateFirst.FullStateGoesOut(d, MoveToLocation(d, asked, env, c.place.location), env.(inBubble := true));
  }

  /** In the remaining states the timer is just off. */
  lemma NothingDue(d: StaticData, c: Client, env: Env, stateFires: bool, ballparkFires: bool)
    requires Due(d, c, stateFires, ballparkFires)
    requires c.move.state in {State.LoginWarp, State.Logout, State.Uncloak}
    ensures Tick(d, c, env, stateFires, ballparkFires) == Quiet(c)
  {
    DueExpires(d, c, env, stateFires, ballparkFires);
  }

  /** Without a timer running out, or without a ship in space, nothing happens. */
  lemma NoneFires(d: StaticData, c: Client, env: Env, stateFires: bool, ballparkFires: bool)
    requires c.place.location in d.stations || c.place.shipInSpace ==> !(c.move.stateTimer && stateFires)
    requires c.place.location !in d.stations && c.place.shipInSpace ==> !(c.move.ballparkTimer && ballparkFires)
    ensures Tick(d, c, env, stateFires, ballparkFires) == c
  {
    hide SetBallPark, StateExpired;
  }

  /** At a station every wait ends idle; a login is over. */
  lemma DueAtStation(d: StaticData, c: Client, env: Env, ballparkFires: bool)
    requires c.place.location in d.stations && c.move.stateTimer
    ensures Tick(d, c, env, true, ballparkFires)
            == c.(move := c.move.(stateTimer := false, state := Idle),
                  place := c.place.(login := c.place.login && c.move.state != State.Login))
  {
    hide SetBallPark, StateExpired;
  }
}
