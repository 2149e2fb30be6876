/** Over every run of a client its session and what it was sent stay in order, so that its
    replica is right whenever the session is clean; whatever systems boot or fail. */
module OrderlyRuns {
  import opened ClientState
  import opened ClientRuns
  import opened SessionKeys
  import opened Arrivals
  import LocationRuns
  import Session
  import SessionReplica

  lemma TellOrderly(d: StaticData, c: Client, k: Session.Key, v: Session.Val)
    requires Orderly(d, c.link)
    ensures Orderly(d, Tell(d, c, k, v).link)
  {
    hide Session.Set, Orderly;
    SetOrderly(d, c.link, k, v);
  }

  lemma StoresOrderly(d: StaticData, l: SessionReplica.Link, w: Writes)
    requires Orderly(d, l)
    ensures Orderly(d, SetAll(d.hash, l, w))
  {
    hide SetAll;
    StoresSendNothing(d.hash, l, w);
  }

  lemma FlushOrderly(d: StaticData, c: Client)
    requires Orderly(d, c.link)
    ensures Orderly(d, SendSessionChange(d, c).link)
  {
    hide SessionReplica.SendChanges, Tell, Orderly;
    var location := if IsStation(d, c.place.charStation) then c.place.charStation else c.place.systemData;
    TellOrderly(d, c.(place := c.place.(location := location)), Session.LocationId, Session.Int(location));
    ChangesOrderly(d, FixLocation(d, c).link);
  }

  lemma ChangesOrderly(d: StaticData, l: SessionReplica.Link)
    requires Orderly(d, l)
    ensures Orderly(d, SessionReplica.SendChanges(l))
  {
    hide Session.Changes;
    SessionReplica.InSyncChanges(d.hash, l);
    SessionReplica.WellFlaggedSettled(d.hash, l.store);
  }

  lemma ArriveOrderly(d: StaticData, c: Client, env: Env)
    requires Orderly(d, c.link)
    ensures Orderly(d, Arrive(d, c, env).link)
  {
    hide Orderly, UpdateSession, SendSessionChange;
    DestinyOrderly(d, c, env);
    var settled := CharacterPlaced(d, ShipPlaced(d, c, env));
    UpdateOrderly(d, settled, env.now);
    FlushOrderly(d, UpdateSession(d, settled, env.now));
  }

  lemma DestinyOrderly(d: StaticData, c: Client, env: Env)
    requires Orderly(d, c.link)
    ensures Orderly(d, SetDestiny(d, c, env).link)
  {
    hide Orderly, SetSessionTimer;
    TimerKeeps(d, c.(lanes := c.lanes.(bubbleWait := false, setStateSent := false),
                     place := c.place.(shipInSpace := true)), env.shipTime);
  }

  lemma MoveOrderly(d: StaticData, c: Client, env: Env, location: nat)
    requires Orderly(d, c.link)
    ensures Orderly(d, MoveToLocation(d, c, env, location).link)
  {
    hide Orderly, Arrive, SetDestiny;
    DestinyOrderly(d, c, env);
    ArriveOrderly(d, Depart(d, c, location), env);
    ArriveOrderly(d, Boot(Depart(d, c, location)), env);
  }

  lemma DockUndockOrderly(d: StaticData, c: Client, env: Env)
    requires Orderly(d, c.link)
    ensures Orderly(d, DockToStation(d, c, env).link) && Orderly(d, UndockFromStation(d, c, env).link)
  {
    hide Orderly, MoveToLocation, SendSessionChange, SetSessionTimer;
    MoveOrderly(d, Docking(c), env, c.place.dockStation);
    var docked := MoveToLocation(d, Docking(c), env, c.place.dockStation);
    TimerKeeps(d, docked, env.timerTime);
    FlushOrderly(d, SetSessionTimer(d, docked, env.timerTime));
    MoveOrderly(d, Undocking(c), env, c.place.systemData);
    var outside := MoveToLocation(d, Undocking(c), env, c.place.systemData);
    var timed := outside.(move := SetStateTimer(outside.move, State.Undock, UNDOCK_TIME));
    TimerKeeps(d, timed, env.timerTime);
    FlushOrderly(d, SetSessionTimer(d, timed, env.timerTime));
  }

  lemma GateOrderly(d: StaticData, c: Client, env: Env, gate: Gate)
    requires Orderly(d, c.link)
    ensures Orderly(d, StargateJump(d, c, env, gate).link)
  {
    hide Orderly, MoveToLocation, SetSessionTimer;
    if gate.Gate? {
      MoveOrderly(d, Crossing(c, gate), env, gate.system);
      TimerKeeps(d, Resend(d, MoveToLocation(d, Crossing(c, gate), env, gate.system), env), env.timerTime);
    }
  }

  lemma ExecuteOrderly(d: StaticData, c: Client, env: Env)
    requires Orderly(d, c.link)
    ensures Orderly(d, ExecuteJump(d, c, env).link) && Orderly(d, ExecuteDriveJump(d, c, env).link)
    ensures Orderly(d, ExecuteWormholeJump(d, c, env).link)
  {
    hide Orderly, MoveToLocation;
    MoveOrderly(d, Launching(c, State.Jump), env, c.move.system);
    MoveOrderly(d, Launching(c, State.DriveJump), env, c.move.system);
    MoveOrderly(d, Plunging(c), env, c.move.system);
  }

  lemma LoginOrderly(d: StaticData, c: Client, env: Env)
    requires Orderly(d, c.link)
    ensures Orderly(d, EndLogin(d, c, env).link)
  {
    hide Orderly, MoveToLocation;
    var seen := SetBallPark(d, c.(place := c.place.(login := false)), env);
    MoveOrderly(d, seen, env, seen.place.systemData);
  }

  lemma ExpiredOrderly(d: StaticData, c: Client, env: Env)
    requires Orderly(d, c.link)
    ensures Orderly(d, StateExpired(d, c, env).link)
  {
    hide Orderly, EndLogin, ExecuteJump, ExecuteDriveJump, ExecuteWormholeJump, DockToStation, SendSessionChange, Tell;
    match c.move.state
    case Idle =>
      TellOrderly(d, Retried(c), Session.NextSessionChange, Session.Long(env.now + RETRY_CHANGE));
      FlushOrderly(d, Tell(d, Retried(c), Session.NextSessionChange, Session.Long(env.now + RETRY_CHANGE)));
    case Dock => DockUndockOrderly(d, c, env);
    case Killed => FlushOrderly(d, c);
    case Board => FlushOrderly(d, c);
    case Login => LoginOrderly(d, c, env);
    case Jump => ExecuteOrderly(d, c, env);
    case DriveJump => ExecuteOrderly(d, c, env);
    case WormholeJump => ExecuteOrderly(d, c, env);
    case _ =>
  }

  lemma TickOrderly(d: StaticData, c: Client, env: Env, stateFires: bool, ballparkFires: bool)
    requires Orderly(d, c.link)
    ensures Orderly(d, Tick(d, c, env, stateFires, ballparkFires).link)
  {
    hide Orderly, StateExpired, SendSetState;
    var parked := Parked(d, c, env, ballparkFires);
    ParkedLink(d, c, env, ballparkFires);
    ExpiredOrderly(d, parked.(move := parked.move.(stateTimer := false)), env);
  }

  lemma ParkedLink(d: StaticData, c: Client, env: Env, ballparkFires: bool)
    ensures Parked(d, c, env, ballparkFires).link == c.link
  {
  }

  lemma ShipOrderly(d: StaticData, c: Client, ship: nat, now: int)
    requires Orderly(d, c.link)
    ensures Orderly(d, SetShip(d, c, ship).link)
    ensures Orderly(d, SetSessionTimer(d, SetShip(d, c, ship), now).link)
    ensures Orderly(d, SendSessionChange(d, Aboard(d, c, ship, now)).link)
  {
    hide Orderly, Tell, SetSessionTimer, SendSessionChange;
    TellOrderly(d, c.(place := c.place.(ship := ship, shipInSpace := false)), Session.ShipId, Session.Int(ship));
    var ashore := SetShip(d, c, ship);
    TimerKeeps(d, ashore, now);
    TimerKeeps(d, ashore.(place := ashore.place.(shipInSpace := true)), now);
    FlushOrderly(d, Aboard(d, c, ship, now));
  }

  lemma PoddedOrderly(d: StaticData, c: Client, env: Env, pod: nat, clone: nat)
    requires Orderly(d, c.link)
    ensures Orderly(d, AfterPodded(d, c, env, pod, clone).link)
  {
    hide Orderly, SetShip, MoveToLocation, UpdateSession, SendSessionChange;
    ShipOrderly(d, c.(place := c.place.(autopilot := false)), pod, 0);
    MoveOrderly(d, Podding(d, c, pod), env, clone);
    var woken := MoveToLocation(d, Podding(d, c, pod), env, clone);
    UpdateOrderly(d, woken, env.timerTime);
    FlushOrderly(d, UpdateSession(d, woken, env.timerTime));
  }

  lemma SharedOrderly(d: StaticData, c: Client, values: seq<(string, Session.Val)>, send: bool)
    requires Orderly(d, c.link)
    ensures Orderly(d, ShareValues(d, c, values, send).link)
  {
    hide Orderly, SetAll, SendSessionChange;
    var w := SharedWrites(Done, values);
    StoresOrderly(d, c.link, w);
    FlushOrderly(d, c.(link := SetAll(d.hash, c.link, w)));
  }

  lemma StepOrderly(d: StaticData, j: Joint, op: Op)
    requires Orderly(d, j.client.link)
    ensures Orderly(d, Step(d, j, op).client.link)
  {
    hide Orderly, StargateJump, UndockFromStation, AfterPodded, MoveToLocation, Tick, ShareValues, SetShip, SetSessionTimer,
         SendSessionChange, Aboard, SetBallPark, SendSetState;
    var c := j.client;
    match op
    case RequestGate(gate, env) => GateOrderly(d, c, env, gate);
    case RequestWormhole(_, _, _, _) =>
    case Passing(env, stateFires, ballparkFires, _) => TickOrderly(d, c, env, stateFires, ballparkFires);
    case LeaveStation(env) => DockUndockOrderly(d, c, env);
    case BoardInSpace(ship, now) => ShipOrderly(d, c, ship, now);
    case BoardInHangar(ship, now) => ShipOrderly(d, c, ship, now);
    case Popped(pod, now) => ShipOrderly(d, Popping(c), pod, now);
    case Podded(pod, clone, env) => PoddedOrderly(d, c, env, pod, clone);
    case Relocate(location, env) => MoveOrderly(d, c, env, location);
    case SessionTimer(now) => TimerKeeps(d, c, now);
    case Share(values, send) => SharedOrderly(d, c, values, send);
    case Beyonce(env) => ParkLink(d, c.(place := c.place.(beyonce := true)), env);
    case _ =>
      hide ClientStep;
      LocationRuns.SilentFrame(d, c, op);
  }

  lemma ParkLink(d: StaticData, c: Client, env: Env)
    ensures SetBallPark(d, c, env).link == c.link
  {
  }

  /** Over every run: whenever the session is clean the client has all that the server holds,
      and a key that is not flagged always has the value the client holds. */
  lemma {:induction false} RunOrderly(d: StaticData, j: Joint, ops: seq<Op>)
    requires Orderly(d, j.client.link)
    ensures var l := Run(d, j, ops).client.link;
            && Orderly(d, l)
            && (!l.store.dirty ==> UpToDate(l))
            && forall k {:trigger SessionReplica.Held(l.sent, k)} ::
                 k != Session.ClientID && k != Session.SessionID && k != Session.Sid && !Session.Flagged(l.store, k) ==>
                   SessionReplica.Held(l.sent, k) == Session.Current(l.store, k)
  {
    if ops != [] {
      hide Step;
      RunOrderly(d, j, ops[..|ops| - 1]);
      StepOrderly(d, Run(d, j, ops[..|ops| - 1]), ops[|ops| - 1]);
    }
    var l := Run(d, j, ops).client.link;
    if !l.store.dirty {
      SessionReplica.CleanInSync(d.hash, l);
    }
  }
}
