/** What each request and each other operation leaves behind: what is stored of a jump asked
    for, who is in which ship, what the client is told of it, and what is refused. */
module Requests {
  import opened ClientState
  import opened ClientRuns
  import opened SessionKeys
  import opened Arrivals
  import DestinyLanes
  import Expiries
  import FullStateFirst
  import Session
  import SessionReplica

  // --------------------------------------------------------------- gates and drives

  /** While a move is pending every request is refused; so is a jump through a gate without
      data, or into a system that security does not allow. */
  lemma JumpRefused(d: StaticData, j: Joint, op: Op)
    requires op.RequestGate? || op.RequestDrive? || op.RequestWormhole?
    requires j.client.move.state != Idle || j.client.move.stateTimer
             || (op.RequestGate? && (op.gate.NoGate? || !op.gate.securityAllows))
    ensures Step(d, j, op) == j
  {
  }

  /** A jump asked for by a free client stores the system and the point of the request, and
      runs the state timer for it; nothing else changes. */
  lemma JumpStored(d: StaticData, j: Joint, op: Op)
    requires j.client.move.state == Idle && !j.client.move.stateTimer
    requires op.RequestDrive? || (op.RequestGate? && op.gate.Gate? && op.gate.securityAllows && !j.client.place.autopilot)
    ensures var m := j.client.move;
            var kind := if op.RequestGate? then State.Jump else State.DriveJump;
            var system := if op.RequestGate? then op.gate.system else op.system;
            var point := if op.RequestGate? then op.gate.landing else op.landing;
            Step(d, j, op)
            == j.(client := j.client.(move := m.(state := kind, stateTimer := true, system := system, point := point,
                                                 trace := Then(m.trace, Accepted(kind, system, point)))))
  {
  }

  /** On autopilot the client crosses at once: it settles in the system of the gate, is sent
      the full state, has its session timer told, and is idle until a second change is due. */
  lemma GateCrossed(d: StaticData, j: Joint, gate: Gate, env: Env)
    requires j.client.move.state == Idle && !j.client.move.stateTimer && j.client.place.autopilot
    requires gate.Gate? && gate.securityAllows && gate.system in d.systems && !Already(d, j.client, gate.system)
    requires Orderly(d, j.client.link) && FullStateFirst.Whole(env)
    requires env.boots || j.client.place.system == To(gate.system)
    ensures var c, r := j.client, Step(d, j, RequestGate(gate, env)).client;
            && r.place == SettledAt(d, c.place, gate.system).(apRetry := true,
                            beyonce := c.place.beyonce && c.place.system == To(gate.system))
            && r.move == c.move.(stateTimer := true, system := 0, point := NULL_ORIGIN, trace := r.move.trace)
            && r.move.trace == Then(Then(c.move.trace, Accepted(State.Jump, gate.system, gate.landing)),
                                    Moved(State.Jump, gate.system, gate.landing))
            && r.lanes == (if env.inBubble then FullStateFirst.WithFullState(Expiries.Entered(c.lanes), env.snapshot)
                           else Expiries.Entered(c.lanes))
            && ShowsPlace(d, r.link.store, r.place)
            && Shows(d, r.link.store, Session.NextSessionChange, Session.Long(env.timerTime + 20 * SECOND))
  {
    hide MoveToLocation, Resend, SetSessionTimer, Orderly, ShowsClient, ShowsPlace, SameElsewhere, UpToDate,
         FullStateFirst.WithFullState;
    var c := j.client;
    Disjoint(d, gate.system);
    MoveSettles(d, Crossing(c, gate), env, gate.system);
    var there := MoveToLocation(d, Crossing(c, gate), env, gate.system);
    FullStateFirst.FullStateGoesOut(d, there, env);
    var seen := Resend(d, there, env);
    TimerShown(d, seen, env.timerTime);
    PlaceKept(d, seen.link.store, SetSessionTimer(d, seen, env.timerTime).link.store, there.place, env.now);
    SpotShown(d, SetSessionTimer(d, seen, env.timerTime).link.store, there.place, there.place.(apRetry := true));
  }

  lemma SpotShown(d: StaticData, s: Session.Store, p: Place, q: Place)
    requires p.charStation == q.charStation && p.charSystem == q.charSystem && p.ship == q.ship
    ensures ShowsPlace(d, s, p) == ShowsPlace(d, s, q)
  {
  }

  lemma PlaceKept(d: StaticData, s: Session.Store, t: Session.Store, p: Place, now: int)
    requires forall k :: k != Session.NextSessionChange ==> Session.Lookup(t, k) == Session.Lookup(s, k)
    requires ShowsClient(d, s, p, now)
    ensures ShowsPlace(d, t, p)
  {
    hide Session.Lookup;
    SamePlaceShown(d, s, t, p, now);
  }

  /** Whether or not the system boots, the client is in the system of the gate then. */
  lemma GateGoes(d: StaticData, j: Joint, gate: Gate, env: Env)
    requires j.client.move.state == Idle && !j.client.move.stateTimer && j.client.place.autopilot
    requires gate.Gate? && gate.securityAllows && Somewhere(d, gate.system)
    ensures Step(d, j, RequestGate(gate, env)).client.place.location == gate.system
  {
    hide MoveToLocation;
    MoveGoes(d, Crossing(j.client, gate), env, gate.system);
  }

  // ------------------------------------------------------------------ small requests

  lemma DockRequested(d: StaticData, j: Joint, delay: nat)
    ensures var c := j.client; var r := Step(d, j, RequestDock(delay));
            && r.holes == j.holes
            && r.client == c.(place := c.place.(autopilot := false), move := r.client.move)
            && r.client.move == if delay == 0 then c.move.(stateTimer := false)
                                else if c.move.stateTimer then c.move
                                else c.move.(state := State.Dock, stateTimer := true)
  {
  }

  /** Which operation of the client each of these runs. */
  lemma Dispatched(d: StaticData, j: Joint, location: nat, env: Env, stateFires: bool, ballparkFires: bool, shipMass: nat)
    ensures Step(d, j, Relocate(location, env)) == j.(client := MoveToLocation(d, j.client, env, location))
    ensures Step(d, j, LeaveStation(env)) == j.(client := UndockFromStation(d, j.client, env))
    ensures Step(d, j, Passing(env, stateFires, ballparkFires, shipMass)).client
            == Tick(d, j.client, env, stateFires, ballparkFires)
  {
    hide MoveToLocation, UndockFromStation, Tick;
  }

  lemma Chosen(d: StaticData, j: Joint, station: nat, on: bool)
    ensures Step(d, j, ChooseDock(station)) == j.(client := j.client.(place := j.client.place.(dockStation := station)))
    ensures Step(d, j, UndockOver) == j.(client := j.client.(place := j.client.place.(undock := false)))
    ensures Step(d, j, SetAutopilot(on)) == j.(client := j.client.(place := j.client.place.(autopilot := on)))
  {
  }

  /** What the lanes are given: an offer or a flush comes with whether the client is at a
      station. */
  function LaneOp(d: StaticData, c: Client, op: Op): DestinyLanes.Op
    requires op.Offer? || op.OfferEvent? || op.Flush? || op.DeclareState?
  {
    match op
    case Offer(u, doPackage, isSetState) => DestinyLanes.Offer(c.place.location in d.stations, u, doPackage, isSetState)
    case OfferEvent(u) => DestinyLanes.OfferEvent(u)
    case Flush => DestinyLanes.Flush(c.place.location in d.stations)
    case DeclareState(sent) => DestinyLanes.StateSent(sent)
  }

  lemma OfferedToLanes(d: StaticData, j: Joint, op: Op)
    requires op.Offer? || op.OfferEvent? || op.Flush? || op.DeclareState?
    ensures Step(d, j, op)
            == j.(client := j.client.(lanes := DestinyLanes.Step(j.client.lanes, LaneOp(d, j.client, op))))
  {
    hide DestinyLanes.QueueUpdate, DestinyLanes.QueueEvent, DestinyLanes.FlushQueue, DestinyLanes.SetStateSent;
  }

  // ---------------------------------------------------------- ballpark and full state

  /** Binding the ballpark settles it at once during a login, while the full state is due. */
  lemma BallParkBound(d: StaticData, j: Joint, env: Env)
    ensures var c := j.client; var bound := c.(place := c.place.(beyonce := true));
            Step(d, j, Beyonce(env))
            == j.(client := if c.place.login && !c.lanes.setStateSent then SetBallPark(d, bound, env) else bound)
  {
    hide SetBallPark;
  }

  /** The end of the login warp leaves the client idle, and sends the full state if it is due. */
  lemma WarpEnded(d: StaticData, j: Joint, env: Env)
    requires j.client.place.location !in d.stations && FullStateFirst.Whole(env)
    ensures var c := j.client;
            Step(d, j, WarpDone(env))
            == j.(client := c.(move := c.move.(state := if c.move.state == State.LoginWarp then Idle else c.move.state),
                               lanes := if c.place.shipInSpace && !c.lanes.setStateSent && env.inBubble
                                        then FullStateFirst.WithFullState(c.lanes, env.snapshot) else c.lanes))
  {
    hide SendSetState, FullStateFirst.WithFullState;
    var c := j.client;
    FullStateFirst.FullStateGoesOut(d, if c.move.state == State.LoginWarp then c.(move := c.move.(state := Idle)) else c, env);
  }

  /** A full state asked for is sent anew, whether or not it was sent before. */
  lemma FullStateAsked(d: StaticData, j: Joint, env: Env)
    requires j.client.place.location !in d.stations && FullStateFirst.Whole(env)
    ensures var c := j.client; var due := c.lanes.(setStateSent := false);
            Step(d, j, RequestState(env))
            == if !c.place.shipInSpace then j
               else j.(client := c.(lanes := if env.inBubble then FullStateFirst.WithFullState(due, env.snapshot) else due))
  {
    hide Resend, FullStateFirst.WithFullState;
    FullStateFirst.FullStateGoesOut(d, j.client, env);
  }

  // --------------------------------------------------------------------------- ships

  /** What the client is told of a new ship: the ship, in space, and when its session may
      change next. */
  ghost predicate ToldOfShip(d: StaticData, before: Client, after: Client, ship: nat, now: int) {
    && (before.place.location in d.systems ==> Shows(d, after.link.store, Session.ShipId, Session.Int(ship)))
    && Shows(d, after.link.store, Session.NextSessionChange, Session.Long(now + 20 * SECOND))
    && (forall k :: k != Session.NextSessionChange && (k != Session.ShipId || before.place.location !in d.systems) ==>
          Session.Current(after.link.store, k) == Session.Current(before.link.store, k))
  }

  lemma ShipTold(d: StaticData, c: Client, ship: nat)
    ensures var r := SetShip(d, c, ship);
            && r == c.(place := c.place.(ship := ship, shipInSpace := false), link := r.link)
            && r.link.sent == c.link.sent
            && (c.place.location in d.systems ==> Shows(d, r.link.store, Session.ShipId, Session.Int(ship)))
            && (forall k :: k != Session.ShipId || c.place.location !in d.systems ==>
                  Session.Current(r.link.store, k) == Session.Current(c.link.store, k))
            && (Orderly(d, c.link) ==> Orderly(d, r.link))
  {
    hide Session.Set, Orderly;
    OneShows(d, c.link, Session.ShipId, Session.Int(ship));
    if Orderly(d, c.link) {
      SetOrderly(d, c.link, Session.ShipId, Session.Int(ship));
    }
  }

  lemma ShipAndTimerTold(d: StaticData, c: Client, e: Client, ship: nat, now: int)
    requires e == SetShip(d, c, ship).(place := e.place)
    ensures var r := SetSessionTimer(d, e, now);
            && r == e.(link := r.link) && r.link.sent == c.link.sent
            && ToldOfShip(d, c, r, ship, now)
            && (Orderly(d, c.link) ==> Orderly(d, r.link))
  {
    hide SetShip, SetSessionTimer, Orderly, Session.Lookup;
    ShipTold(d, c, ship);
    TimerShown(d, e, now);
    TimerKeeps(d, e, now);
    var r := SetSessionTimer(d, e, now);
    assert forall k :: k != Session.NextSessionChange ==> Session.Current(r.link.store, k) == Session.Current(e.link.store, k);
  }

  /** A ship in space, other than the one the client is in, is boarded where there is a ship
      and a system; and the client is told. */
  lemma BoardedInSpace(d: StaticData, j: Joint, ship: nat, now: int)
    requires Orderly(d, j.client.link) && j.client.place.location != 0
    ensures var c, r := j.client, Step(d, j, BoardInSpace(ship, now)).client;
            if !c.place.shipInSpace || c.place.system == Null || (ship == c.place.ship && !c.place.login) then r == c
            else && r == c.(place := c.place.(ship := ship), link := r.link)
                 && UpToDate(r.link) && ToldOfShip(d, c, r, ship, now)
  {
    hide SetShip, SetSessionTimer, SendSessionChange, Orderly, UpToDate, ToldOfShip;
    var c := j.client;
    FlownTold(d, c, ship, now);
    ShipTold(d, c, ship);
  }

  lemma FlownTold(d: StaticData, c: Client, ship: nat, now: int)
    requires Orderly(d, c.link) && c.place.location != 0
    ensures var r := SendSessionChange(d, Aboard(d, c, ship, now));
            && r == c.(place := c.place.(ship := ship, shipInSpace := true), link := r.link)
            && UpToDate(r.link) && Orderly(d, r.link) && ToldOfShip(d, c, r, ship, now)
  {
    hide SetShip, SetSessionTimer, SendSessionChange, Orderly, UpToDate, Session.Current;
    ShipTold(d, c, ship);
    var aboard := SetShip(d, c, ship).(place := c.place.(ship := ship, shipInSpace := true));
    ShipAndTimerTold(d, c, aboard, ship, now);
    FlushShown(d, SetSessionTimer(d, aboard, now));
  }

  /** In a hangar the ship is out of space and nothing is sent yet. */
  lemma BoardedInHangar(d: StaticData, j: Joint, ship: nat, now: int)
    ensures var c, r := j.client, Step(d, j, BoardInHangar(ship, now)).client;
            if ship == c.place.ship && !c.place.login then r == c
            else && r == c.(place := c.place.(ship := ship, shipInSpace := false), link := r.link)
                 && r.link.sent == c.link.sent && ToldOfShip(d, c, r, ship, now)
  {
    hide SetShip, SetSessionTimer, ToldOfShip;
    ShipTold(d, j.client, ship);
    ShipAndTimerTold(d, j.client, SetShip(d, j.client, ship), ship, now);
  }

  /** A lost ship leaves the client in its pod, in space, with the autopilot off. */
  lemma ShipLost(d: StaticData, j: Joint, pod: nat, now: int)
    requires Orderly(d, j.client.link) && j.client.place.location != 0
    ensures var c, r := j.client, Step(d, j, Popped(pod, now)).client;
            if !c.place.shipInSpace || c.place.system == Null then r == c
            else && r == c.(place := c.place.(ship := pod, autopilot := false), lanes := c.lanes.(bubbleWait := false),
                            link := r.link)
                 && UpToDate(r.link) && ToldOfShip(d, c, r, pod, now)
  {
    hide SendSessionChange, Aboard, Orderly, UpToDate, ToldOfShip;
    FlownTold(d, Popping(j.client), pod, now);
    ToldAlike(d, j.client, Popping(j.client), AfterPopped(d, j.client, pod, now), pod, now);
  }

  lemma ToldAlike(d: StaticData, c: Client, e: Client, r: Client, ship: nat, now: int)
    requires e.link == c.link && e.place.location == c.place.location
    ensures ToldOfShip(d, e, r, ship, now) == ToldOfShip(d, c, r, ship, now)
  {
  }

  /** A lost pod leaves the client in a new one, in the station of its clone, and told of it. */
  lemma PodLost(d: StaticData, j: Joint, pod: nat, clone: nat, env: Env)
    requires Orderly(d, j.client.link) && clone in d.stations
    requires env.boots || !Leaves(d, j.client, clone)
    ensures var c, r := j.client, Step(d, j, Podded(pod, clone, env)).client;
            && r.place == SettledAt(d, c.place, clone).(ship := pod, autopilot := false,
                            beyonce := c.place.beyonce && !Leaves(d, c, clone))
            && r.move == c.move
            && r.lanes == c.lanes.(bubbleWait := true, setStateSent := c.lanes.setStateSent && !Leaves(d, c, clone))
            && UpToDate(r.link) && ShowsClient(d, r.link.store, r.place, env.timerTime)
  {
    hide MoveToLocation, SetShip, UpdateSession, SendSessionChange, Orderly, UpToDate, ShowsClient, SameElsewhere;
    var c := j.client;
    Disjoint(d, clone);
    var manual := c.(place := c.place.(autopilot := false));
    ShipTold(d, manual, pod);
    var dead := Podding(d, c, pod);
    MoveSettles(d, dead, env, clone);
    var woken := MoveToLocation(d, dead, env, clone);
    UpdatedShows(d, woken, env.timerTime);
    UpdateOrderly(d, woken, env.timerTime);
    FlushShown(d, UpdateSession(d, woken, env.timerTime));
    FlushKeeps(d, UpdateSession(d, woken, env.timerTime), env.timerTime);
  }

  // ------------------------------------------------------------------ shared values

  predicate Names(values: seq<(string, Session.Val)>, name: string) {
    exists i :: 0 <= i < |values| && values[i].0 == name
  }

  /** The last value of a name. */
  function LastOf(values: seq<(string, Session.Val)>, name: string): (v: Session.Val)
    requires Names(values, name)
  {
    var last := values[|values| - 1];
    if last.0 == name then last.1 else LastOf(values[..|values| - 1], name)
  }

  lemma {:induction false} SharedLeft(values: seq<(string, Session.Val)>, before: Writes)
    ensures var m := Left(SharedWrites(before, values));
            && (forall name :: Names(values, name) ==>
                  Session.Named(name) in m && m[Session.Named(name)] == LastOf(values, name))
            && (forall k: Session.Key :: !(k.Named? && Names(values, k.name)) ==>
                  (k in m <==> k in Left(before)) && (k in m ==> m[k] == Left(before)[k]))
  {
    if values != [] {
      var front, last := values[..|values| - 1], values[|values| - 1];
      SharedLeft(front, before);
      forall name
        ensures Names(values, name) <==> last.0 == name || Names(front, name)
      {
        NamesLast(values, name);
      }
    }
  }

  lemma NamesLast(values: seq<(string, Session.Val)>, name: string)
    requires values != []
    ensures Names(values, name) <==> values[|values| - 1].0 == name || Names(values[..|values| - 1], name)
  {
    var front := values[..|values| - 1];
    if i :| 0 <= i < |values| && values[i].0 == name && i < |front| {
      assert front[i].0 == name;
    }
    if i :| 0 <= i < |front| && front[i].0 == name {
      assert values[i].0 == name;
    }
  }

  /** Values shared under names of their own are stored, the last of a name winning; all other
      keys stay; and a flush brings the client up to date. */
  lemma ValuesShared(d: StaticData, j: Joint, values: seq<(string, Session.Val)>, send: bool)
    requires Orderly(d, j.client.link) && j.client.place.location != 0
    ensures var c, r := j.client, Step(d, j, Share(values, send)).client;
            && r == c.(link := r.link)
            && (forall name :: Names(values, name) ==>
                  Shows(d, r.link.store, Session.Named(name), LastOf(values, name)))
            && (forall k: Session.Key :: !(k.Named? && Names(values, k.name)) ==>
                  Session.Current(r.link.store, k) == Session.Current(c.link.store, k))
            && (if send then UpToDate(r.link) else r.link.sent == c.link.sent)
  {
    hide SetAll, SharedWrites, SendSessionChange, Orderly, UpToDate, Session.Current;
    var c := j.client;
    var w := SharedWrites(Done, values);
    var told := c.(link := SetAll(d.hash, c.link, w));
    SharedLeft(values, Done);
    LeftShows(d, c.link, w);
    StoresSendNothing(d.hash, c.link, w);
    FlushShown(d, told) by {
      assert Orderly(d, told.link) by {
        StillOrderly(d, c.link, w);
      }
    }
  }

  lemma StillOrderly(d: StaticData, l: SessionReplica.Link, w: Writes)
    requires Orderly(d, l)
    ensures Orderly(d, SetAll(d.hash, l, w))
  {
    hide SetAll;
    StoresSendNothing(d.hash, l, w);
  }

  lemma TimerSet(d: StaticData, j: Joint, now: int)
    ensures var c, r := j.client, Step(d, j, SessionTimer(now)).client;
            && r == c.(link := r.link) && r.link.sent == c.link.sent
            && Shows(d, r.link.store, Session.NextSessionChange, Session.Long(now + 20 * SECOND))
            && forall k :: k != Session.NextSessionChange ==>
                 Session.Lookup(r.link.store, k) == Session.Lookup(c.link.store, k)
  {
    hide SetSessionTimer;
    TimerShown(d, j.client, now);
  }
}
