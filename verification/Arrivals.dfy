/** Where a move ends: what it does to all of the client, in terms of the static data alone. */
module Arrivals {
  import opened Session
  import opened SessionReplica
  import opened ClientState
  import opened SessionKeys
  import DestinyLanes

  predicate Somewhere(d: StaticData, location: nat) {
    location in d.stations || location in d.systems
  }

  /** Client, character and ship at a location: in a hangar, or flying. */
  function SettledAt(d: StaticData, p: Place, location: nat): Place
    requires Somewhere(d, location)
  {
    if location in d.stations then
      var station := d.stations[location];
      p.(location := location, systemData := station.system, system := To(station.system),
         charStation := location, charSystem := station.system,
         shipInSpace := false, dockExit := station.dockExit)
    else
      p.(location := location, systemData := location, system := To(location),
         charStation := 0, charSystem := location, shipInSpace := true)
  }

  /** The move leaves the system the client is in: for a jump, or for another system. */
  predicate Leaves(d: StaticData, c: Client, location: nat)
    requires Somewhere(d, location)
  {
    || c.move.state == State.Jump || c.move.state == State.DriveJump || c.move.state == State.WormholeJump
    || c.place.system != SettledAt(d, c.place, location).system
  }

  /** The client is in that very system and past its login: only the ship is placed. */
  predicate Already(d: StaticData, c: Client, location: nat) {
    location in d.systems && location == c.place.location && !c.place.login
  }

  /** The client has been told of its new place, and only of that. */
  ghost predicate Announced(d: StaticData, before: Link, after: Link, p: Place, now: int) {
    && Orderly(d, after) && UpToDate(after)
    && ShowsClient(d, after.store, p, now) && SameElsewhere(before.store, after.store)
  }

  lemma Disjoint(d: StaticData, location: nat)
    ensures !(location in d.stations && location in d.systems) && 0 !in d.stations && 0 !in d.systems
    ensures location in d.stations ==> d.stations[location].system in d.systems
  {
    assert location !in d.stations.Keys * d.systems.Keys;
  }

  lemma SetOrderly(d: StaticData, l: Link, k: Key, v: Val)
    requires Orderly(d, l)
    ensures Orderly(d, SetIn(d.hash, l, k, v))
  {
    WellFlaggedSet(d.hash, l.store, k, v);
    InSyncSet(d.hash, l, k, v);
  }

  lemma TimerKeeps(d: StaticData, c: Client, time: int)
    ensures var r := SetSessionTimer(d, c, time);
            && r == c.(link := r.link)
            && (Orderly(d, c.link) ==> Orderly(d, r.link))
            && SameElsewhere(c.link.store, r.link.store)
  {
    hide Elsewhere;
    TimerShown(d, c, time);
    if Orderly(d, c.link) {
      SetOrderly(d, c.link, NextSessionChange, Long(time + NEXT_CHANGE));
    }
    NextElsewhere();
  }

  lemma NextElsewhere()
    ensures !Elsewhere(NextSessionChange)
  {
  }

  /** What becomes of the ship. */
  lemma ShipSettles(d: StaticData, c: Client, env: Env)
    requires Orderly(d, c.link) && Somewhere(d, c.place.location)
    ensures var r := ShipPlaced(d, c, env);
            && r.move == c.move && Orderly(d, r.link) && SameElsewhere(c.link.store, r.link.store)
            && (c.place.location in d.stations ==>
                  && r.place == c.place.(shipInSpace := false, dockExit := d.stations[c.place.location].dockExit)
                  && r.lanes == c.lanes.(bubbleWait := true))
            && (c.place.location in d.systems ==>
                  && r.place == c.place.(shipInSpace := true)
                  && r.lanes == c.lanes.(bubbleWait := false, setStateSent := false))
  {
    hide Orderly, SetSessionTimer;
    Disjoint(d, c.place.location);
    var there := c.(lanes := c.lanes.(bubbleWait := false, setStateSent := false),
                    place := c.place.(shipInSpace := true));
    TimerKeeps(d, there, env.shipTime);
  }

  lemma ArriveSettles(d: StaticData, c: Client, env: Env)
    requires Orderly(d, c.link) && Somewhere(d, c.place.location)
    requires c.place == SettledAt(d, c.place, c.place.location).(charStation := c.place.charStation,
               charSystem := c.place.charSystem, shipInSpace := c.place.shipInSpace, dockExit := c.place.dockExit)
    ensures var r := Arrive(d, c, env);
            && r.place == SettledAt(d, c.place, c.place.location) && r.move == c.move
            && r.lanes == c.lanes.(bubbleWait := c.place.location in d.stations,
                                   setStateSent := c.lanes.setStateSent && c.place.location in d.stations)
            && Announced(d, c.link, r.link, r.place, env.now)
  {
    hide Orderly, ShipPlaced, UpdateSession, SendSessionChange, ShowsClient, UpToDate, SameElsewhere;
    Disjoint(d, c.place.location);
    ShipSettles(d, c, env);
    var settled := CharacterPlaced(d, ShipPlaced(d, c, env));
    UpdatedShows(d, settled, env.now);
    UpdateOrderly(d, settled, env.now);
    var told := UpdateSession(d, settled, env.now);
    FlushShown(d, told);
    FlushKeeps(d, told, env.now);
    SameTwice(c.link.store, settled.link.store, told.link.store);
    SameTwice(c.link.store, told.link.store, SendSessionChange(d, told).link.store);
  }

  lemma UpdateOrderly(d: StaticData, c: Client, now: int)
    requires Orderly(d, c.link)
    ensures Orderly(d, UpdateSession(d, c, now).link)
  {
    hide SetAll, SystemWrites, PlaceWrites;
    StoresSendNothing(d.hash, c.link, SystemWrites(d, PlaceWrites(d, c.place), c.place, now));
  }

  lemma FlushKeeps(d: StaticData, c: Client, now: int)
    requires Orderly(d, c.link) && c.place.location != 0
    ensures var s := SendSessionChange(d, c).link.store;
            && SameElsewhere(c.link.store, s)
            && (ShowsClient(d, c.link.store, c.place, now) ==> ShowsClient(d, s, c.place, now))
  {
    hide SendSessionChange, Orderly, UpToDate, Current, ShowsClient, Elsewhere;
    FlushShown(d, c);
    SameShown(d, c.link.store, SendSessionChange(d, c).link.store, c.place, now);
  }

  lemma SameShown(d: StaticData, s: Store, t: Store, p: Place, now: int)
    requires forall k :: Current(t, k) == Current(s, k)
    ensures ShowsClient(d, s, p, now) ==> ShowsClient(d, t, p, now)
  {
    hide Current;
  }

  lemma SameTwice(s: Store, t: Store, u: Store)
    requires SameElsewhere(s, t) && SameElsewhere(t, u)
    ensures SameElsewhere(s, u)
  {
  }

  // ------------------------------------------------------------------------ moves

  /** A move to a system that boots, or that the client is in, settles client, character and
      ship at the location, and tells the client. The ballpark and the full state are asked
      for anew in a system that is entered. */
  lemma MoveSettles(d: StaticData, c: Client, env: Env, location: nat)
    requires Orderly(d, c.link) && Somewhere(d, location) && !Already(d, c, location)
    requires env.boots || !Leaves(d, c, location)
    ensures var r, entered := MoveToLocation(d, c, env, location), Leaves(d, c, location);
            && r.place == SettledAt(d, c.place, location).(beyonce := c.place.beyonce && !entered)
            && r.move == c.move
            && r.lanes == c.lanes.(bubbleWait := location in d.stations,
                                   setStateSent := c.lanes.setStateSent && !entered && location in d.stations)
            && Announced(d, c.link, r.link, r.place, env.now)
  {
    hide Arrive, Orderly, Announced, Depart, SettledAt;
    Disjoint(d, location);
    DepartFrom(d, c, location);
    var gone := Depart(d, c, location);
    if Leaves(d, c, location) {
      SettledTwice(d, c.place, location, false);
      SettledButOne(d, c.place, location, false);
      assert Boot(gone).place == On(c.place, SettledAt(d, c.place, location), false);
      ArriveSettles(d, Boot(gone), env);
    } else {
      SettledTwice(d, c.place, location, c.place.beyonce);
      SettledButOne(d, c.place, location, c.place.beyonce);
      assert gone.place == On(c.place, SettledAt(d, c.place, location), c.place.beyonce);
      ArriveSettles(d, gone, env);
    }
  }

  lemma DepartFrom(d: StaticData, c: Client, location: nat)
    requires Somewhere(d, location)
    ensures var at := SettledAt(d, c.place, location);
            Depart(d, c, location)
            == c.(place := c.place.(location := location, systemData := at.systemData,
                                    system := if Leaves(d, c, location) then Null else at.system),
                  lanes := c.lanes.(bubbleWait := false))
    ensures SettledAt(d, c.place, location).system == To(SettledAt(d, c.place, location).systemData)
    ensures SettledAt(d, c.place, location).location == location
  {
    Disjoint(d, location);
  }

  /** A place whose location and system are set already. */
  function On(p: Place, at: Place, beyonce: bool): Place {
    p.(location := at.location, systemData := at.systemData, system := at.system, beyonce := beyonce)
  }

  /** Settling does not depend on where the client was, but for what it leaves alone. */
  lemma SettledTwice(d: StaticData, p: Place, location: nat, beyonce: bool)
    requires Somewhere(d, location)
    ensures var q := On(p, SettledAt(d, p, location), beyonce);
            SettledAt(d, q, location) == SettledAt(d, p, location).(beyonce := beyonce)
  {
  }

  lemma SettledButOne(d: StaticData, p: Place, location: nat, beyonce: bool)
    requires Somewhere(d, location)
    ensures var q := On(p, SettledAt(d, p, location), beyonce);
            && q.location == location
            && q == SettledAt(d, q, location).(charStation := q.charStation, charSystem := q.charSystem,
                                               shipInSpace := q.shipInSpace, dockExit := q.dockExit)
  {
  }

  /** If the system does not boot, the client alone is moved, out of any system, and is told
      nothing. */
  lemma MoveStrands(d: StaticData, c: Client, env: Env, location: nat)
    requires Somewhere(d, location) && !Already(d, c, location)
    requires !env.boots && Leaves(d, c, location)
    ensures var at := SettledAt(d, c.place, location);
            MoveToLocation(d, c, env, location)
            == c.(place := c.place.(location := location, systemData := at.systemData, system := Null),
                  lanes := c.lanes.(bubbleWait := false))
  {
    Disjoint(d, location);
  }

  /** A move within the system the client is in only puts the ship there and asks for the full
      state anew; a ship new in space sets the session timer. */
  lemma MoveWithin(d: StaticData, c: Client, env: Env, location: nat)
    requires Already(d, c, location)
    ensures var r := MoveToLocation(d, c, env, location);
            && r.place == c.place.(shipInSpace := true) && r.move == c.move
            && r.lanes == c.lanes.(bubbleWait := false, setStateSent := false)
            && r.link.sent == c.link.sent
            && (c.place.shipInSpace ==> r.link == c.link)
            && (!c.place.shipInSpace ==> Shows(d, r.link.store, NextSessionChange, Long(env.shipTime + 20 * SECOND)))
            && forall k :: k != NextSessionChange ==> Lookup(r.link.store, k) == Lookup(c.link.store, k)
  {
    hide SetSessionTimer;
    Disjoint(d, location);
    var there := c.(lanes := c.lanes.(bubbleWait := false, setStateSent := false),
                    place := c.place.(shipInSpace := true));
    TimerShown(d, there, env.shipTime);
  }

  /** Anything but a station or a system is refused. */
  lemma MoveRefused(d: StaticData, c: Client, env: Env, location: nat)
    requires !Somewhere(d, location)
    ensures MoveToLocation(d, c, env, location) == c
  {
  }

  /** However it goes, the client is at the location then. */
  lemma MoveGoes(d: StaticData, c: Client, env: Env, location: nat)
    requires Somewhere(d, location)
    ensures MoveToLocation(d, c, env, location).place.location == location
  {
    hide Arrive;
    Disjoint(d, location);
    ArriveThere(d, Depart(d, c, location), env);
    ArriveThere(d, Boot(Depart(d, c, location)), env);
  }

  lemma ArriveThere(d: StaticData, c: Client, env: Env)
    requires c.place.location != 0
    ensures Arrive(d, c, env).place.location == c.place.location
  {
  }

  /** Undocking: the ship is out in the system of the station, the direction of the dock is
      the target point, and a timer that was off runs for the undocking. */
  lemma UndockSettles(d: StaticData, c: Client, env: Env)
    requires Orderly(d, c.link)
    requires c.place.location in d.stations && c.place.systemData == d.stations[c.place.location].system
    requires env.boots || !Leaves(d, c, c.place.systemData)
    ensures var r, system := UndockFromStation(d, c, env), d.stations[c.place.location].system;
            && r.place == SettledAt(d, c.place, system).(undock := true, beyonce := c.place.beyonce && !Leaves(d, c, system))
            && r.move == c.move.(point := c.place.dockExit, trace := Then(c.move.trace, Redirected(c.place.dockExit)),
                                 stateTimer := true,
                                 state := if c.move.stateTimer then c.move.state else State.Undock)
            && r.lanes == c.lanes.(bubbleWait := false, setStateSent := false)
            && Orderly(d, r.link) && UpToDate(r.link)
            && ShowsSpace(d, r.link.store, system, c.place.ship) && ShowsSystem(d, r.link.store, system)
            && Shows(d, r.link.store, NextSessionChange, Long(env.timerTime + 20 * SECOND))
  {
    hide MoveToLocation, SetSessionTimer, SendSessionChange, Orderly, Shows, UpToDate, SameElsewhere;
    Disjoint(d, c.place.location);
    Disjoint(d, c.place.systemData);
    MoveSettles(d, Undocking(c), env, c.place.systemData);
    var outside := MoveToLocation(d, Undocking(c), env, c.place.systemData);
    var timed := outside.(move := SetStateTimer(outside.move, State.Undock, UNDOCK_TIME));
    TimedFlush(d, timed, env.now, env.timerTime);
  }

  /** What a client is shown of its place, whatever the session timer says. */
  predicate ShowsPlace(d: StaticData, s: Store, p: Place) {
    && (p.charStation in d.stations ==> ShowsStation(d, s, p.charStation))
    && (p.charStation !in d.stations ==> ShowsSpace(d, s, p.charSystem, p.ship))
    && ShowsSystem(d, s, p.charSystem)
  }

  lemma SamePlaceShown(d: StaticData, s: Store, t: Store, p: Place, now: int)
    requires forall k :: k != NextSessionChange ==> Current(t, k) == Current(s, k)
    requires ShowsClient(d, s, p, now)
    ensures ShowsPlace(d, t, p)
  {
    hide Current;
  }

  /** Docking and undocking go where they should whether or not the system boots. */
  lemma DockUndockGo(d: StaticData, c: Client, env: Env)
    requires Orderly(d, c.link)
    ensures Somewhere(d, c.place.dockStation) ==>
              DockToStation(d, c, env).place.location == c.place.dockStation
    ensures Somewhere(d, c.place.systemData) ==>
              UndockFromStation(d, c, env).place.location == c.place.systemData
  {
    hide MoveToLocation, SetSessionTimer, SendSessionChange, Orderly;
    if Somewhere(d, c.place.dockStation) {
      Disjoint(d, c.place.dockStation);
      MoveGoes(d, Docking(c), env, c.place.dockStation);
      FlushStays(d, MoveToLocation(d, Docking(c), env, c.place.dockStation), env.timerTime);
    }
    if Somewhere(d, c.place.systemData) {
      Disjoint(d, c.place.systemData);
      MoveGoes(d, Undocking(c), env, c.place.systemData);
      var outside := MoveToLocation(d, Undocking(c), env, c.place.systemData);
      FlushStays(d, outside.(move := SetStateTimer(outside.move, State.Undock, UNDOCK_TIME)), env.timerTime);
    }
  }

  lemma FlushStays(d: StaticData, c: Client, time: int)
    requires c.place.location != 0
    ensures SendSessionChange(d, SetSessionTimer(d, c, time)).place == c.place
  {
  }

  /** A client told of its place has its session timer told on top. */
  lemma TimedFlush(d: StaticData, c: Client, now: int, time: int)
    requires Orderly(d, c.link) && c.place.location != 0 && ShowsClient(d, c.link.store, c.place, now)
    ensures var r := SendSessionChange(d, SetSessionTimer(d, c, time)); var s := r.link.store;
            && r == c.(link := r.link) && Orderly(d, r.link) && UpToDate(r.link)
            && ShowsPlace(d, s, c.place)
            && Shows(d, s, NextSessionChange, Long(time + 20 * SECOND))
  {
    hide SetSessionTimer, SendSessionChange, Orderly, UpToDate, ShowsClient, ShowsPlace, Lookup;
    TimerShown(d, c, time);
    TimerKeeps(d, c, time);
    FlushShown(d, SetSessionTimer(d, c, time));
    var s := SendSessionChange(d, SetSessionTimer(d, c, time)).link.store;
    forall k | k != NextSessionChange
      ensures Current(s, k) == Current(c.link.store, k)
    {
      assert Lookup(SetSessionTimer(d, c, time).link.store, k) == Lookup(c.link.store, k);
    }
    SamePlaceShown(d, c.link.store, s, c.place, now);
  }

  /** Docking at the chosen station: client, character and ship are in its hangar, the client
      is shown that, and is idle with the autopilot off. */
  lemma DockSettles(d: StaticData, c: Client, env: Env)
    requires Orderly(d, c.link) && c.place.dockStation in d.stations
    requires env.boots || c.place.system == To(d.stations[c.place.dockStation].system)
    ensures var r, station := DockToStation(d, c, env), c.place.dockStation;
            && r.place == SettledAt(d, c.place, station).(autopilot := false,
                            beyonce := c.place.beyonce && c.place.system == To(d.stations[station].system))
            && r.move == c.move.(state := Idle)
            && r.lanes == c.lanes.(bubbleWait := true, setStateSent := false)
            && Orderly(d, r.link) && UpToDate(r.link)
            && ShowsStation(d, r.link.store, station) && ShowsSystem(d, r.link.store, d.stations[station].system)
            && Shows(d, r.link.store, NextSessionChange, Long(env.timerTime + 20 * SECOND))
  {
    hide MoveToLocation, SetSessionTimer, SendSessionChange, Orderly, Shows, UpToDate, SameElsewhere;
    var station := c.place.dockStation;
    Disjoint(d, station);
    MoveSettles(d, Docking(c), env, station);
    TimedFlush(d, MoveToLocation(d, Docking(c), env, station), env.now, env.timerTime);
  }
}
