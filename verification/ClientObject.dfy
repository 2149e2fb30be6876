/** The client object, whose methods update its fields in place; each is proved to do to its
    state what the functions on values say. */
module ClientObject {
  import opened Session
  import opened SessionReplica
  import opened ClientState
  import opened ClientRuns
  import DestinyLanes
  import JumpTargets

  /** The wormholes of all systems, shared by all clients. */
  class ItemRegistry {
    var wormholes: map<nat, Wormhole>
    ghost var commits: seq<Commit>

    constructor ()
      ensures Contents() == Holes(map[], [])
    {
      wormholes := map[];
      commits := [];
    }

    ghost function Contents(): Holes
      reads this
    {
      Holes(wormholes, commits)
    }

    /** Takes the mass of a ship from a wormhole and from its exit. */
    method Deduct(hole: nat, tons: nat)
      modifies this
      ensures Contents() == ClientRuns.Deduct(old(Contents()), hole, tons)
    {
      if hole in wormholes {
        var entrance := wormholes[hole];
        wormholes := wormholes[hole := entrance.(stableMass := entrance.stableMass - tons)];
        var exitID := ItemID(entrance.target2);
        if exitID != 0 {
          if exitID in wormholes {
            var exit := wormholes[exitID];
            wormholes := wormholes[exitID := exit.(stableMass := exit.stableMass - tons)];
          }
        }
        commits := commits + [Commit(hole, tons)];
      }
    }

    method CreateExit(system: nat, source: nat, spawn: Spawn)
      requires source in wormholes
      modifies this
      ensures Contents() == ClientRuns.CreateExit(old(Contents()), system, source, spawn)
    {
      if spawn.NoSpawn? || spawn.id == 0 || spawn.id != ItemID(spawn.id) || spawn.id in wormholes {
        return;
      }
      var entrance := wormholes[source];
      var exit := Wormhole(true, system, spawn.position, 0, 0, source, source);
      exit := exit.(stableMass := entrance.stableMass);
      exit := exit.(maxJumpMass := entrance.maxJumpMass);
      wormholes := wormholes[spawn.id := exit];
      wormholes := wormholes[source := entrance.(target2 := spawn.id)];
    }
  }

  /** The queues of destiny updates and events of one client. */
  class DestinyQueue {
    var setStateSent: bool
    var bubbleWait: bool
    var packaged: bool
    var pendingUpdates: seq<DestinyLanes.Update>
    var destinyUpdateQueue: seq<DestinyLanes.Action>
    var destinyEventQueue: seq<DestinyLanes.Update>
    ghost var history: DestinyLanes.History

    constructor ()
      ensures LanesOf() == DestinyLanes.FRESH
    {
      setStateSent, bubbleWait, packaged := false, false, false;
      pendingUpdates, destinyUpdateQueue, destinyEventQueue := [], [], [];
      history := DestinyLanes.Start;
    }

    ghost function LanesOf(): DestinyLanes.Lanes
      reads this
    {
      DestinyLanes.Lanes(setStateSent, bubbleWait, packaged, pendingUpdates, destinyUpdateQueue, destinyEventQueue, history)
    }

    method QueueDestinyUpdate(docked: bool, update: DestinyLanes.Update, doPackage: bool, isSetState: bool)
      modifies this
      ensures LanesOf() == DestinyLanes.QueueUpdate(old(LanesOf()), docked,
                                                    update, doPackage, isSetState)
    {
      if docked {
        return;
      }
      if update.items == [] {
        return;
      }
      if !isSetState && !setStateSent {
        pendingUpdates := pendingUpdates + [update];
        history := DestinyLanes.Then(history, DestinyLanes.Accepted(DestinyLanes.Deferred, update));
        return;
      }
      if doPackage && isSetState {
        var packet := DestinyLanes.DestinyUpdate([DestinyLanes.Bare(update)], bubbleWait);
        history := DestinyLanes.Then(history, DestinyLanes.Accepted(DestinyLanes.Immediate, update));
        history := DestinyLanes.Then(history, DestinyLanes.Sent(DestinyLanes.Immediate, packet));
        return;
      }
      var head := update.items[0];
      var action := DestinyLanes.Bare(update);
      if head != DestinyLanes.Text {
        if head == DestinyLanes.Integer || head == DestinyLanes.LongInteger {
          action := DestinyLanes.Packaged(update);
        } else {
          return;
        }
      }
      packaged := true;
      destinyUpdateQueue := destinyUpdateQueue + [action];
      history := DestinyLanes.Then(history, DestinyLanes.Accepted(DestinyLanes.Batched, update));
    }

    method QueueDestinyEvent(event: DestinyLanes.Update)
      modifies this
      ensures LanesOf() == DestinyLanes.QueueEvent(old(LanesOf()), event)
    {
      if event.items == [] {
        return;
      }
      if event.items[0] != DestinyLanes.Text {
        return;
      }
      destinyEventQueue := destinyEventQueue + [event];
      history := DestinyLanes.Then(history, DestinyLanes.Accepted(DestinyLanes.Events, event));
    }

    method SendQueuedUpdates(docked: bool)
      modifies this
      ensures LanesOf() == DestinyLanes.SendQueuedUpdates(old(LanesOf()), docked)
    {
      if docked {
        history := DestinyLanes.Then(history, DestinyLanes.Dropped(destinyUpdateQueue, destinyEventQueue));
        destinyUpdateQueue := [];
        destinyEventQueue := [];
        return;
      }
      if destinyUpdateQueue != [] {
        var packet := DestinyLanes.DestinyUpdate(destinyUpdateQueue, bubbleWait);
        history := DestinyLanes.Then(history, DestinyLanes.Sent(DestinyLanes.Batched, packet));
      }
      if destinyEventQueue != [] {
        var packet := DestinyLanes.MultiEvent(destinyEventQueue);
        history := DestinyLanes.Then(history, DestinyLanes.Sent(DestinyLanes.Events, packet));
      }
      destinyUpdateQueue := [];
      destinyEventQueue := [];
      packaged := false;
    }

    method FlushQueue(docked: bool)
      modifies this
      ensures LanesOf() == DestinyLanes.FlushQueue(old(LanesOf()), docked)
    {
      if destinyUpdateQueue != [] || destinyEventQueue != [] {
        SendQueuedUpdates(docked);
      }
    }

    /** The held-back updates go out in one packet; the loop skips the unreadable ones. */
    method FlushPendingDestinyUpdates()
      modifies this
      ensures LanesOf() == DestinyLanes.FlushPending(old(LanesOf()))
    {
      if pendingUpdates == [] {
        return;
      }
      var actions: seq<DestinyLanes.Action> := [];
      var i := 0;
      while i < |pendingUpdates|
        invariant i <= |pendingUpdates|
        invariant actions == DestinyLanes.BareAll(DestinyLanes.Sendable(pendingUpdates[..i]))
        invariant LanesOf() == old(LanesOf())
      {
        var update := pendingUpdates[i];
        i := i + 1;
        assert pendingUpdates[..i][..i - 1] == pendingUpdates[..i - 1];
        if update.items == [] {
          continue;
        }
        if update.items[0] == DestinyLanes.Other {
          continue;
        }
        ghost var front := DestinyLanes.Sendable(pendingUpdates[..i - 1]);
        assert (front + [update])[..|front|] == front;
        actions := actions + [DestinyLanes.Bare(update)];
      }
      assert pendingUpdates[..i] == pendingUpdates;
      history := DestinyLanes.Then(history,
                                   DestinyLanes.Sent(DestinyLanes.Deferred, DestinyLanes.DestinyUpdate(actions, bubbleWait)));
      pendingUpdates := [];
    }

    method SetStateSent(isSent: bool)
      modifies this
      ensures LanesOf() == DestinyLanes.SetStateSent(old(LanesOf()), isSent)
    {
      setStateSent := isSent;
      if setStateSent {
        FlushPendingDestinyUpdates();
      }
    }

    method SetFlags(isSent: bool, waits: bool)
      modifies this
      ensures LanesOf() == old(LanesOf()).(setStateSent := isSent, bubbleWait := waits)
    {
      setStateSent := isSent;
      bubbleWait := waits;
    }
  }

  /** The client: its session, its queues, its pending move and where it is. */
  class Client {
    const data: StaticData
    const session: ClientSession
    const queue: DestinyQueue
    const items: ItemRegistry
    var sent: seq<Packet>
    var move: Move
    var place: Place

    constructor (data: StaticData, items: ItemRegistry)
      ensures Valid() && this.data == data && this.items == items && fresh(session) && fresh(queue)
      ensures Abs() == NEW_CLIENT
    {
      this.data := data;
      this.items := items;
      session := new ClientSession(data.hash);
      queue := new DestinyQueue();
      sent := [];
      move := Move(Idle, false, false, 0, NULL_ORIGIN, 0, 0, Start);
      place := Place(0, 0, Null, 0, 0, 0, false, true, false, false, false, false, 0, NULL_ORIGIN);
    }

    ghost predicate Valid() {
      session.hash == data.hash
    }

    ghost function LinkOf(): Link
      reads this, session
    {
      Link(session.Contents(), sent)
    }

    ghost function Abs(): ClientState.Client
      reads this, session, queue
    {
      ClientState.Client(LinkOf(), queue.LanesOf(), move, place)
    }

    // --------------------------------------------------------------------- session

    method SendInitialSessionStatus()
      requires Valid()
      modifies this, session
      ensures Abs() == old(Abs()).(link := SendInitialStatus(old(LinkOf())))
    {
      var initial := session.EncodeInitialState();
      sent := sent + [InitialState(initial)];
    }

    method SendSessionChange()
      requires Valid()
      modifies this, session
      ensures Abs() == ClientState.SendSessionChange(data, old(Abs()))
    {
      hide FixLocation, SendChanges;
      if !session.dirty {
        return;
      }
      FixLocationID();
      PutChanges();
    }

    method FixLocationID()
      requires Valid()
      modifies `place, session
      ensures Abs() == FixLocation(data, old(Abs()))
    {
      hide Session.Set;
      if place.location != 0 {
        return;
      }
      var location := place.systemData;
      if IsStation(data, place.charStation) {
        location := place.charStation;
      }
      place := place.(location := location);
      session.SetValue(LocationId, Int(location));
    }

    method PutChanges()
      requires Valid()
      modifies `sent, session
      ensures LinkOf() == SendChanges(old(LinkOf()))
    {
      hide Changes, AfterChanges;
      var changes := session.EncodeChanges();
      if changes == map[] {
        return;
      }
      sent := sent + [SessionChange(changes)];
    }

    /** One store after those of w. */
    method Store(k: Key, v: Val, ghost l: Link, ghost w: Writes)
      requires Valid() && LinkOf() == SetAll(data.hash, l, w)
      modifies session
      ensures LinkOf() == SetAll(data.hash, l, Write(w, k, v))
    {
      session.SetValue(k, v);
    }

    method TellStation(station: nat, ghost l: Link)
      requires Valid() && LinkOf() == l
      modifies session
      ensures LinkOf() == SetAll(data.hash, l, StationWrites(station))
    {
      ghost var w := StationWrites(station);
      Store(SolarSystemId, None, l, Done);
      Store(ShipId, None, l, w.before.before.before.before.before);
      Store(StationId, Int(station), l, w.before.before.before.before);
      Store(StationId2, Int(station), l, w.before.before.before);
      Store(WorldspaceId, Int(station), l, w.before.before);
      Store(LocationId, Int(station), l, w.before);
    }

    method TellSpace(system: nat, ship: nat, ghost l: Link)
      requires Valid() && LinkOf() == l
      modifies session
      ensures LinkOf() == SetAll(data.hash, l, SpaceWrites(system, ship))
    {
      ghost var w := SpaceWrites(system, ship);
      Store(StationId, None, l, Done);
      Store(StationId2, None, l, w.before.before.before.before.before);
      Store(WorldspaceId, None, l, w.before.before.before.before);
      Store(SolarSystemId, Int(system), l, w.before.before.before);
      Store(LocationId, Int(system), l, w.before.before);
      Store(ShipId, Int(ship), l, w.before);
    }

    method UpdateSession(now: int)
      requires Valid()
      modifies session
      ensures Abs() == ClientState.UpdateSession(data, old(Abs()), now)
    {
      ghost var l, p := LinkOf(), place;
      if IsStation(data, place.charStation) {
        TellStation(place.charStation, l);
      } else {
        TellSpace(place.charSystem, place.ship, l);
      }
      ghost var w := PlaceWrites(data, p);
      ghost var all := SystemWrites(data, w, p, now);
      Store(SolarSystemId2, Int(place.charSystem), l, w);
      Store(ConstellationId, Int(DataOf(data, place.charSystem).constellation), l, all.before.before.before.before);
      Store(RegionId, Int(DataOf(data, place.charSystem).region), l, all.before.before.before);
      Store(Autopilot, Int(if place.autopilot then 1 else 0), l, all.before.before);
      Store(NextSessionChange, Long(now + NEXT_CHANGE), l, all.before);
    }

    /** Stores variables under names of their own. */
    method StoreShared(values: seq<(string, Val)>, ghost l: Link, ghost w: Writes)
      requires Valid() && LinkOf() == SetAll(data.hash, l, w)
      modifies session
      ensures LinkOf() == SetAll(data.hash, l, SharedWrites(w, values))
    {
      var i := 0;
      while i < |values|
        invariant i <= |values|
        invariant LinkOf() == SetAll(data.hash, l, SharedWrites(w, values[..i]))
      {
        Store(Named(values[i].0), values[i].1, l, SharedWrites(w, values[..i]));
        assert values[..i + 1][..i] == values[..i];
        i := i + 1;
      }
      assert values[..i] == values;
    }

    method UpdateShared(values: seq<(string, Val)>, send: bool)
      requires Valid()
      modifies this, session
      ensures Abs() == ShareValues(data, old(Abs()), values, send)
    {
      hide ClientState.SendSessionChange, SetAll, SharedWrites;
      StoreNamed(values);
      if send {
        SendSessionChange();
      }
    }

    method StoreNamed(values: seq<(string, Val)>)
      requires Valid()
      modifies session
      ensures Abs() == old(Abs()).(link := SetAll(data.hash, old(LinkOf()), SharedWrites(Done, values)))
    {
      StoreShared(values, LinkOf(), Done);
    }

    method InitStationKeys(station: nat, ghost l: Link, ghost before: Writes)
      requires Valid() && LinkOf() == SetAll(data.hash, l, before)
      modifies session
      ensures LinkOf() == SetAll(data.hash, l, InitStation(before, station))
    {
      ghost var w := InitStation(before, station);
      Store(SolarSystemId, None, l, before);
      Store(ShipId, None, l, w.before.before.before.before.before);
      Store(StationId, Int(station), l, w.before.before.before.before);
      Store(StationId2, Int(station), l, w.before.before.before);
      Store(LocationId, Int(station), l, w.before.before);
      Store(WorldspaceId, Int(station), l, w.before);
    }

    method InitSpaceKeys(solarSystem: nat, ship: nat, ghost l: Link, ghost before: Writes)
      requires Valid() && LinkOf() == SetAll(data.hash, l, before)
      modifies session
      ensures LinkOf() == SetAll(data.hash, l, InitSpace(before, solarSystem, ship))
    {
      ghost var w := InitSpace(before, solarSystem, ship);
      Store(StationId, None, l, before);
      Store(StationId2, None, l, w.before.before.before.before.before);
      Store(WorldspaceId, None, l, w.before.before.before.before);
      Store(ShipId, Int(ship), l, w.before.before.before);
      Store(SolarSystemId, Int(solarSystem), l, w.before.before);
      Store(LocationId, Int(solarSystem), l, w.before);
    }

    method InitProfile(row: Row, ghost l: Link)
      requires Valid() && LinkOf() == l
      modifies session
      ensures LinkOf() == SetAll(data.hash, l, ProfileWrites(row))
    {
      StoreShared(row.identity, l, Done);
      ghost var a := Write(SharedWrites(Done, row.identity), SolarSystemId2, Int(row.system));
      Store(SolarSystemId2, Int(row.system), l, a.before);
      Store(ConstellationId, Int(row.constellation), l, a);
      Store(RegionId, Int(row.region), l, Write(a, ConstellationId, Int(row.constellation)));
      StoreShared(row.corporation, l,
                  Write(Write(a, ConstellationId, Int(row.constellation)), RegionId, Int(row.region)));
    }

    method InitSession(row: Row)
      requires Valid()
      modifies `place, session
      ensures Abs() == ClientState.InitSession(data, old(Abs()), row)
    {
      hide SetAll, ProfileWrites, InitStation, InitSpace;
      ghost var l := LinkOf();
      place := place.(ship := row.ship);
      InitProfile(row, l);
      if IsStation(data, row.station) {
        place := place.(location := row.station);
        InitStationKeys(row.station, l, ProfileWrites(row));
      } else {
        place := place.(location := row.system);
        InitSpaceKeys(row.system, row.ship, l, ProfileWrites(row));
      }
      if IsSolarSystem(data, SystemOf(data, place.location)) {
        place := place.(systemData := SystemOf(data, place.location));
      }
    }

    method SetShip(ship: nat)
      requires Valid()
      modifies `place, session
      ensures Abs() == ClientState.SetShip(data, old(Abs()), ship)
    {
      hide Session.Set;
      place := place.(shipInSpace := false);
      place := place.(ship := ship);
      if IsSolarSystem(data, place.location) {
        session.SetValue(ShipId, Int(ship));
      }
    }

    // -------------------------------------------------------------------- movement

    method SetStateTimer(state: State, time: nat)
      modifies `move
      ensures move == ClientState.SetStateTimer(old(move), state, time)
    {
      if time == 0 {
        move := move.(stateTimer := false);
        return;
      }
      if move.stateTimer {
        return;
      }
      move := move.(state := state);
      move := move.(stateTimer := true);
    }

    method SendSetState(env: Env)
      modifies queue
      ensures Abs() == ClientState.SendSetState(data, old(Abs()), env)
    {
      hide DestinyLanes.QueueUpdate, DestinyLanes.SetStateSent;
      if !env.inBubble {
        return;
      }
      queue.QueueDestinyUpdate(IsStation(data, place.location), env.snapshot, true, true);
      queue.SetStateSent(true);
    }

    method SetSessionTimer(time: int)
      requires Valid()
      modifies session
      ensures Abs() == ClientState.SetSessionTimer(data, old(Abs()), time)
    {
      hide Session.Set;
      session.SetValue(NextSessionChange, Long(time + NEXT_CHANGE));
    }

    method SetDestiny(env: Env)
      requires Valid()
      modifies `place, session, queue
      ensures Abs() == ClientState.SetDestiny(data, old(Abs()), env)
    {
      hide ClientState.SetSessionTimer;
      if !IsSolarSystem(data, place.location) {
        return;
      }
      queue.SetFlags(false, false);
      if !place.shipInSpace {
        place := place.(shipInSpace := true);
        SetSessionTimer(env.shipTime);
      }
    }

    method PlaceShip(env: Env)
      requires Valid()
      modifies `place, session, queue
      ensures Abs() == ShipPlaced(data, old(Abs()), env)
    {
      hide ClientState.SetDestiny;
      if IsStation(data, place.location) {
        place := place.(dockExit := data.stations[place.location].dockExit);
        place := place.(shipInSpace := false);
        queue.SetFlags(queue.setStateSent, true);
      } else {
        SetDestiny(env);
      }
    }

    method Arrive(env: Env)
      requires Valid()
      modifies this, session, queue
      ensures Abs() == ClientState.Arrive(data, old(Abs()), env)
    {
      hide ShipPlaced, ClientState.UpdateSession, ClientState.SendSessionChange;
      PlaceShip(env);
      place := place.(charStation := if IsStation(data, place.location) then place.location else 0,
                      charSystem := place.systemData);
      UpdateSession(env.now);
      SendSessionChange();
    }

    method Relocate(location: nat)
      modifies `place
      ensures place == Relocated(data, move.state, old(place), location)
    {
      place := place.(location := location);
      place := place.(systemData := SystemOf(data, location));
      if IsJump(move.state) || (place.system != Null && place.system != To(place.systemData)) {
        place := place.(system := Null);
      }
    }

    method Depart(location: nat)
      modifies `place, queue
      ensures Abs() == ClientState.Depart(data, old(Abs()), location)
    {
      hide Relocated;
      Relocate(location);
      queue.SetFlags(queue.setStateSent, false);
    }

    method Enter(env: Env)
      requires Valid()
      modifies this, session, queue
      ensures Abs() == ClientState.Enter(data, old(Abs()), env)
    {
      hide ClientState.Arrive;
      if place.system == Null {
        if !env.boots {
          return;
        }
        place := place.(system := To(place.systemData));
        place := place.(beyonce := false);
        queue.SetFlags(false, queue.bubbleWait);
      }
      Arrive(env);
    }

    method MoveToLocation(env: Env, location: nat)
      requires Valid()
      modifies this, session, queue
      ensures Abs() == ClientState.MoveToLocation(data, old(Abs()), env, location)
    {
      hide ClientState.Depart, ClientState.Enter, ClientState.SetDestiny;
      if !IsStation(data, location) && !IsSolarSystem(data, location) {
        return;
      }
      if !place.login && place.location == location && !IsStation(data, location) {
        SetDestiny(env);
        return;
      }
      Depart(location);
      Enter(env);
    }

    method SelectCharacter(env: Env, row: Row)
      requires Valid()
      modifies this, session, queue
      ensures Abs() == ClientState.SelectCharacter(data, old(Abs()), env, row)
    {
      hide ClientState.InitSession, ClientState.MoveToLocation;
      InitSession(row);
      if !IsSolarSystem(data, place.systemData) {
        return;
      }
      if !env.boots {
        return;
      }
      place := place.(system := To(place.systemData));
      place := place.(charStation := row.station, charSystem := row.system);
      MoveToLocation(env, place.location);
      SetStateTimer(State.Login, LOGIN_TIME);
    }

    method SetBallPark(env: Env)
      modifies `move, queue
      ensures Abs() == ClientState.SetBallPark(data, old(Abs()), env)
    {
      hide ClientState.SendSetState;
      queue.SetFlags(queue.setStateSent, false);
      if !place.beyonce && !place.login && !place.undock {
        queue.SetFlags(queue.setStateSent, true);
        move := move.(ballparkTimer := true);
        return;
      }
      if !queue.setStateSent && place.beyonce {
        if !place.login {
          SendSetState(env);
        }
        move := move.(ballparkTimer := false);
        if move.state == State.Jump {
          move := move.(state := Idle);
        }
        if move.state == DriveJump {
          move := move.(state := Idle);
        }
        if move.state == State.WormholeJump {
          move := move.(state := Idle);
        }
      }
    }

    method Resend(env: Env)
      modifies queue
      ensures Abs() == ClientState.Resend(data, old(Abs()), env)
    {
      hide ClientState.SendSetState, DestinyLanes.SetStateSent;
      queue.SetStateSent(false);
      SendSetState(env);
    }

    method DockToStation(env: Env)
      requires Valid()
      modifies this, session, queue
      ensures Abs() == ClientState.DockToStation(data, old(Abs()), env)
    {
      hide ClientState.MoveToLocation, ClientState.SetSessionTimer, ClientState.SendSessionChange;
      place := place.(autopilot := false);
      queue.SetFlags(false, queue.bubbleWait);
      move := move.(state := Idle);
      queue.SetFlags(queue.setStateSent, true);
      MoveToLocation(env, place.dockStation);
      SetSessionTimer(env.timerTime);
      SendSessionChange();
    }

    method UndockFromStation(env: Env)
      requires Valid()
      modifies this, session, queue
      ensures Abs() == ClientState.UndockFromStation(data, old(Abs()), env)
    {
      hide ClientState.MoveToLocation, ClientState.SetSessionTimer, ClientState.SendSessionChange;
      place := place.(undock := true);
      move := move.(point := place.dockExit, trace := Then(move.trace, Redirected(place.dockExit)));
      MoveToLocation(env, place.systemData);
      SetStateTimer(State.Undock, UNDOCK_TIME);
      SetSessionTimer(env.timerTime);
      SendSessionChange();
    }

    // -------------------------------------------------------------- jump requests

    method Accept(kind: State, targetSystem: nat, point: GPoint)
      modifies `move
      ensures move == ClientState.Accept(old(move), kind, targetSystem, point)
    {
      move := move.(system := targetSystem);
      move := move.(point := point);
      move := move.(trace := Then(move.trace, Accepted(kind, targetSystem, point)));
      SetStateTimer(kind, JUMPING_TIME);
    }

    method StargateJump(env: Env, gate: Gate)
      requires Valid()
      modifies this, session, queue
      ensures Abs() == ClientState.StargateJump(data, old(Abs()), env, gate)
    {
      hide ClientState.MoveToLocation, ClientState.Resend, ClientState.SetSessionTimer, ClientState.Accept;
      if move.state != Idle || move.stateTimer {
        return;
      }
      if gate.NoGate? {
        return;
      }
      if !gate.securityAllows {
        return;
      }
      if !place.autopilot {
        Accept(State.Jump, gate.system, gate.landing);
        return;
      }
      move := move.(trace := Then(Then(move.trace, Accepted(State.Jump, gate.system, gate.landing)),
                                  Moved(State.Jump, gate.system, gate.landing)));
      MoveToLocation(env, gate.system);
      if IsSolarSystem(data, place.location) {
        Resend(env);
        SetSessionTimer(env.timerTime);
        place := place.(apRetry := true);
        move := move.(stateTimer := true);
      }
      move := move.(state := Idle);
      move := move.(point := NULL_ORIGIN);
      move := move.(system := 0);
    }

    method CynoJump(beaconSystem: nat, landing: GPoint)
      modifies `move
      ensures Abs() == ClientState.CynoJump(old(Abs()), beaconSystem, landing)
    {
      if move.state != Idle || move.stateTimer {
        return;
      }
      Accept(DriveJump, beaconSystem, landing);
    }

    method WormholeJump(hole: nat, shipMass: nat, spawn: Spawn, offset: GPoint)
      modifies `move, items
      ensures Joint(Abs(), items.Contents())
              == RequestWormholeJump(old(Abs()), old(items.Contents()), hole, shipMass, spawn, offset)
    {
      hide ClientState.Accept;
      if move.state != Idle || move.stateTimer {
        return;
      }
      if hole !in items.wormholes || !place.shipInSpace {
        return;
      }
      var wormhole := items.wormholes[hole];
      var tons := shipMass / 1000;
      if wormhole.maxJumpMass > 0 && tons > wormhole.maxJumpMass {
        return;
      }
      if wormhole.stableMass <= 0 {
        return;
      }
      move := move.(wormhole := hole, mass := tons);
      move := move.(system := wormhole.target1);
      if wormhole.isExit {
        LeaveByExit(wormhole, offset);
      } else {
        EnterWormhole(hole, spawn, offset);
      }
    }

    method LeaveByExit(wormhole: Wormhole, offset: GPoint)
      modifies `move
      ensures move == match Entrance(items.Contents(), wormhole)
                      case Null => old(move)
                      case To(id) =>
                        var far := items.wormholes[id];
                        ClientState.Accept(old(move), State.WormholeJump, far.location, Displaced(far.position, offset))
    {
      hide ClientState.Accept;
      var sourceID := wormhole.target1;
      var farID := ItemID(sourceID);
      if farID !in items.wormholes || sourceID < FIRST_ITEM {
        farID := ItemID(wormhole.target2);
      }
      if farID !in items.wormholes {
        return;
      }
      var far := items.wormholes[farID];
      Accept(State.WormholeJump, far.location, Displaced(far.position, offset));
    }

    method EnterWormhole(hole: nat, spawn: Spawn, offset: GPoint)
      requires hole in items.wormholes
      modifies `move, items
      ensures var w := old(items.wormholes)[hole];
              && items.Contents() == (if !HasExit(old(items.Contents()), w) && place.system != Null && w.target1 != 0
                                      then ClientRuns.CreateExit(old(items.Contents()), w.target1, hole, spawn)
                                      else old(items.Contents()))
              && hole in items.wormholes
              && var point := if HasExit(items.Contents(), items.wormholes[hole])
                              then items.wormholes[ItemID(items.wormholes[hole].target2)].position
                              else old(move.point);
                 move == ClientState.Accept(old(move), State.WormholeJump, w.target1, Displaced(point, offset))
    {
      hide ClientState.Accept;
      var wormhole := items.wormholes[hole];
      var point := move.point;
      var exitID := wormhole.target2;
      if exitID != 0 {
        if ItemID(exitID) in items.wormholes {
          point := items.wormholes[ItemID(exitID)].position;
        } else {
          exitID := 0;
        }
      }
      if exitID == 0 {
        if place.system != Null && wormhole.target1 != 0 {
          items.CreateExit(wormhole.target1, hole, spawn);
          exitID := items.wormholes[hole].target2;
          if exitID != 0 && ItemID(exitID) in items.wormholes {
            point := items.wormholes[ItemID(exitID)].position;
          }
        }
      }
      Accept(State.WormholeJump, wormhole.target1, Displaced(point, offset));
    }

    // ---------------------------------------------------------------- executing them

    method ClearTarget()
      modifies `move
      ensures move == Cleared(old(move))
    {
      move := move.(point := NULL_ORIGIN);
      move := move.(system := 0);
    }

    method ExecuteJump(env: Env)
      requires Valid()
      modifies this, session, queue
      ensures Abs() == ClientState.ExecuteJump(data, old(Abs()), env)
    {
      hide ClientState.MoveToLocation, ClientState.Resend;
      if move.point == NULL_ORIGIN {
        move := move.(state := Idle);
        return;
      }
      var target := move.system;
      move := move.(trace := Then(move.trace, Moved(State.Jump, move.system, move.point)));
      MoveToLocation(env, target);
      if IsSolarSystem(data, place.location) {
        Resend(env);
        move := move.(stateTimer := true);
      }
      move := move.(state := Idle);
      ClearTarget();
    }

    method ExecuteDriveJump(env: Env)
      requires Valid()
      modifies this, session, queue
      ensures Abs() == ClientState.ExecuteDriveJump(data, old(Abs()), env)
    {
      hide ClientState.MoveToLocation;
      if move.point == NULL_ORIGIN {
        move := move.(state := Idle);
        return;
      }
      var target := move.system;
      move := move.(trace := Then(move.trace, Moved(DriveJump, move.system, move.point)));
      MoveToLocation(env, target);
      move := move.(ballparkTimer := true);
      ClearTarget();
    }

    /** The mass of the ship is taken here, at whatever it is by now. */
    method ExecuteWormholeJump(env: Env, shipMass: nat)
      requires Valid()
      modifies this, session, queue, items
      ensures Abs() == ClientState.ExecuteWormholeJump(data, old(Abs()), env)
      ensures items.Contents() == if old(move.point) != NULL_ORIGIN && old(move.wormhole) != 0
                                  then ClientRuns.Deduct(old(items.Contents()), old(move.wormhole), Tons(shipMass))
                                  else old(items.Contents())
    {
      hide ClientState.MoveToLocation, ClientRuns.Deduct;
      if move.point == NULL_ORIGIN {
        move := move.(state := Idle);
        return;
      }
      if move.wormhole != 0 {
        items.Deduct(move.wormhole, shipMass / 1000);
        move := move.(wormhole := 0);
      }
      var target := move.system;
      move := move.(trace := Then(move.trace, Moved(State.WormholeJump, move.system, move.point)));
      MoveToLocation(env, target);
      move := move.(ballparkTimer := true);
      move := move.(state := Idle);
      ClearTarget();
    }

    // ------------------------------------------------------------------------ ticks

    method WarpIn(env: Env)
      requires Valid()
      modifies this, session, queue
      ensures Abs() == ClientState.WarpIn(data, old(Abs()), env)
    {
      hide ClientState.MoveToLocation, ClientState.Resend;
      if !env.inBubble {
        MoveToLocation(env, place.systemData);
      }
      Resend(env.(inBubble := true));
      SetStateTimer(State.LoginWarp, LOGIN_WARP_TIME);
      move := move.(state := State.LoginWarp);
    }

    method Retry(env: Env)
      requires Valid()
      modifies this, session, queue
      ensures Abs() == ClientState.Retry(data, old(Abs()), env)
    {
      hide ClientState.SendSessionChange, Session.Set;
      place := place.(apRetry := false);
      session.SetValue(NextSessionChange, Long(env.now + RETRY_CHANGE));
      SendSessionChange();
    }

    method EndLogin(env: Env)
      requires Valid()
      modifies this, session, queue
      ensures Abs() == ClientState.EndLogin(data, old(Abs()), env)
    {
      hide ClientState.SetBallPark, ClientState.WarpIn;
      place := place.(login := false);
      SetBallPark(env);
      if IsSolarSystem(data, place.location) {
        WarpIn(env);
      }
    }

    method StateExpired(env: Env, shipMass: nat)
      requires Valid()
      modifies this, session, queue, items
      ensures Abs() == ClientState.StateExpired(data, old(Abs()), env)
      ensures items.Contents()
              == if old(move.state) == State.WormholeJump && old(move.point) != NULL_ORIGIN && old(move.wormhole) != 0
                 then ClientRuns.Deduct(old(items.Contents()), old(move.wormhole), Tons(shipMass))
                 else old(items.Contents())
    {
      hide ClientState.Retry, ClientState.DockToStation, ClientState.SetBallPark, ClientState.SendSessionChange,
           ClientState.EndLogin, ClientState.ExecuteJump, ClientState.ExecuteDriveJump,
           ClientState.ExecuteWormholeJump, ClientRuns.Deduct;
      match move.state {
        case Idle =>
          if place.apRetry {
            Retry(env);
          }
        case Dock => DockToStation(env);
        case Undock =>
          SetBallPark(env);
          move := move.(state := Idle);
        case Killed =>
          SendSessionChange();
          move := move.(state := Idle);
        case Board =>
          SendSessionChange();
          move := move.(state := Idle);
        case Login => EndLogin(env);
        case LoginWarp =>
        case Jump => ExecuteJump(env);
        case DriveJump => ExecuteDriveJump(env);
        case WormholeJump => ExecuteWormholeJump(env, shipMass);
        case Logout =>
        case Uncloak =>
      }
    }

    method TickDocked(stateFires: bool)
      modifies `move, `place
      ensures Abs() == ClientState.TickDocked(old(Abs()), stateFires)
    {
      if move.stateTimer {
        if stateFires {
          move := move.(stateTimer := false);
          if move.state == State.Login {
            place := place.(login := false);
          }
          move := move.(state := Idle);
        }
      }
    }

    method TickBallPark(env: Env, ballparkFires: bool)
      modifies `move, queue
      ensures Abs() == Parked(data, old(Abs()), env, ballparkFires)
    {
      hide ClientState.SetBallPark;
      if move.ballparkTimer {
        if ballparkFires {
          move := move.(ballparkTimer := false);
          SetBallPark(env);
        }
      }
    }

    /** One tick of the client, with the timers that have run out by then. */
    method ProcessClient(env: Env, stateFires: bool, ballparkFires: bool, shipMass: nat)
      requires Valid()
      modifies this, session, queue, items
      ensures Joint(Abs(), items.Contents())
              == TickAll(data, Joint(old(Abs()), old(items.Contents())), env, stateFires, ballparkFires, shipMass)
    {
      hide ClientState.StateExpired, ClientState.Parked, ClientRuns.Deduct;
      if IsStation(data, place.location) {
        TickDocked(stateFires);
        return;
      }
      if !place.shipInSpace {
        return;
      }
      JumpTargets.ParkedSettles(data, Abs(), env, ballparkFires);
      TickBallPark(env, ballparkFires);
      if move.stateTimer {
        if stateFires {
          move := move.(stateTimer := false);
          StateExpired(env, shipMass);
        }
      }
    }

    method SetLoginWarpComplete(env: Env)
      modifies `move, queue
      ensures Abs() == LoginWarpComplete(data, old(Abs()), env)
    {
      hide ClientState.SendSetState;
      if move.state == State.LoginWarp {
        move := move.(state := Idle);
      }
      if place.shipInSpace && !queue.setStateSent {
        SendSetState(env);
      }
    }

    method BindBeyonce(env: Env)
      modifies this, queue
      ensures Abs() == ClientState.BindBeyonce(data, old(Abs()), env)
    {
      hide ClientState.SetBallPark;
      place := place.(beyonce := true);
      if place.login && !queue.setStateSent {
        SetBallPark(env);
      }
    }

    // --------------------------------------------------------------------- new ships

    method Fly(ship: nat, now: int)
      requires Valid()
      modifies `place, session
      ensures Abs() == Aboard(data, old(Abs()), ship, now)
    {
      hide ClientState.SetShip, ClientState.SetSessionTimer;
      SetShip(ship);
      place := place.(shipInSpace := true);
      SetSessionTimer(now);
    }

    method Board(ship: nat, now: int)
      requires Valid()
      modifies this, session
      ensures Abs() == ClientRuns.Board(data, old(Abs()), ship, now)
    {
      hide Aboard, ClientState.SendSessionChange;
      if !place.shipInSpace || place.system == Null {
        return;
      }
      if ship == place.ship && !place.login {
        return;
      }
      Fly(ship, now);
      SendSessionChange();
    }

    method BoardShip(ship: nat, now: int)
      requires Valid()
      modifies `place, session
      ensures Abs() == ClientRuns.BoardShip(data, old(Abs()), ship, now)
    {
      hide ClientState.SetShip, ClientState.SetSessionTimer;
      if ship == place.ship && !place.login {
        return;
      }
      SetShip(ship);
      SetSessionTimer(now);
    }

    method ResetAfterPopped(pod: nat, now: int)
      requires Valid()
      modifies this, session, queue
      ensures Abs() == AfterPopped(data, old(Abs()), pod, now)
    {
      hide Aboard, ClientState.SendSessionChange;
      if !place.shipInSpace || place.system == Null {
        return;
      }
      place := place.(autopilot := false);
      queue.SetFlags(queue.setStateSent, false);
      Fly(pod, now);
      SendSessionChange();
    }

    method ResetAfterPodded(env: Env, pod: nat, clone: nat)
      requires Valid()
      modifies this, session, queue
      ensures Abs() == AfterPodded(data, old(Abs()), env, pod, clone)
    {
      hide ClientState.SetShip, ClientState.MoveToLocation, ClientState.UpdateSession, ClientState.SendSessionChange;
      place := place.(autopilot := false);
      SetShip(pod);
      MoveToLocation(env, clone);
      UpdateSession(env.timerTime);
      SendSessionChange();
    }

    // ---------------------------------------------------------------- small requests

    method RequestState(env: Env)
      modifies queue
      ensures Abs() == StateRequested(data, old(Abs()), env)
    {
      hide ClientState.Resend;
      if place.shipInSpace {
        Resend(env);
      }
    }

    /** Docking after a delay in seconds. */
    method RequestDock(delay: nat)
      modifies `move, `place
      ensures move == ClientState.SetStateTimer(old(move), State.Dock, delay * 1000)
      ensures place == old(place).(autopilot := false)
    {
      SetStateTimer(State.Dock, delay * 1000);
      place := place.(autopilot := false);
    }

    method SetDockStation(station: nat)
      modifies `place
      ensures place == old(place).(dockStation := station)
    {
      place := place.(dockStation := station);
    }

    method SetUndock(undock: bool)
      modifies `place
      ensures place == old(place).(undock := undock)
    {
      place := place.(undock := undock);
    }

    method SetAutoPilot(on: bool)
      modifies `place
      ensures place == old(place).(autopilot := on)
    {
      place := place.(autopilot := on);
    }
  }
}
