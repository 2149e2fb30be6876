/** One client of the server: where it is, the move it is waiting for, what it is told.

    Timers are running or not; a tick says which running timers have expired. What the
    operations ask of the rest of the server (does a system boot, is the ship in a
    bubble, what is the snapshot of the full state, the clock) comes with each call. */
module ClientState {
  import opened Session
  import opened SessionReplica
  import DestinyLanes

  datatype GPoint = GPoint(x: real, y: real, z: real)

  const NULL_ORIGIN := GPoint(0.0, 0.0, 0.0)

  function Displaced(p: GPoint, offset: GPoint): GPoint {
    GPoint(p.x + offset.x, p.y + offset.y, p.z + offset.z)
  }

  // ---------------------------------------------------------------- static data

  datatype System = System(constellation: int, region: int)

  datatype Station = Station(system: nat, dockExit: GPoint)

  /** The static data, and the hash by which session values are compared. */
  datatype Data = Data(hash: Hash, stations: map<nat, Station>, systems: map<nat, System>)

  predicate Sound(d: Data) {
    && Apart(d)
    && forall id :: id in d.stations ==> d.stations[id].system in d.systems
  }

  predicate Apart(d: Data) {
    && 0 !in d.stations && 0 !in d.systems
    && d.stations.Keys !! d.systems.Keys
  }

  type StaticData = d: Data | Sound(d) witness Data(_ => 0, map[], map[])

  predicate IsStation(d: StaticData, id: nat) {
    id in d.stations
  }

  predicate IsSolarSystem(d: StaticData, id: nat) {
    id in d.systems
  }

  /** The system a location belongs to; a location of neither kind stays as it is. */
  function SystemOf(d: StaticData, id: nat): nat {
    if IsStation(d, id) then d.stations[id].system else id
  }

  function DataOf(d: StaticData, system: nat): System {
    if system in d.systems then d.systems[system] else System(0, 0)
  }

  // ---------------------------------------------------------------------- state

  datatype State =
    | Idle | Jump | Dock | Undock | Killed | Logout | Board | Login | Uncloak
    | DriveJump | WormholeJump | LoginWarp

  const JUMPING_TIME := 4000
  const UNDOCK_TIME := 2000
  const LOGIN_TIME := 4000
  const LOGIN_WARP_TIME := 3000

  datatype Ref = Null | To(id: nat)

  /** What happened to jump targets, newest last. Autopilot gate jumps are executed as
      they are accepted. Undocking overwrites the stored point. */
  datatype Event =
    | Accepted(kind: State, system: nat, point: GPoint)
    | Redirected(point: GPoint)
    | Moved(kind: State, system: nat, point: GPoint)

  datatype Trace = Start | Then(past: Trace, event: Event)

  /** The pending move; mass and trace are history only. */
  datatype Move = Move(state: State, stateTimer: bool, ballparkTimer: bool,
                       system: nat, point: GPoint, wormhole: nat,
                       mass: nat, trace: Trace)

  datatype Place = Place(location: nat, systemData: nat, system: Ref, charStation: nat, charSystem: nat,
                         ship: nat, shipInSpace: bool, login: bool, undock: bool, beyonce: bool,
                         autopilot: bool, apRetry: bool, dockStation: nat, dockExit: GPoint)

  datatype Client = Client(link: Link, lanes: DestinyLanes.Lanes, move: Move, place: Place)

  /** A connection as it is made: idle, nowhere, its session holding the defaults. */
  const NEW_CLIENT := Client(
    Link(DEFAULTS, []), DestinyLanes.FRESH,
    Move(Idle, false, false, 0, NULL_ORIGIN, 0, 0, Start),
    Place(0, 0, Null, 0, 0, 0, false, true, false, false, false, false, 0, NULL_ORIGIN))

  /** The clock is read when the session is updated, when a new ship is put into space and
      when the session timer is set at the end. */
  datatype Env = Env(boots: bool, inBubble: bool, snapshot: DestinyLanes.Update,
                     now: int, shipTime: int, timerTime: int)

  predicate IsJump(s: State) {
    s == Jump || s == DriveJump || s == WormholeJump
  }

  predicate Docked(d: StaticData, c: Client) {
    IsStation(d, c.place.location)
  }

  predicate InSpace(d: StaticData, c: Client) {
    IsSolarSystem(d, c.place.location)
  }

  /** A jump has been accepted and its timer is running. */
  predicate Pending(m: Move) {
    IsJump(m.state) && m.stateTimer
  }

  /** Requests for a jump are accepted only here. */
  predicate Free(m: Move) {
    m.state == Idle && !m.stateTimer
  }

  // --------------------------------------------------------------------- timers

  function SetStateTimer(m: Move, state: State, time: nat): Move {
    if time == 0 then m.(stateTimer := false)
    else if m.stateTimer then m
    else m.(state := state, stateTimer := true)
  }

  // -------------------------------------------------------------------- session

  function Tell(d: StaticData, c: Client, k: Key, v: Val): Client {
    c.(link := SetIn(d.hash, c.link, k, v))
  }

  /** Stores made one after the other, the last one outermost. */
  datatype Writes = Done | Write(before: Writes, k: Key, v: Val)

  function SetAll(h: Hash, l: Link, w: Writes): Link {
    match w
    case Done => l
    case Write(before, k, v) => SetIn(h, SetAll(h, l, before), k, v)
  }

  /** The keys of a docked client. */
  function StationWrites(station: nat): Writes {
    var a := Write(Write(Done, SolarSystemId, None), ShipId, None);
    var b := Write(Write(a, StationId, Int(station)), StationId2, Int(station));
    Write(Write(b, WorldspaceId, Int(station)), LocationId, Int(station))
  }

  /** The keys of a client in space. */
  function SpaceWrites(system: nat, ship: nat): Writes {
    var a := Write(Write(Write(Done, StationId, None), StationId2, None), WorldspaceId, None);
    Write(Write(Write(a, SolarSystemId, Int(system)), LocationId, Int(system)), ShipId, Int(ship))
  }

  function PlaceWrites(d: StaticData, p: Place): Writes {
    if IsStation(d, p.charStation) then StationWrites(p.charStation) else SpaceWrites(p.charSystem, p.ship)
  }

  /** File time counts tenths of microseconds: 20 and 30 seconds. */
  const NEXT_CHANGE := 200_000_000
  const RETRY_CHANGE := 300_000_000

  function SystemWrites(d: StaticData, before: Writes, p: Place, now: int): Writes {
    var a := Write(before, SolarSystemId2, Int(p.charSystem));
    var b := Write(a, ConstellationId, Int(DataOf(d, p.charSystem).constellation));
    var c := Write(b, RegionId, Int(DataOf(d, p.charSystem).region));
    Write(Write(c, Autopilot, Int(if p.autopilot then 1 else 0)), NextSessionChange, Long(now + NEXT_CHANGE))
  }

  function Updated(d: StaticData, l: Link, p: Place, now: int): Link {
    SetAll(d.hash, l, SystemWrites(d, PlaceWrites(d, p), p, now))
  }

  function UpdateSession(d: StaticData, c: Client, now: int): Client {
    c.(link := Updated(d, c.link, c.place, now))
  }

  /** A client without a location is given that of its character. */
  function FixLocation(d: StaticData, c: Client): Client {
    if c.place.location != 0 then
      c
    else
      var location := if IsStation(d, c.place.charStation) then c.place.charStation else c.place.systemData;
      Tell(d, c.(place := c.place.(location := location)), LocationId, Int(location))
  }

  function Flushed(c: Client): Client {
    c.(link := SendChanges(c.link))
  }

  function SendSessionChange(d: StaticData, c: Client): Client {
    if c.link.store.dirty then Flushed(FixLocation(d, c)) else c
  }

  /** The session timer tells the client when its session may change next. */
  function SetSessionTimer(d: StaticData, c: Client, time: int): Client {
    Tell(d, c, NextSessionChange, Long(time + NEXT_CHANGE))
  }

  function SetShip(d: StaticData, c: Client, ship: nat): Client {
    var aboard := c.(place := c.place.(ship := ship, shipInSpace := false));
    if InSpace(d, c) then Tell(d, aboard, ShipId, Int(ship)) else aboard
  }

  // ------------------------------------------------------------------- movement

  function StateSent(c: Client, sent: bool): Client {
    c.(lanes := DestinyLanes.SetStateSent(c.lanes, sent))
  }

  function SendSetState(d: StaticData, c: Client, env: Env): Client {
    if env.inBubble then
      StateSent(c.(lanes := DestinyLanes.QueueUpdate(c.lanes, Docked(d, c), env.snapshot, true, true)), true)
    else
      c
  }

  /** A ship new in space sets the session timer. */
  function SetDestiny(d: StaticData, c: Client, env: Env): Client {
    if !InSpace(d, c) then
      c
    else
      var there := c.(lanes := c.lanes.(bubbleWait := false, setStateSent := false),
                      place := c.place.(shipInSpace := true));
      if c.place.shipInSpace then there else SetSessionTimer(d, there, env.shipTime)
  }

  /** The ship is put where the client is: into the hangar or into space. */
  function ShipPlaced(d: StaticData, c: Client, env: Env): Client {
    if Docked(d, c) then
      c.(lanes := c.lanes.(bubbleWait := true),
         place := c.place.(shipInSpace := false, dockExit := d.stations[c.place.location].dockExit))
    else
      SetDestiny(d, c, env)
  }

  /** The character is put where the client is. */
  function CharacterPlaced(d: StaticData, c: Client): Client {
    c.(place := c.place.(charStation := if Docked(d, c) then c.place.location else 0,
                         charSystem := c.place.systemData))
  }

  /** The system to be in has been found; ship and character are placed and the client told. */
  function Arrive(d: StaticData, c: Client, env: Env): Client {
    SendSessionChange(d, UpdateSession(d, CharacterPlaced(d, ShipPlaced(d, c, env)), env.now))
  }

  /** The location is set, and the old system left if it is another one or for a jump. */
  function Relocated(d: StaticData, state: State, place: Place, location: nat): Place {
    var p := place.(location := location, systemData := SystemOf(d, location));
    var leaves := IsJump(state) || (p.system != Null && p.system != To(p.systemData));
    p.(system := if leaves then Null else p.system)
  }

  function Depart(d: StaticData, c: Client, location: nat): Client {
    c.(lanes := c.lanes.(bubbleWait := false), place := Relocated(d, c.move.state, c.place, location))
  }

  function Boot(c: Client): Client {
    c.(lanes := c.lanes.(setStateSent := false),
       place := c.place.(system := To(c.place.systemData), beyonce := false))
  }

  /** A system that does not boot ends the move here, with the client told nothing. */
  function Enter(d: StaticData, c: Client, env: Env): Client {
    if c.place.system != Null then Arrive(d, c, env)
    else if env.boots then Arrive(d, Boot(c), env)
    else c
  }

  function MoveToLocation(d: StaticData, c: Client, env: Env, location: nat): Client {
    if !IsStation(d, location) && !IsSolarSystem(d, location) then c
    else if !c.place.login && c.place.location == location && !IsStation(d, location) then SetDestiny(d, c, env)
    else Enter(d, Depart(d, c, location), env)
  }

  function SetBallPark(d: StaticData, c: Client, env: Env): Client {
    var p := c.place;
    if !p.beyonce && !p.login && !p.undock then
      c.(lanes := c.lanes.(bubbleWait := true), move := c.move.(ballparkTimer := true))
    else
      var open := c.(lanes := c.lanes.(bubbleWait := false));
      if !open.lanes.setStateSent && p.beyonce then
        var told := if p.login then open else SendSetState(d, open, env);
        told.(move := told.move.(ballparkTimer := false,
                                 state := if IsJump(told.move.state) then Idle else told.move.state))
      else
        open
  }

  function Docking(c: Client): Client {
    c.(lanes := c.lanes.(setStateSent := false, bubbleWait := true),
       move := c.move.(state := Idle),
       place := c.place.(autopilot := false))
  }

  function DockToStation(d: StaticData, c: Client, env: Env): Client {
    var docked := MoveToLocation(d, Docking(c), env, c.place.dockStation);
    SendSessionChange(d, SetSessionTimer(d, docked, env.timerTime))
  }

  /** The direction of the dock becomes the target point. */
  function Undocking(c: Client): Client {
    var exit := c.place.dockExit;
    c.(place := c.place.(undock := true),
       move := c.move.(point := exit, trace := Then(c.move.trace, Redirected(exit))))
  }

  function UndockFromStation(d: StaticData, c: Client, env: Env): Client {
    var outside := MoveToLocation(d, Undocking(c), env, c.place.systemData);
    var timed := outside.(move := SetStateTimer(outside.move, Undock, UNDOCK_TIME));
    SendSessionChange(d, SetSessionTimer(d, timed, env.timerTime))
  }

  /** The ship is in its new system: the client is sent the full state anew. */
  function Resend(d: StaticData, c: Client, env: Env): Client {
    SendSetState(d, StateSent(c, false), env)
  }

  // ----------------------------------------------------------------- jump requests

  function Accept(m: Move, kind: State, system: nat, point: GPoint): Move {
    SetStateTimer(m.(system := system, point := point, trace := Then(m.trace, Accepted(kind, system, point))),
                  kind, JUMPING_TIME)
  }

  function Cleared(m: Move): Move {
    m.(system := 0, point := NULL_ORIGIN)
  }

  function Launched(m: Move, kind: State): Move {
    m.(trace := Then(m.trace, Moved(kind, m.system, m.point)))
  }

  /** What the stored data says of the gate jumped to. */
  datatype Gate = NoGate | Gate(system: nat, landing: GPoint, securityAllows: bool)

  /** On autopilot the jump is made as it is accepted. */
  function Crossing(c: Client, gate: Gate): Client
    requires gate.Gate?
  {
    var accepted := Then(c.move.trace, Accepted(Jump, gate.system, gate.landing));
    c.(move := c.move.(trace := Then(accepted, Moved(Jump, gate.system, gate.landing))))
  }

  function StargateJump(d: StaticData, c: Client, env: Env, gate: Gate): Client {
    if !Free(c.move) || gate.NoGate? || !gate.securityAllows then
      c
    else if !c.place.autopilot then
      c.(move := Accept(c.move, Jump, gate.system, gate.landing))
    else
      var there := MoveToLocation(d, Crossing(c, gate), env, gate.system);
      var told :=
        if InSpace(d, there) then
          var seen := SetSessionTimer(d, Resend(d, there, env), env.timerTime);
          seen.(move := seen.move.(stateTimer := true), place := seen.place.(apRetry := true))
        else
          there;
      told.(move := Cleared(told.move).(state := Idle))
  }

  function CynoJump(c: Client, system: nat, landing: GPoint): Client {
    if !Free(c.move) then c
    else c.(move := Accept(c.move, DriveJump, system, landing))
  }

  function Launching(c: Client, kind: State): Client {
    c.(move := Launched(c.move, kind))
  }

  /** The wormhole jumped through is let go of. */
  function Plunging(c: Client): Client {
    c.(move := Launched(c.move.(wormhole := 0), WormholeJump))
  }

  function ExecuteJump(d: StaticData, c: Client, env: Env): Client {
    if c.move.point == NULL_ORIGIN then
      c.(move := c.move.(state := Idle))
    else
      var there := MoveToLocation(d, Launching(c, Jump), env, c.move.system);
      var told :=
        if InSpace(d, there) then
          var seen := Resend(d, there, env);
          seen.(move := seen.move.(stateTimer := true))
        else
          there;
      told.(move := Cleared(told.move).(state := Idle))
  }

  function ExecuteDriveJump(d: StaticData, c: Client, env: Env): Client {
    if c.move.point == NULL_ORIGIN then
      c.(move := c.move.(state := Idle))
    else
      var there := MoveToLocation(d, Launching(c, DriveJump), env, c.move.system);
      there.(move := Cleared(there.move).(ballparkTimer := true))
  }

  function ExecuteWormholeJump(d: StaticData, c: Client, env: Env): Client {
    if c.move.point == NULL_ORIGIN then
      c.(move := c.move.(state := Idle))
    else
      var there := MoveToLocation(d, Plunging(c), env, c.move.system);
      there.(move := Cleared(there.move).(ballparkTimer := true, state := Idle))
  }

  // ------------------------------------------------------------------------ ticks

  function WarpIn(d: StaticData, c: Client, env: Env): Client {
    var entered := if env.inBubble then c else MoveToLocation(d, c, env, c.place.systemData);
    var seen := Resend(d, entered, env.(inBubble := true));
    seen.(move := SetStateTimer(seen.move, LoginWarp, LOGIN_WARP_TIME).(state := LoginWarp))
  }

  function WithState(c: Client, state: State): Client {
    c.(move := c.move.(state := state))
  }

  function Retried(c: Client): Client {
    c.(place := c.place.(apRetry := false))
  }

  /** The second session change after an autopilot jump. */
  function Retry(d: StaticData, c: Client, env: Env): Client {
    SendSessionChange(d, Tell(d, Retried(c), NextSessionChange, Long(env.now + RETRY_CHANGE)))
  }

  function EndLogin(d: StaticData, c: Client, env: Env): Client {
    var seen := SetBallPark(d, c.(place := c.place.(login := false)), env);
    if InSpace(d, seen) then WarpIn(d, seen, env) else seen
  }

  /** The state timer has expired in space. */
  function StateExpired(d: StaticData, c: Client, env: Env): Client {
    match c.move.state
    case Idle => if c.place.apRetry then Retry(d, c, env) else c
    case Dock => DockToStation(d, c, env)
    case Undock => WithState(SetBallPark(d, c, env), Idle)
    case Killed => WithState(SendSessionChange(d, c), Idle)
    case Board => WithState(SendSessionChange(d, c), Idle)
    case Login => EndLogin(d, c, env)
    case LoginWarp => c
    case Jump => ExecuteJump(d, c, env)
    case DriveJump => ExecuteDriveJump(d, c, env)
    case WormholeJump => ExecuteWormholeJump(d, c, env)
    case Logout => c
    case Uncloak => c
  }

  /** The ballpark timer is looked at before the state timer. */
  function Parked(d: StaticData, c: Client, env: Env, ballparkFires: bool): Client {
    if c.move.ballparkTimer && ballparkFires then SetBallPark(d, c.(move := c.move.(ballparkTimer := false)), env)
    else c
  }

  /** A docked client only has its state timer looked at. */
  function TickDocked(c: Client, stateFires: bool): Client {
    if c.move.stateTimer && stateFires then
      c.(move := c.move.(stateTimer := false, state := Idle),
         place := c.place.(login := c.place.login && c.move.state != Login))
    else
      c
  }

  function Tick(d: StaticData, c: Client, env: Env, stateFires: bool, ballparkFires: bool): Client {
    if Docked(d, c) then
      TickDocked(c, stateFires)
    else if !c.place.shipInSpace then
      c
    else
      var parked := Parked(d, c, env, ballparkFires);
      if parked.move.stateTimer && stateFires then
        StateExpired(d, parked.(move := parked.move.(stateTimer := false)), env)
      else
        parked
  }

  function LoginWarpComplete(d: StaticData, c: Client, env: Env): Client {
    var idle := if c.move.state == LoginWarp then c.(move := c.move.(state := Idle)) else c;
    if c.place.shipInSpace && !c.lanes.setStateSent then SendSetState(d, idle, env) else idle
  }

  /** The client binds its new ballpark. */
  function BindBeyonce(d: StaticData, c: Client, env: Env): Client {
    var bound := c.(place := c.place.(beyonce := true));
    if c.place.login && !c.lanes.setStateSent then SetBallPark(d, bound, env) else bound
  }

  // ------------------------------------------------------------------------ login

  /** Variables under names of their own, stored after others. */
  function SharedWrites(before: Writes, values: seq<(string, Val)>): Writes {
    if values == [] then before
    else
      var last := values[|values| - 1];
      Write(SharedWrites(before, values[..|values| - 1]), Named(last.0), last.1)
  }

  /** What the database holds of a character: where it is, its ship, and the values of
      the other session variables, in two parts around those of its system. */
  datatype Row = Row(station: nat, system: nat, constellation: int, region: int, ship: nat,
                     identity: seq<(string, Val)>, corporation: seq<(string, Val)>)

  function ProfileWrites(row: Row): Writes {
    var a := Write(SharedWrites(Done, row.identity), SolarSystemId2, Int(row.system));
    var b := Write(Write(a, ConstellationId, Int(row.constellation)), RegionId, Int(row.region));
    SharedWrites(b, row.corporation)
  }

  /** The keys of a docked client, in the order of a login. */
  function InitStation(before: Writes, station: nat): Writes {
    var a := Write(Write(before, SolarSystemId, None), ShipId, None);
    var b := Write(Write(a, StationId, Int(station)), StationId2, Int(station));
    Write(Write(b, LocationId, Int(station)), WorldspaceId, Int(station))
  }

  function InitSpace(before: Writes, system: nat, ship: nat): Writes {
    var a := Write(Write(Write(before, StationId, None), StationId2, None), WorldspaceId, None);
    Write(Write(Write(a, ShipId, Int(ship)), SolarSystemId, Int(system)), LocationId, Int(system))
  }

  function InitWrites(d: StaticData, row: Row): Writes {
    if IsStation(d, row.station) then InitStation(ProfileWrites(row), row.station)
    else InitSpace(ProfileWrites(row), row.system, row.ship)
  }

  function InitSession(d: StaticData, c: Client, row: Row): Client {
    var location := if IsStation(d, row.station) then row.station else row.system;
    c.(link := SetAll(d.hash, c.link, InitWrites(d, row)),
       place := c.place.(location := location, ship := row.ship,
                         systemData := if IsSolarSystem(d, SystemOf(d, location)) then SystemOf(d, location)
                                       else c.place.systemData))
  }

  /** A character has been chosen: its session is set up and it is placed. Without a
      valid session or a system that boots, the connection is closed. */
  function SelectCharacter(d: StaticData, c: Client, env: Env, row: Row): Client {
    var known := InitSession(d, c, row);
    if !IsSolarSystem(d, known.place.systemData) || !env.boots then
      known
    else
      var loaded := known.(place := known.place.(system := To(known.place.systemData),
                                                 charStation := row.station, charSystem := row.system));
      var there := MoveToLocation(d, loaded, env, loaded.place.location);
      there.(move := SetStateTimer(there.move, Login, LOGIN_TIME))
  }
}
