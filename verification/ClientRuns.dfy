/** Everything that happens to one client, as steps over the client and the wormholes. */
module ClientRuns {
  import opened Session
  import opened SessionReplica
  import opened ClientState
  import DestinyLanes

  // ------------------------------------------------------------------ wormholes

  /** A wormhole item. An exit holds its entrance in both targets, an entrance holds the
      destination system and its exit, if one was created. Masses are in tons. */
  datatype Wormhole = Wormhole(isExit: bool, location: nat, position: GPoint,
                               maxJumpMass: int, stableMass: int, target1: nat, target2: nat)

  /** A jump whose mass has been deducted; kept as history. */
  datatype Commit = Commit(entrance: nat, tons: nat)

  datatype Holes = Holes(items: map<nat, Wormhole>, commits: seq<Commit>)

  /** The item a new exit becomes: a new item number. */
  datatype Spawn = NoSpawn | Spawn(id: nat, position: GPoint)

  const FIRST_ITEM := 100_000_000

  /** Item numbers are cut to 32 bits. */
  function ItemID(n: nat): nat {
    n % 0x1_0000_0000
  }

  function Tons(kilograms: nat): nat {
    kilograms / 1000
  }

  function CreateExit(t: Holes, system: nat, source: nat, spawn: Spawn): Holes
    requires source in t.items
  {
    if spawn.NoSpawn? || spawn.id == 0 || spawn.id != ItemID(spawn.id) || spawn.id in t.items then
      t
    else
      var s := t.items[source];
      var exit := Wormhole(true, system, spawn.position, s.maxJumpMass, s.stableMass, source, source);
      t.(items := t.items[spawn.id := exit][source := s.(target2 := spawn.id)])
  }

  function Deduct(t: Holes, hole: nat, tons: nat): Holes {
    if hole !in t.items then
      t
    else
      var items := Lighten(t.items, hole, tons);
      var exit := ItemID(items[hole].target2);
      Holes(if exit != 0 then Lighten(items, exit, tons) else items, t.commits + [Commit(hole, tons)])
  }

  function Lighten(items: map<nat, Wormhole>, hole: nat, tons: nat): map<nat, Wormhole> {
    if hole in items then items[hole := items[hole].(stableMass := items[hole].stableMass - tons)] else items
  }

  datatype Joint = Joint(client: Client, holes: Holes)

  predicate Fits(w: Wormhole, tons: nat) {
    w.stableMass > 0 && (w.maxJumpMass > 0 ==> tons <= w.maxJumpMass)
  }

  /** The wormhole at the other end of an exit. Old exits hold a system number in the
      first target, which is no item. */
  function Entrance(t: Holes, exit: Wormhole): Ref {
    if ItemID(exit.target1) in t.items && exit.target1 >= FIRST_ITEM then To(ItemID(exit.target1))
    else if ItemID(exit.target2) in t.items then To(ItemID(exit.target2))
    else Null
  }

  predicate HasExit(t: Holes, w: Wormhole) {
    w.target2 != 0 && ItemID(w.target2) in t.items
  }

  function RequestWormholeJump(c: Client, t: Holes, hole: nat, shipMass: nat, spawn: Spawn, offset: GPoint): Joint {
    if !Free(c.move) || hole !in t.items || !c.place.shipInSpace || !Fits(t.items[hole], Tons(shipMass)) then
      Joint(c, t)
    else
      var w := t.items[hole];
      var m := c.move.(wormhole := hole, system := w.target1, mass := Tons(shipMass));
      if w.isExit then
        match Entrance(t, w)
        case Null => Joint(c.(move := m), t)
        case To(id) =>
          var far := t.items[id];
          Joint(c.(move := Accept(m, WormholeJump, far.location, Displaced(far.position, offset))), t)
      else
        var u := if !HasExit(t, w) && c.place.system != Null && w.target1 != 0
                 then CreateExit(t, w.target1, hole, spawn) else t;
        var point := if HasExit(u, u.items[hole]) then u.items[ItemID(u.items[hole].target2)].position
                     else c.move.point;
        Joint(c.(move := Accept(m, WormholeJump, w.target1, Displaced(point, offset))), u)
  }

  /** A tick commits a wormhole jump: its timer expires in space, and neither the ballpark
      nor a missing target stops it. */
  predicate Commits(d: StaticData, c: Client, env: Env, stateFires: bool, ballparkFires: bool) {
    Executes(d, c, env, stateFires, ballparkFires) && c.move.state == WormholeJump
  }

  /** A tick executes a jump. */
  predicate Executes(d: StaticData, c: Client, env: Env, stateFires: bool, ballparkFires: bool) {
    && Pending(c.move) && stateFires
    && !Docked(d, c) && c.place.shipInSpace
    && !(c.move.ballparkTimer && ballparkFires && Settles(c))
    && c.move.point != NULL_ORIGIN
  }

  /** The ballpark step resets a jump state: the ballpark is bound, the state not sent. */
  predicate Settles(c: Client) {
    c.place.beyonce && !c.lanes.setStateSent
  }

  function TickAll(d: StaticData, j: Joint, env: Env, stateFires: bool, ballparkFires: bool, shipMass: nat): Joint {
    var c := j.client;
    Joint(Tick(d, c, env, stateFires, ballparkFires),
          if Commits(d, c, env, stateFires, ballparkFires) && c.move.wormhole != 0
          then Deduct(j.holes, c.move.wormhole, Tons(shipMass)) else j.holes)
  }

  // ---------------------------------------------------------------------- steps

  datatype Op =
    | RequestGate(gate: Gate, env: Env)
    | RequestDrive(system: nat, landing: GPoint)
    | RequestWormhole(hole: nat, shipMass: nat, spawn: Spawn, offset: GPoint)
    | RequestDock(delay: nat)
    | ChooseDock(station: nat)
    | Passing(env: Env, stateFires: bool, ballparkFires: bool, shipMass: nat)
    | Beyonce(env: Env)
    | WarpDone(env: Env)
    | LeaveStation(env: Env)
    | UndockOver
    | RequestState(env: Env)
    | BoardInSpace(ship: nat, now: int)
    | BoardInHangar(ship: nat, now: int)
    | Popped(pod: nat, now: int)
    | Podded(pod: nat, clone: nat, env: Env)
    | Relocate(location: nat, env: Env)
    | SetAutopilot(on: bool)
    | SessionTimer(now: int)
    | Share(values: seq<(string, Val)>, send: bool)
    | Offer(update: DestinyLanes.Update, doPackage: bool, isSetState: bool)
    | OfferEvent(update: DestinyLanes.Update)
    | Flush
    | DeclareState(sent: bool)

  /** The ship a client is in cannot be boarded, except during a login. */
  predicate Boards(c: Client, ship: nat) {
    c.place.login || ship != c.place.ship
  }

  /** Ships change in space only where there is a ship and a system. */
  predicate Flies(c: Client) {
    c.place.shipInSpace && c.place.system != Null
  }

  /** The new ship is the one in space, and sets the session timer. */
  function Aboard(d: StaticData, c: Client, ship: nat, now: int): Client {
    var aboard := SetShip(d, c, ship);
    SetSessionTimer(d, aboard.(place := aboard.place.(shipInSpace := true)), now)
  }

  function Board(d: StaticData, c: Client, ship: nat, now: int): Client {
    if Flies(c) && Boards(c, ship) then SendSessionChange(d, Aboard(d, c, ship, now)) else c
  }

  /** Boarding in a hangar does not look at where the client is. */
  function BoardShip(d: StaticData, c: Client, ship: nat, now: int): Client {
    if Boards(c, ship) then SetSessionTimer(d, SetShip(d, c, ship), now) else c
  }

  function Popping(c: Client): Client {
    c.(place := c.place.(autopilot := false), lanes := c.lanes.(bubbleWait := false))
  }

  function AfterPopped(d: StaticData, c: Client, pod: nat, now: int): Client {
    if Flies(c) then SendSessionChange(d, Aboard(d, Popping(c), pod, now)) else c
  }

  /** The ship is asked to send the full state anew. */
  function StateRequested(d: StaticData, c: Client, env: Env): Client {
    if c.place.shipInSpace then Resend(d, c, env) else c
  }

  function Podding(d: StaticData, c: Client, pod: nat): Client {
    SetShip(d, c.(place := c.place.(autopilot := false)), pod)
  }

  function AfterPodded(d: StaticData, c: Client, env: Env, pod: nat, clone: nat): Client {
    SendSessionChange(d, UpdateSession(d, MoveToLocation(d, Podding(d, c, pod), env, clone), env.timerTime))
  }

  /** Corporation and fleet data: keys that say nothing of the location. */
  function ShareValues(d: StaticData, c: Client, values: seq<(string, Val)>, send: bool): Client {
    var told := c.(link := SetAll(d.hash, c.link, SharedWrites(Done, values)));
    if send then SendSessionChange(d, told) else told
  }

  function ClientStep(d: StaticData, c: Client, op: Op): Client
    requires !op.RequestWormhole? && !op.Passing?
  {
    match op
    case RequestGate(gate, env) => StargateJump(d, c, env, gate)
    case RequestDrive(system, landing) => CynoJump(c, system, landing)
    case RequestDock(delay) =>
      c.(move := SetStateTimer(c.move, Dock, delay * 1000), place := c.place.(autopilot := false))
    case ChooseDock(station) => c.(place := c.place.(dockStation := station))
    case Beyonce(env) => BindBeyonce(d, c, env)
    case WarpDone(env) => LoginWarpComplete(d, c, env)
    case LeaveStation(env) => UndockFromStation(d, c, env)
    case UndockOver => c.(place := c.place.(undock := false))
    case RequestState(env) => StateRequested(d, c, env)
    case BoardInSpace(ship, now) => Board(d, c, ship, now)
    case BoardInHangar(ship, now) => BoardShip(d, c, ship, now)
    case Popped(pod, now) => AfterPopped(d, c, pod, now)
    case Podded(pod, clone, env) => AfterPodded(d, c, env, pod, clone)
    case Relocate(location, env) => MoveToLocation(d, c, env, location)
    case SetAutopilot(on) => c.(place := c.place.(autopilot := on))
    case SessionTimer(now) => SetSessionTimer(d, c, now)
    case Share(values, send) => ShareValues(d, c, values, send)
    case Offer(u, doPackage, isSetState) =>
      c.(lanes := DestinyLanes.QueueUpdate(c.lanes, Docked(d, c), u, doPackage, isSetState))
    case OfferEvent(u) => c.(lanes := DestinyLanes.QueueEvent(c.lanes, u))
    case Flush => c.(lanes := DestinyLanes.FlushQueue(c.lanes, Docked(d, c)))
    case DeclareState(sent) => StateSent(c, sent)
  }

  function Step(d: StaticData, j: Joint, op: Op): Joint {
    match op
    case RequestWormhole(hole, shipMass, spawn, offset) =>
      RequestWormholeJump(j.client, j.holes, hole, shipMass, spawn, offset)
    case Passing(env, stateFires, ballparkFires, shipMass) =>
      TickAll(d, j, env, stateFires, ballparkFires, shipMass)
    case _ => Joint(ClientStep(d, j.client, op), j.holes)
  }

  function Run(d: StaticData, j: Joint, ops: seq<Op>): Joint {
    if ops == [] then j else Step(d, Run(d, j, ops[..|ops| - 1]), ops[|ops| - 1])
  }

  lemma RunMore(d: StaticData, j: Joint, ops: seq<Op>, op: Op)
    ensures Run(d, j, ops + [op]) == Step(d, Run(d, j, ops), op)
  {
    assert (ops + [op])[..|ops|] == ops;
  }

  lemma RunThree(d: StaticData, j: Joint, o0: Op, o1: Op, o2: Op)
    ensures Run(d, j, [o0, o1, o2]) == Step(d, Step(d, Step(d, j, o0), o1), o2)
  {
    hide Step;
    RunMore(d, j, [], o0);
    RunMore(d, j, [o0], o1);
    RunMore(d, j, [o0, o1], o2);
    assert [] + [o0] == [o0] && [o0] + [o1] == [o0, o1] && [o0, o1] + [o2] == [o0, o1, o2];
  }

  lemma RunFour(d: StaticData, j: Joint, o0: Op, o1: Op, o2: Op, o3: Op)
    ensures Run(d, j, [o0, o1, o2, o3]) == Step(d, Step(d, Step(d, Step(d, j, o0), o1), o2), o3)
  {
    hide Step;
    RunThree(d, j, o0, o1, o2);
    RunMore(d, j, [o0, o1, o2], o3);
    assert [o0, o1, o2] + [o3] == [o0, o1, o2, o3];
  }
}
