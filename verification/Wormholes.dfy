/** Many clients and the wormholes they share: the mass of a ship is checked when it asks to
    jump and deducted when it does, with other ships in flight in between. */
module Wormholes {
  import opened ClientState
  import opened ClientRuns
  import JumpTargets

  datatype World = World(clients: seq<Client>, holes: Holes)

  /** One client takes a step; there is one table of wormholes. */
  datatype Turn = Turn(client: nat, op: Op)

  /** A run of the world, the last turn outermost. */
  datatype Turns = Begin | After(past: Turns, turn: Turn)

  function StepWorld(d: StaticData, w: World, t: Turn): World {
    if t.client < |w.clients| then
      var j := Step(d, Joint(w.clients[t.client], w.holes), t.op);
      World(w.clients[t.client := j.client], j.holes)
    else
      w
  }

  function RunWorld(d: StaticData, w: World, turns: Turns): World {
    match turns
    case Begin => w
    case After(past, turn) => StepWorld(d, RunWorld(d, w, past), turn)
  }

  // ------------------------------------------------------------------ in flight

  predicate InWormhole(m: Move) {
    m.state == WormholeJump && m.stateTimer
  }

  /** The client has been let into one of the two ends and its mass is not deducted yet. */
  predicate InFlight(c: Client, a: nat, b: nat) {
    InWormhole(c.move) && (c.move.wormhole == a || c.move.wormhole == b)
  }

  function Flights(clients: seq<Client>, a: nat, b: nat): (n: nat)
    ensures n <= |clients|
  {
    if clients == [] then 0
    else Flights(clients[..|clients| - 1], a, b) + if InFlight(clients[|clients| - 1], a, b) then 1 else 0
  }

  lemma {:induction false} FlightsUpdate(clients: seq<Client>, i: nat, c: Client, a: nat, b: nat)
    requires i < |clients|
    ensures Flights(clients[i := c], a, b)
            == Flights(clients, a, b) - (if InFlight(clients[i], a, b) then 1 else 0) + (if InFlight(c, a, b) then 1 else 0)
  {
    var last := |clients| - 1;
    if i == last {
      assert clients[i := c][..last] == clients[..last];
    } else {
      assert clients[i := c][..last] == clients[..last][i := c];
      FlightsUpdate(clients[..last], i, c, a, b);
    }
  }

  /** A client is in a wormhole after a step only if it was before, with the same wormhole
      and mass, and the step did not commit it; or if it asked for one that it fits. */
  lemma FlightStep(d: StaticData, j: Joint, op: Op)
    ensures var m, n := j.client.move, Step(d, j, op).client.move;
            InWormhole(n) ==>
              || (InWormhole(m) && n.wormhole == m.wormhole && n.mass == m.mass
                  && !(op.Passing? && Commits(d, j.client, op.env, op.stateFires, op.ballparkFires)))
              || (op.RequestWormhole? && !InWormhole(m) && n.wormhole == op.hole && n.mass == Tons(op.shipMass)
                  && op.hole in j.holes.items && Fits(j.holes.items[op.hole], Tons(op.shipMass)))
  {
    if Pending(j.client.move) {
      JumpTargets.PendingKept(d, j, op);
    }
    if !InWormhole(j.client.move) && !op.RequestWormhole? {
      NoNewFlight(d, j, op);
    }
  }

  lemma NoNewFlight(d: StaticData, j: Joint, op: Op)
    requires !InWormhole(j.client.move) && !op.RequestWormhole?
    ensures !InWormhole(Step(d, j, op).client.move)
  {
    var c := j.client;
    match op
    case RequestGate(gate, env) =>
      if gate.Gate? {
        JumpTargets.MoveKept(d, Crossing(c, gate), env, gate.system);
      }
    case LeaveStation(env) =>
      JumpTargets.MoveKept(d, Undocking(c), env, c.place.systemData);
    case Passing(env, stateFires, ballparkFires, _) => NoNewFlightTick(d, c, env, stateFires, ballparkFires);
    case Beyonce(env) => JumpTargets.BallParkSettles(d, c.(place := c.place.(beyonce := true)), env);
    case RequestDrive(_, _) =>
    case RequestDock(_) =>
    case WarpDone(_) =>
    case _ => JumpTargets.PassiveKeepsMove(d, c, op);
  }

  lemma NoNewFlightTick(d: StaticData, c: Client, env: Env, stateFires: bool, ballparkFires: bool)
    requires !InWormhole(c.move)
    ensures !InWormhole(Tick(d, c, env, stateFires, ballparkFires).move)
  {
    if !Docked(d, c) && c.place.shipInSpace {
      var quiet := c.(move := c.move.(ballparkTimer := false));
      var parked := if c.move.ballparkTimer && ballparkFires then SetBallPark(d, quiet, env) else c;
      JumpTargets.BallParkSettles(d, quiet, env);
      if parked.move.stateTimer && stateFires {
        NoNewFlightExpired(d, parked.(move := parked.move.(stateTimer := false)), env);
      }
    }
  }

  lemma NoNewFlightExpired(d: StaticData, c: Client, env: Env)
    requires !c.move.stateTimer
    ensures !InWormhole(StateExpired(d, c, env).move)
  {
    match c.move.state
    case Jump => JumpTargets.MoveKept(d, Launching(c, State.Jump), env, c.move.system);
    case DriveJump => JumpTargets.MoveKept(d, Launching(c, DriveJump), env, c.move.system);
    case WormholeJump =>
      JumpTargets.MoveKept(d, Plunging(c), env, c.move.system);
    case Dock =>
      JumpTargets.MoveKept(d, Docking(c), env, c.place.dockStation);
    case Login =>
      var seen := SetBallPark(d, c.(place := c.place.(login := false)), env);
      JumpTargets.MoveKept(d, seen, env, seen.place.systemData);
      JumpTargets.BallParkSettles(d, c.(place := c.place.(login := false)), env);
    case Undock => JumpTargets.BallParkSettles(d, c, env);
    case _ =>
  }

  // ------------------------------------------------------------------ a linked pair

  /** Two wormholes each of which holds the other as its far end, and nothing else does. */
  predicate Linked(t: Holes, a: nat, b: nat) {
    && a != b && a in t.items && b in t.items
    && t.items[a].target2 == b && t.items[b].target2 == a
    && t.items[a].maxJumpMass == t.items[b].maxJumpMass
    && t.items[a].stableMass == t.items[b].stableMass
    && (forall id :: id in t.items ==> id != 0 && ItemID(id) == id)
    && forall id :: id in t.items && id != a && id != b ==> ItemID(t.items[id].target2) != a && ItemID(t.items[id].target2) != b
  }

  /** The mass deducted so far by jumps into either end. */
  function Spent(commits: seq<Commit>, a: nat, b: nat): nat {
    if commits == [] then 0
    else
      var last := commits[|commits| - 1];
      Spent(commits[..|commits| - 1], a, b) + if last.entrance == a || last.entrance == b then last.tons else 0
  }

  lemma CreateExitLinked(t: Holes, system: nat, source: nat, spawn: Spawn, a: nat, b: nat)
    requires Linked(t, a, b) && source in t.items && source != a && source != b
    ensures var u := CreateExit(t, system, source, spawn);
            Linked(u, a, b) && u.commits == t.commits && u.items[a] == t.items[a]
  {
  }

  lemma DeductLinked(t: Holes, hole: nat, tons: nat, a: nat, b: nat)
    requires Linked(t, a, b)
    ensures var u := Deduct(t, hole, tons);
            && Linked(u, a, b)
            && u.items[a].maxJumpMass == t.items[a].maxJumpMass
            && u.items[a].stableMass == t.items[a].stableMass - (if hole == a || hole == b then tons else 0)
            && Spent(u.commits, a, b) == Spent(t.commits, a, b) + (if hole == a || hole == b then tons else 0)
  {
    assert ItemID(b) == b && ItemID(a) == a;
    if hole in t.items {
      assert (t.commits + [Commit(hole, tons)])[..|t.commits|] == t.commits;
      if hole != a && hole != b {
        var exit := ItemID(t.items[hole].target2);
        assert exit != a && exit != b;
      }
    }
  }

  /** What a step of one client takes from the pair. */
  function Taken(d: StaticData, j: Joint, op: Op, a: nat, b: nat): nat {
    if op.Passing? && Commits(d, j.client, op.env, op.stateFires, op.ballparkFires)
       && (j.client.move.wormhole == a || j.client.move.wormhole == b)
    then Tons(op.shipMass) else 0
  }

  lemma RequestLinked(c: Client, t: Holes, hole: nat, shipMass: nat, spawn: Spawn, offset: GPoint, a: nat, b: nat)
    requires Linked(t, a, b)
    ensures var u := RequestWormholeJump(c, t, hole, shipMass, spawn, offset).holes;
            Linked(u, a, b) && u.commits == t.commits && u.items[a] == t.items[a]
  {
    if hole in t.items && !HasExit(t, t.items[hole]) {
      assert ItemID(a) == a && ItemID(b) == b;
      CreateExitLinked(t, t.items[hole].target1, hole, spawn, a, b);
    }
  }

  /** How the pair is after a step: still linked, with so much taken from both ends. */
  predicate Lighter(t: Holes, u: Holes, a: nat, b: nat, taken: nat) {
    && Linked(t, a, b) && Linked(u, a, b)
    && u.items[a].maxJumpMass == t.items[a].maxJumpMass
    && u.items[a].stableMass == t.items[a].stableMass - taken
    && Spent(u.commits, a, b) == Spent(t.commits, a, b) + taken
  }

  lemma SameHoles(t: Holes, a: nat, b: nat)
    requires Linked(t, a, b)
    ensures Lighter(t, t, a, b, 0)
  {
  }

  lemma OtherStepHoles(d: StaticData, j: Joint, op: Op)
    requires !op.RequestWormhole? && !op.Passing?
    ensures Step(d, j, op).holes == j.holes
  {
  }

  lemma StepLinked(d: StaticData, j: Joint, op: Op, a: nat, b: nat)
    requires Linked(j.holes, a, b)
    ensures Lighter(j.holes, Step(d, j, op).holes, a, b, Taken(d, j, op, a, b))
  {
    if op.RequestWormhole? {
      RequestLinked(j.client, j.holes, op.hole, op.shipMass, op.spawn, op.offset, a, b);
    } else if op.Passing? {
      PassingLinked(d, j, op, a, b);
    } else {
      OtherStepHoles(d, j, op);
      SameHoles(j.holes, a, b);
    }
  }

  lemma PassingLinked(d: StaticData, j: Joint, op: Op, a: nat, b: nat)
    requires Linked(j.holes, a, b) && op.Passing?
    ensures Lighter(j.holes, TickAll(d, j, op.env, op.stateFires, op.ballparkFires, op.shipMass).holes, a, b,
                    Taken(d, j, op, a, b))
  {
    assert a != 0 && b != 0;
    SameHoles(j.holes, a, b);
    DeductLinked(j.holes, j.client.move.wormhole, Tons(op.shipMass), a, b);
  }

  function WorldTaken(d: StaticData, w: World, t: Turn, a: nat, b: nat): nat {
    if t.client < |w.clients| then Taken(d, Joint(w.clients[t.client], w.holes), t.op, a, b) else 0
  }

  lemma TurnLinked(d: StaticData, w: World, t: Turn, a: nat, b: nat)
    requires Linked(w.holes, a, b)
    ensures Lighter(w.holes, StepWorld(d, w, t).holes, a, b, WorldTaken(d, w, t, a, b))
  {
    if t.client < |w.clients| {
      StepLinked(d, Joint(w.clients[t.client], w.holes), t.op, a, b);
    }
  }

  // -------------------------------------------------------------------- the bound

  /** A ship that commits has the mass it was let in with. */
  predicate MassKept(d: StaticData, w: World, t: Turn) {
    t.client < |w.clients| && t.op.Passing? ==>
      var c := w.clients[t.client];
      Commits(d, c, t.op.env, t.op.stateFires, t.op.ballparkFires) ==> Tons(t.op.shipMass) == c.move.mass
  }

  ghost predicate MassesKept(d: StaticData, w: World, turns: Turns) {
    match turns
    case Begin => true
    case After(past, turn) => MassesKept(d, w, past) && MassKept(d, RunWorld(d, w, past), turn)
  }

  /** Each ship in flight fits, and what remains after all of them have landed is above the
      bound for the ships not in flight. */
  ghost predicate Bounded(w: World, a: nat, b: nat) {
    && Linked(w.holes, a, b) && w.holes.items[a].maxJumpMass > 0
    && (forall i :: 0 <= i < |w.clients| && InFlight(w.clients[i], a, b) ==>
          w.clients[i].move.mass <= w.holes.items[a].maxJumpMass)
    && w.holes.items[a].stableMass
       >= 1 - Times(w.holes.items[a].maxJumpMass, |w.clients| - Flights(w.clients, a, b))
  }

  function Times(m: int, n: int): int {
    m * n
  }

  lemma TimesStep(m: int, n: int)
    ensures Times(m, n + 1) == Times(m, n) + m
    ensures Times(m, n - 1) == Times(m, n) - m
  {
  }

  lemma TimesMonotone(m: int, n: int, k: int)
    requires m >= 0 && n <= k
    ensures Times(m, n) <= Times(m, k)
  {
  }

  /** One ship more or less in flight, and its mass taken. */
  lemma BoundStep(max: int, idle: int, stable: int, was: bool, flies: bool, taken: nat)
    requires max > 0 && stable >= 1 - Times(max, idle) && idle >= (if was then 0 else 1)
    requires taken > 0 ==> was && !flies && taken <= max
    requires flies && !was ==> stable >= 1
    ensures stable - taken
            >= 1 - Times(max, idle + (if was then 1 else 0) - (if flies then 1 else 0))
  {
    TimesStep(max, idle);
    if flies && !was {
      TimesMonotone(max, 0, idle - 1);
    }
  }

  /** The flights and the masses of one turn, as the bound needs them. */
  predicate FliesWell(t: Holes, c: Client, e: Client, a: nat, b: nat, taken: nat) {
    && a in t.items
    && (taken > 0 ==> InFlight(c, a, b) && !InFlight(e, a, b) && taken <= t.items[a].maxJumpMass)
    && (InFlight(e, a, b) ==> e.move.mass <= t.items[a].maxJumpMass)
    && (InFlight(e, a, b) && !InFlight(c, a, b) ==> t.items[a].stableMass >= 1)
  }

  lemma TurnFlights(d: StaticData, w: World, t: Turn, a: nat, b: nat)
    requires Bounded(w, a, b) && MassKept(d, w, t) && t.client < |w.clients|
    ensures FliesWell(w.holes, w.clients[t.client], StepWorld(d, w, t).clients[t.client], a, b,
                      WorldTaken(d, w, t, a, b))
  {
    FlightStep(d, Joint(w.clients[t.client], w.holes), t.op);
  }

  lemma NextBounded(w: World, i: nat, e: Client, u: Holes, a: nat, b: nat, taken: nat)
    requires Bounded(w, a, b) && i < |w.clients|
    requires Lighter(w.holes, u, a, b, taken) && FliesWell(w.holes, w.clients[i], e, a, b, taken)
    ensures Bounded(World(w.clients[i := e], u), a, b)
  {
    FlightsUpdate(w.clients, i, e, a, b);
    if !InFlight(w.clients[i], a, b) {
      SomeIdle(w.clients, i, a, b);
    }
    BoundStep(w.holes.items[a].maxJumpMass, |w.clients| - Flights(w.clients, a, b), w.holes.items[a].stableMass,
              InFlight(w.clients[i], a, b), InFlight(e, a, b), taken);
  }

  lemma StepBounded(d: StaticData, w: World, t: Turn, a: nat, b: nat)
    requires Bounded(w, a, b) && MassKept(d, w, t)
    ensures Bounded(StepWorld(d, w, t), a, b)
  {
    if t.client < |w.clients| {
      var r := StepWorld(d, w, t);
      TurnLinked(d, w, t, a, b);
      TurnFlights(d, w, t, a, b);
      NextBounded(w, t.client, r.clients[t.client], r.holes, a, b, WorldTaken(d, w, t, a, b));
      assert r == World(w.clients[t.client := r.clients[t.client]], r.holes);
    }
  }

  lemma {:induction false} SomeIdle(clients: seq<Client>, i: nat, a: nat, b: nat)
    requires i < |clients| && !InFlight(clients[i], a, b)
    ensures Flights(clients, a, b) < |clients|
  {
    if i < |clients| - 1 {
      SomeIdle(clients[..|clients| - 1], i, a, b);
    }
  }

  lemma {:induction false} NoneInFlight(clients: seq<Client>, a: nat, b: nat)
    requires forall i :: 0 <= i < |clients| ==> !InFlight(clients[i], a, b)
    ensures Flights(clients, a, b) == 0
  {
    if clients != [] {
      NoneInFlight(clients[..|clients| - 1], a, b);
    }
  }

  lemma {:induction false} RunBounded(d: StaticData, w: World, turns: Turns, a: nat, b: nat)
    requires Bounded(w, a, b) && MassesKept(d, w, turns)
    ensures Bounded(RunWorld(d, w, turns), a, b)
    ensures |RunWorld(d, w, turns).clients| == |w.clients|
    ensures RunWorld(d, w, turns).holes.items[a].maxJumpMass == w.holes.items[a].maxJumpMass
  {
    if turns.After? {
      RunBounded(d, w, turns.past, a, b);
      StepBounded(d, RunWorld(d, w, turns.past), turns.turn, a, b);
      TurnLinked(d, RunWorld(d, w, turns.past), turns.turn, a, b);
    }
  }

  lemma BoundedMeans(w: World, a: nat, b: nat)
    requires Bounded(w, a, b)
    ensures w.holes.items[a].stableMass > -Times(w.holes.items[a].maxJumpMass, |w.clients|)
  {
    var max := w.holes.items[a].maxJumpMass;
    TimesMonotone(max, |w.clients| - Flights(w.clients, a, b), |w.clients|);
  }

  lemma UnusedBounded(w: World, a: nat, b: nat)
    requires Linked(w.holes, a, b) && w.holes.items[a].maxJumpMass > 0 && w.holes.items[a].stableMass > 0
    requires forall i :: 0 <= i < |w.clients| ==> !InFlight(w.clients[i], a, b)
    ensures Bounded(w, a, b)
  {
    NoneInFlight(w.clients, a, b);
    TimesMonotone(w.holes.items[a].maxJumpMass, 0, |w.clients|);
  }

  /** However the clients take turns: of a pair that still stands, with n clients and none
      in flight, the mass that remains stays above -n times the largest mass let through,
      as long as no ship changes its mass in flight. */
  lemma {:induction false} MassBound(d: StaticData, w: World, turns: Turns, a: nat, b: nat)
    requires Linked(w.holes, a, b) && w.holes.items[a].maxJumpMass > 0 && w.holes.items[a].stableMass > 0
    requires forall i :: 0 <= i < |w.clients| ==> !InFlight(w.clients[i], a, b)
    requires MassesKept(d, w, turns)
    ensures var r := RunWorld(d, w, turns).holes;
            Linked(r, a, b) && r.items[a].stableMass > -(w.holes.items[a].maxJumpMass * |w.clients|)
  {
    UnusedBounded(w, a, b);
    RunBounded(d, w, turns, a, b);
    BoundedMeans(RunWorld(d, w, turns), a, b);
  }

  /** Both ends stay equal, and what has gone from either is what the jumps through the two
      took, in whole tons. No assumption on masses or on who is in flight is needed. */
  lemma {:induction false} MassConserved(d: StaticData, w: World, turns: Turns, a: nat, b: nat)
    requires Linked(w.holes, a, b)
    ensures var t, r := w.holes, RunWorld(d, w, turns).holes;
            && Linked(r, a, b)
            && t.items[a].stableMass - r.items[a].stableMass == t.items[b].stableMass - r.items[b].stableMass
               == Spent(r.commits, a, b) - Spent(t.commits, a, b)
  {
    if turns.After? {
      MassConserved(d, w, turns.past, a, b);
      TurnLinked(d, RunWorld(d, w, turns.past), turns.turn, a, b);
    }
  }

  // ------------------------------------------------------------- the bound is reached

  /** A client in space and free to jump, with no other timer running. */
  predicate Waiting(d: StaticData, c: Client) {
    Free(c.move) && !c.move.ballparkTimer && !Docked(d, c) && c.place.shipInSpace
  }

  predicate Heads(d: StaticData, c: Client, a: nat, tons: nat) {
    && Pending(c.move) && c.move.state == WormholeJump && c.move.wormhole == a && c.move.mass == tons
    && !c.move.ballparkTimer && !Docked(d, c) && c.place.shipInSpace && c.move.point != NULL_ORIGIN
  }

  /** The first k clients ask for a, each with the largest ship it lets through. */
  function Requests(k: nat, a: nat, tons: nat, offset: GPoint): Turns {
    if k == 0 then Begin
    else After(Requests(k - 1, a, tons, offset), Turn(k - 1, RequestWormhole(a, 1000 * tons, NoSpawn, offset)))
  }

  /** The timers of the first k clients expire. */
  function Expiries(k: nat, env: Env, tons: nat): Turns {
    if k == 0 then Begin
    else After(Expiries(k - 1, env, tons), Turn(k - 1, Passing(env, true, false, 1000 * tons)))
  }

  function Joined(first: Turns, second: Turns): Turns {
    match second
    case Begin => first
    case After(past, turn) => After(Joined(first, past), turn)
  }

  lemma {:induction false} RunJoined(d: StaticData, w: World, first: Turns, second: Turns)
    ensures RunWorld(d, w, Joined(first, second)) == RunWorld(d, RunWorld(d, w, first), second)
    ensures MassesKept(d, w, Joined(first, second))
            <==> MassesKept(d, w, first) && MassesKept(d, RunWorld(d, w, first), second)
  {
    if second.After? {
      RunJoined(d, w, first, second.past);
    }
  }

  lemma RequestHeads(d: StaticData, c: Client, t: Holes, a: nat, b: nat, tons: nat, offset: GPoint)
    requires Linked(t, a, b) && !t.items[a].isExit && Fits(t.items[a], tons)
    requires Waiting(d, c) && Displaced(t.items[b].position, offset) != NULL_ORIGIN
    ensures var r := RequestWormholeJump(c, t, a, 1000 * tons, NoSpawn, offset);
            r.holes == t && Heads(d, r.client, a, tons)
  {
    assert Tons(1000 * tons) == tons;
    assert ItemID(b) == b && HasExit(t, t.items[a]);
  }

  /** The first k clients head for a, the others and the wormholes are as they were. */
  ghost predicate Heading(d: StaticData, w: World, k: nat, a: nat, tons: nat, r: World) {
    && r.holes == w.holes && |r.clients| == |w.clients|
    && (forall i :: 0 <= i < k && i < |w.clients| ==> Heads(d, r.clients[i], a, tons))
    && (forall i :: k <= i < |w.clients| ==> r.clients[i] == w.clients[i])
  }

  lemma NextHeads(d: StaticData, w: World, r: World, k: nat, e: Client, a: nat, tons: nat)
    requires Heading(d, w, k, a, tons, r) && k < |w.clients| && Heads(d, e, a, tons)
    ensures Heading(d, w, k + 1, a, tons, World(r.clients[k := e], w.holes))
  {
  }

  lemma RequestNext(d: StaticData, w: World, r: World, k: nat, a: nat, b: nat, tons: nat, offset: GPoint)
    requires Linked(w.holes, a, b) && !w.holes.items[a].isExit && Fits(w.holes.items[a], tons)
    requires Heading(d, w, k, a, tons, r) && k < |w.clients| && Waiting(d, w.clients[k])
    requires Displaced(w.holes.items[b].position, offset) != NULL_ORIGIN
    ensures var turn := Turn(k, RequestWormhole(a, 1000 * tons, NoSpawn, offset));
            Heading(d, w, k + 1, a, tons, StepWorld(d, r, turn)) && MassKept(d, r, turn)
  {
    var turn := Turn(k, RequestWormhole(a, 1000 * tons, NoSpawn, offset));
    var c := w.clients[k];
    var e := RequestWormholeJump(c, w.holes, a, 1000 * tons, NoSpawn, offset).client;
    RequestHeads(d, c, w.holes, a, b, tons, offset);
    assert StepWorld(d, r, turn) == World(r.clients[k := e], w.holes);
    NextHeads(d, w, r, k, e, a, tons);
  }

  lemma {:induction false} AllRequest(d: StaticData, w: World, k: nat, a: nat, b: nat, tons: nat, offset: GPoint)
    requires Linked(w.holes, a, b) && !w.holes.items[a].isExit && Fits(w.holes.items[a], tons)
    requires forall i :: 0 <= i < |w.clients| ==> Waiting(d, w.clients[i])
    requires Displaced(w.holes.items[b].position, offset) != NULL_ORIGIN
    requires k <= |w.clients|
    ensures Heading(d, w, k, a, tons, RunWorld(d, w, Requests(k, a, tons, offset)))
    ensures MassesKept(d, w, Requests(k, a, tons, offset))
  {
    hide StepWorld, MassKept;
    if k > 0 {
      AllRequest(d, w, k - 1, a, b, tons, offset);
      RequestNext(d, w, RunWorld(d, w, Requests(k - 1, a, tons, offset)), k - 1, a, b, tons, offset);
    }
  }

  lemma HeadsCommits(d: StaticData, w: World, i: nat, env: Env, a: nat, b: nat, tons: nat)
    requires i < |w.clients| && Heads(d, w.clients[i], a, tons)
    ensures var t := Turn(i, Passing(env, true, false, 1000 * tons));
            WorldTaken(d, w, t, a, b) == tons && MassKept(d, w, t)
  {
    assert Tons(1000 * tons) == tons;
  }

  /** The mass of k ships has been taken, the other clients are as they were. */
  ghost predicate Landed(w: World, k: nat, a: nat, b: nat, tons: nat, r: World) {
    && Linked(w.holes, a, b) && Linked(r.holes, a, b) && |r.clients| == |w.clients|
    && r.holes.items[a].stableMass == w.holes.items[a].stableMass - Times(tons, k)
    && (forall i :: k <= i < |w.clients| ==> r.clients[i] == w.clients[i])
  }

  lemma NextLands(w: World, r: World, next: World, k: nat, a: nat, b: nat, tons: nat)
    requires k < |w.clients| && |next.clients| == |r.clients|
    requires forall i :: 0 <= i < |r.clients| && i != k ==> next.clients[i] == r.clients[i]
    ensures Landed(w, k, a, b, tons, r) && Lighter(r.holes, next.holes, a, b, tons)
            ==> Landed(w, k + 1, a, b, tons, next)
  {
    TimesStep(tons, k);
  }

  lemma {:induction false} AllExpire(d: StaticData, w: World, k: nat, env: Env, a: nat, b: nat, tons: nat)
    requires Linked(w.holes, a, b) && k <= |w.clients|
    requires forall i :: 0 <= i < |w.clients| ==> Heads(d, w.clients[i], a, tons)
    ensures Landed(w, k, a, b, tons, RunWorld(d, w, Expiries(k, env, tons)))
    ensures MassesKept(d, w, Expiries(k, env, tons))
  {
    hide StepWorld, MassKept;
    if k > 0 {
      AllExpire(d, w, k - 1, env, a, b, tons);
      ExpireNext(d, w, RunWorld(d, w, Expiries(k - 1, env, tons)), k - 1, env, a, b, tons);
    }
  }

  lemma ExpireNext(d: StaticData, w: World, r: World, k: nat, env: Env, a: nat, b: nat, tons: nat)
    requires Landed(w, k, a, b, tons, r) && k < |w.clients| && Heads(d, w.clients[k], a, tons)
    ensures var last := Turn(k, Passing(env, true, false, 1000 * tons));
            Landed(w, k + 1, a, b, tons, StepWorld(d, r, last)) && MassKept(d, r, last)
  {
    var last := Turn(k, Passing(env, true, false, 1000 * tons));
    HeadsCommits(d, r, k, env, a, b, tons);
    TurnLinked(d, r, last, a, b);
    TurnClients(d, r, last);
    NextLands(w, r, StepWorld(d, r, last), k, a, b, tons);
  }

  lemma TurnClients(d: StaticData, w: World, t: Turn)
    ensures var r := StepWorld(d, w, t);
            && |r.clients| == |w.clients|
            && forall i :: 0 <= i < |w.clients| && i != t.client ==> r.clients[i] == w.clients[i]
  {
  }

  /** The bound is the best one: from one ton left, n clients can take n times the largest
      mass, all of them let in before the first is deducted. */
  lemma BoundReached(d: StaticData, w: World, env: Env, a: nat, b: nat, offset: GPoint)
    requires Linked(w.holes, a, b) && !w.holes.items[a].isExit
    requires w.holes.items[a].maxJumpMass > 0 && w.holes.items[a].stableMass == 1
    requires forall i :: 0 <= i < |w.clients| ==> Waiting(d, w.clients[i])
    requires Displaced(w.holes.items[b].position, offset) != NULL_ORIGIN
    ensures var max := w.holes.items[a].maxJumpMass;
            var turns := Joined(Requests(|w.clients|, a, max, offset), Expiries(|w.clients|, env, max));
            var r := RunWorld(d, w, turns).holes;
            && MassesKept(d, w, turns)
            && Linked(r, a, b) && r.items[a].stableMass == 1 - max * |w.clients|
  {
    var max, n := w.holes.items[a].maxJumpMass, |w.clients|;
    AllRequest(d, w, n, a, b, max, offset);
    AllExpire(d, RunWorld(d, w, Requests(n, a, max, offset)), n, env, a, b, max);
    RunJoined(d, w, Requests(n, a, max, offset), Expiries(n, env, max));
    assert Times(max, n) == max * n;
  }
}
