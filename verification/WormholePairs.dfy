/** How wormholes come in pairs, and what a request to jump through one stores and what the
    jump takes: so that what is proved of linked pairs holds of the pairs the server makes. */
module WormholePairs {
  import opened ClientState
  import opened ClientRuns
  import opened Wormholes
  import Expiries

  // ---------------------------------------------------------------------- making one

  /** A new item number of 32 bits. */
  predicate Usable(t: Holes, spawn: Spawn) {
    spawn.Spawn? && spawn.id != 0 && spawn.id < 0x1_0000_0000 && spawn.id !in t.items
  }

  /** Item numbers are of 32 bits, and no other wormhole leads to either end. */
  predicate Apart(t: Holes, source: nat, exit: nat) {
    && (forall id :: id in t.items ==> 0 < id < 0x1_0000_0000)
    && forall id :: id in t.items && id != source ==>
         t.items[id].target2 % 0x1_0000_0000 != source && t.items[id].target2 % 0x1_0000_0000 != exit
  }

  /** A new exit lies in the system of the source, has its masses and leads back to it; the
      source leads to it; the two are linked, and other wormholes stay as they were. */
  lemma PairMade(t: Holes, system: nat, source: nat, spawn: Spawn)
    requires source in t.items && Usable(t, spawn) && Apart(t, source, spawn.id)
    ensures var u, s := CreateExit(t, system, source, spawn), t.items[source];
            && Linked(u, source, spawn.id)
            && u.items[spawn.id] == Wormhole(true, system, spawn.position, s.maxJumpMass, s.stableMass, source, source)
            && u.items[source] == s.(target2 := spawn.id)
            && u.items.Keys == t.items.Keys + {spawn.id} && u.commits == t.commits
            && forall id :: id in t.items && id != source ==> u.items[id] == t.items[id]
  {
  }

  /** Without a usable number no exit is made. */
  lemma NoPairMade(t: Holes, system: nat, source: nat, spawn: Spawn)
    requires source in t.items && !Usable(t, spawn)
    ensures CreateExit(t, system, source, spawn) == t
  {
  }

  // ----------------------------------------------------------------------- requesting

  /** A free client in a ship may ask for a wormhole that stands and that its ship fits. */
  predicate MayAsk(c: Client, t: Holes, hole: nat, shipMass: nat) {
    && c.move.state == Idle && !c.move.stateTimer && hole in t.items && c.place.shipInSpace
    && t.items[hole].stableMass > 0
    && (t.items[hole].maxJumpMass <= 0 || shipMass / 1000 <= t.items[hole].maxJumpMass)
  }

  lemma WormholeRefused(d: StaticData, j: Joint, hole: nat, shipMass: nat, spawn: Spawn, offset: GPoint)
    requires !MayAsk(j.client, j.holes, hole, shipMass)
    ensures Step(d, j, RequestWormhole(hole, shipMass, spawn, offset)) == j
  {
  }

  /** The pending move of a client that goes through a wormhole. */
  function Through(m: Move, hole: nat, shipMass: nat, system: nat, from: GPoint, offset: GPoint): Move {
    var point := GPoint(from.x + offset.x, from.y + offset.y, from.z + offset.z);
    m.(state := State.WormholeJump, stateTimer := true, wormhole := hole, mass := shipMass / 1000,
       system := system, point := point, trace := Then(m.trace, Accepted(State.WormholeJump, system, point)))
  }

  /** The far end of an exit: its first target, if that is an item, or else its second. */
  function FarEnd(t: Holes, exit: Wormhole): Ref {
    var first, second := exit.target1 % 0x1_0000_0000, exit.target2 % 0x1_0000_0000;
    if exit.target1 >= 100_000_000 && first in t.items then To(first)
    else if second in t.items then To(second)
    else Null
  }

  /** Through an exit the client is aimed at the far end, in the system where that lies. */
  lemma LeftByExit(d: StaticData, j: Joint, hole: nat, shipMass: nat, spawn: Spawn, offset: GPoint)
    requires MayAsk(j.client, j.holes, hole, shipMass) && j.holes.items[hole].isExit
    ensures var c, w, r := j.client, j.holes.items[hole], Step(d, j, RequestWormhole(hole, shipMass, spawn, offset));
            && r.holes == j.holes && r.client == c.(move := r.client.move)
            && r.client.move == match FarEnd(j.holes, w)
                                case Null => c.move.(wormhole := hole, mass := shipMass / 1000, system := w.target1)
                                case To(id) =>
                                  var far := j.holes.items[id];
                                  Through(c.move, hole, shipMass, far.location, far.position, offset)
  {
  }

  /** Through an entrance that has its exit the client is aimed at the exit. */
  lemma EnteredWithExit(d: StaticData, j: Joint, hole: nat, shipMass: nat, spawn: Spawn, offset: GPoint)
    requires MayAsk(j.client, j.holes, hole, shipMass) && !j.holes.items[hole].isExit
    requires j.holes.items[hole].target2 != 0 && j.holes.items[hole].target2 % 0x1_0000_0000 in j.holes.items
    ensures var c, w := j.client, j.holes.items[hole];
            var exit := j.holes.items[w.target2 % 0x1_0000_0000];
            Step(d, j, RequestWormhole(hole, shipMass, spawn, offset))
            == j.(client := c.(move := Through(c.move, hole, shipMass, w.target1, exit.position, offset)))
  {
  }

  /** An entrance whose exit does not exist, in a system the client is known in. */
  predicate Unpaired(c: Client, t: Holes, hole: nat) {
    && hole in t.items && !t.items[hole].isExit && c.place.system != Null && t.items[hole].target1 != 0
    && (t.items[hole].target2 == 0 || t.items[hole].target2 % 0x1_0000_0000 !in t.items)
  }

  /** Through an entrance without an exit one is made, in the system the entrance leads to:
      the two are linked, and the client is aimed at the new exit. */
  lemma EnteredMakingExit(d: StaticData, j: Joint, hole: nat, shipMass: nat, spawn: Spawn, offset: GPoint)
    requires MayAsk(j.client, j.holes, hole, shipMass) && Unpaired(j.client, j.holes, hole)
    requires Usable(j.holes, spawn) && Apart(j.holes, hole, spawn.id)
    ensures var c, w, r := j.client, j.holes.items[hole], Step(d, j, RequestWormhole(hole, shipMass, spawn, offset));
            && Linked(r.holes, hole, spawn.id)
            && r.holes.items[spawn.id].location == w.target1 && r.holes.items[spawn.id].isExit
            && r.holes.items[hole] == w.(target2 := spawn.id)
            && r.client == c.(move := Through(c.move, hole, shipMass, w.target1, spawn.position, offset))
  {
    PairMade(j.holes, j.holes.items[hole].target1, hole, spawn);
  }

  /** If none can be made, the client is aimed at whatever point is left over. */
  lemma EnteredWithoutExit(d: StaticData, j: Joint, hole: nat, shipMass: nat, spawn: Spawn, offset: GPoint)
    requires MayAsk(j.client, j.holes, hole, shipMass) && !j.holes.items[hole].isExit
    requires j.holes.items[hole].target2 == 0 || j.holes.items[hole].target2 % 0x1_0000_0000 !in j.holes.items
    requires !Usable(j.holes, spawn) || j.client.place.system == Null || j.holes.items[hole].target1 == 0
    ensures var c, w := j.client, j.holes.items[hole];
            Step(d, j, RequestWormhole(hole, shipMass, spawn, offset))
            == j.(client := c.(move := Through(c.move, hole, shipMass, w.target1, c.move.point, offset)))
  {
    if Unpaired(j.client, j.holes, hole) {
      NoPairMade(j.holes, j.holes.items[hole].target1, hole, spawn);
    }
  }

  // --------------------------------------------------------------------------- masses

  /** A wormhole with tons taken as many times as it is an end that is jumped through. */
  function Without(w: Wormhole, tons: nat, ends: nat): Wormhole {
    w.(stableMass := w.stableMass - tons * ends)
  }

  /** A jump takes the whole tons of the ship from the wormhole and from the exit it leads to,
      if there is one; a wormhole that leads to itself is taken from twice. */
  lemma MassTaken(t: Holes, hole: nat, tons: nat)
    requires hole in t.items
    ensures var u, exit := Deduct(t, hole, tons), t.items[hole].target2 % 0x1_0000_0000;
            && u.items.Keys == t.items.Keys && u.commits == t.commits + [Commit(hole, tons)]
            && forall id :: id in t.items ==>
                 u.items[id] == Without(t.items[id], tons, (if id == hole then 1 else 0) + (if id == exit && exit != 0 then 1 else 0))
  {
  }

  /** A tick takes mass exactly when it executes a wormhole jump whose wormhole still exists:
      the mass the ship has by now. */
  lemma TickTakes(d: StaticData, j: Joint, env: Env, stateFires: bool, ballparkFires: bool, shipMass: nat)
    ensures var m := j.client.move;
            var jumps := Executes(d, j.client, env, stateFires, ballparkFires) && m.state == State.WormholeJump;
            Step(d, j, Passing(env, stateFires, ballparkFires, shipMass)).holes
            == if jumps && m.wormhole != 0 && m.wormhole in j.holes.items
               then Deduct(j.holes, m.wormhole, shipMass / 1000) else j.holes
  {
    hide Tick;
  }

  /** The tons the turns of a run take by jumps through either end. */
  function TakenOver(d: StaticData, w: World, turns: Turns, a: nat, b: nat): nat {
    match turns
    case Begin => 0
    case After(past, turn) => TakenOver(d, w, past, a, b) + WorldTaken(d, RunWorld(d, w, past), turn, a, b)
  }

  /** The mass of a pair goes by the jumps alone. */
  lemma {:induction false} MassByJumps(d: StaticData, w: World, turns: Turns, a: nat, b: nat)
    requires Linked(w.holes, a, b)
    ensures var r := RunWorld(d, w, turns).holes;
            && Linked(r, a, b)
            && r.items[a].stableMass == w.holes.items[a].stableMass - TakenOver(d, w, turns, a, b)
            && r.items[b].stableMass == r.items[a].stableMass
  {
    hide StepWorld, WorldTaken;
    if turns.After? {
      MassByJumps(d, w, turns.past, a, b);
      TurnLinked(d, RunWorld(d, w, turns.past), turns.turn, a, b);
    }
  }

  /** A pair made by a request conserves its mass over every run from then on. */
  lemma MadePairConserves(d: StaticData, w: World, i: nat, hole: nat, shipMass: nat, spawn: Spawn, offset: GPoint,
                          turns: Turns)
    requires i < |w.clients| && MayAsk(w.clients[i], w.holes, hole, shipMass) && Unpaired(w.clients[i], w.holes, hole)
    requires Usable(w.holes, spawn) && Apart(w.holes, hole, spawn.id)
    ensures var made := StepWorld(d, w, Turn(i, RequestWormhole(hole, shipMass, spawn, offset)));
            var r := RunWorld(d, made, turns).holes;
            && Linked(r, hole, spawn.id)
            && r.items[hole].stableMass == r.items[spawn.id].stableMass
               == w.holes.items[hole].stableMass - TakenOver(d, made, turns, hole, spawn.id)
  {
    hide Step;
    EnteredMakingExit(d, Joint(w.clients[i], w.holes), hole, shipMass, spawn, offset);
    var made := StepWorld(d, w, Turn(i, RequestWormhole(hole, shipMass, spawn, offset)));
    MassByJumps(d, made, turns, hole, spawn.id);
  }
}
