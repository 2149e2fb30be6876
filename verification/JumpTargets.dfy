/** Jumps run with the target they were accepted with, at most once, over every run. */
module JumpTargets {
  import opened ClientState
  import opened ClientRuns

  /** The target a jump would have, as far as the history tells. */
  datatype Aim = NoAim | Aim(kind: State, system: nat, point: GPoint)

  /** The target of the last accepted jump that has not moved the client, at the point
      the last undocking since then has put in its place. */
  function AimOf(t: Trace): Aim {
    match t
    case Start => NoAim
    case Then(past, Accepted(kind, system, point)) => Aim(kind, system, point)
    case Then(past, Redirected(point)) => if AimOf(past).Aim? then AimOf(past).(point := point) else NoAim
    case Then(past, Moved(_, _, _)) => NoAim
  }

  /** Every move of the client by a jump goes where the last accepted jump was aimed. */
  predicate Faithful(t: Trace) {
    match t
    case Start => true
    case Then(past, Moved(kind, system, point)) => Faithful(past) && AimOf(past) == Aim(kind, system, point)
    case Then(past, _) => Faithful(past)
  }

  predicate OnTarget(m: Move) {
    && Faithful(m.trace)
    && (Pending(m) ==> AimOf(m.trace) == Aim(m.state, m.system, m.point))
  }

  // -------------------------------------------------------- what moves leave alone

  lemma ArriveKeepsMove(d: StaticData, c: Client, env: Env)
    ensures Arrive(d, c, env).move == c.move
  {
  }

  lemma EnterKeepsMove(d: StaticData, c: Client, env: Env)
    ensures Enter(d, c, env).move == c.move
  {
    ArriveKeepsMove(d, c, env);
    ArriveKeepsMove(d, Boot(c), env);
  }

  lemma MoveKept(d: StaticData, c: Client, env: Env, location: nat)
    ensures MoveToLocation(d, c, env, location).move == c.move
  {
    EnterKeepsMove(d, Depart(d, c, location), env);
  }

  lemma BallParkOnTarget(d: StaticData, c: Client, env: Env)
    requires OnTarget(c.move)
    ensures OnTarget(SetBallPark(d, c, env).move)
  {
  }

  lemma ExecuteOnTarget(d: StaticData, c: Client, env: Env)
    requires Faithful(c.move.trace) && !c.move.stateTimer
    requires IsJump(c.move.state) ==> AimOf(c.move.trace) == Aim(c.move.state, c.move.system, c.move.point)
    ensures c.move.state == State.Jump ==> OnTarget(ExecuteJump(d, c, env).move)
    ensures c.move.state == DriveJump ==> OnTarget(ExecuteDriveJump(d, c, env).move)
    ensures c.move.state == WormholeJump ==> OnTarget(ExecuteWormholeJump(d, c, env).move)
  {
    MoveKept(d, Launching(c, State.Jump), env, c.move.system);
    MoveKept(d, Launching(c, DriveJump), env, c.move.system);
    MoveKept(d, Plunging(c), env, c.move.system);
  }

  lemma TickOnTarget(d: StaticData, c: Client, env: Env, stateFires: bool, ballparkFires: bool)
    requires OnTarget(c.move)
    ensures OnTarget(Tick(d, c, env, stateFires, ballparkFires).move)
  {
    if !Docked(d, c) && c.place.shipInSpace {
      var quiet := c.(move := c.move.(ballparkTimer := false));
      BallParkOnTarget(d, quiet, env);
      var parked := if c.move.ballparkTimer && ballparkFires then SetBallPark(d, quiet, env) else c;
      if parked.move.stateTimer && stateFires {
        ExpiredOnTarget(d, parked.(move := parked.move.(stateTimer := false)), env);
      }
    }
  }

  lemma ExpiredOnTarget(d: StaticData, c: Client, env: Env)
    requires Faithful(c.move.trace) && !c.move.stateTimer
    requires IsJump(c.move.state) ==> AimOf(c.move.trace) == Aim(c.move.state, c.move.system, c.move.point)
    ensures OnTarget(StateExpired(d, c, env).move)
  {
    hide MoveToLocation, Updated;
    ExecuteOnTarget(d, c, env);
    match c.move.state
    case Dock =>
      MoveKept(d, Docking(c), env, c.place.dockStation);
    case Login =>
      var seen := SetBallPark(d, c.(place := c.place.(login := false)), env);
      MoveKept(d, seen, env, seen.place.systemData);
    case _ =>
  }

  lemma GateOnTarget(d: StaticData, c: Client, env: Env, gate: Gate)
    requires OnTarget(c.move)
    ensures OnTarget(StargateJump(d, c, env, gate).move)
  {
    if gate.Gate? {
      MoveKept(d, Crossing(c, gate), env, gate.system);
    }
  }

  lemma UndockOnTarget(d: StaticData, c: Client, env: Env)
    requires OnTarget(c.move)
    ensures OnTarget(UndockFromStation(d, c, env).move)
  {
    MoveKept(d, Undocking(c), env, c.place.systemData);
  }

  /** Operations that ask for nothing and let no timer expire. */
  predicate Passive(op: Op) {
    !op.RequestGate? && !op.RequestDrive? && !op.RequestWormhole? && !op.RequestDock?
    && !op.Passing? && !op.Beyonce? && !op.WarpDone? && !op.LeaveStation?
  }

  lemma PassiveKeepsMove(d: StaticData, c: Client, op: Op)
    requires Passive(op)
    ensures ClientStep(d, c, op).move == c.move
  {
    hide MoveToLocation, SetAll, Updated;
    match op
    case Podded(pod, clone, env) =>
      MoveKept(d, Podding(d, c, pod), env, clone);
    case Relocate(location, env) => MoveKept(d, c, env, location);
    case _ =>
  }

  lemma StepOnTarget(d: StaticData, j: Joint, op: Op)
    requires OnTarget(j.client.move)
    ensures OnTarget(Step(d, j, op).client.move)
  {
    hide StargateJump, UndockFromStation, SetBallPark, Tick, MoveToLocation, Entrance, CreateExit;
    match op
    case RequestGate(gate, env) => GateOnTarget(d, j.client, env, gate);
    case RequestDrive(system, landing) =>
    case RequestWormhole(hole, shipMass, spawn, offset) =>
    case RequestDock(delay) =>
    case Passing(env, stateFires, ballparkFires, _) => TickOnTarget(d, j.client, env, stateFires, ballparkFires);
    case Beyonce(env) => BallParkOnTarget(d, j.client.(place := j.client.place.(beyonce := true)), env);
    case WarpDone(env) =>
    case LeaveStation(env) => UndockOnTarget(d, j.client, env);
    case _ => PassiveKeepsMove(d, j.client, op);
  }

  /** Over every run, a jump that moves the client is the last one accepted, has not moved
      it before, and goes to the system it was accepted for, at the point it was accepted
      with or the dock exit of a later undocking. */
  lemma {:induction false} JumpTargets(d: StaticData, j: Joint, ops: seq<Op>)
    requires OnTarget(j.client.move)
    ensures OnTarget(Run(d, j, ops).client.move)
  {
    if ops != [] {
      JumpTargets(d, j, ops[..|ops| - 1]);
      StepOnTarget(d, Run(d, j, ops[..|ops| - 1]), ops[|ops| - 1]);
    }
  }

  // ------------------------------------------------- the target it was accepted with

  /** The last accepted jump that has not moved the client, as it was accepted. */
  function AcceptedAim(t: Trace): Aim {
    match t
    case Start => NoAim
    case Then(past, Accepted(kind, system, point)) => Aim(kind, system, point)
    case Then(past, Redirected(_)) => AcceptedAim(past)
    case Then(past, Moved(_, _, _)) => NoAim
  }

  datatype Exit = NoExit | Exit(point: GPoint)

  /** The exit of the last undocking since the last jump was accepted, if there was one:
      nothing else happens to targets in between. */
  function LastExit(t: Trace): Exit {
    match t
    case Then(_, Redirected(point)) => Exit(point)
    case _ => NoExit
  }

  lemma {:induction false} AimIsAccepted(t: Trace)
    ensures AimOf(t).Aim? <==> AcceptedAim(t).Aim?
    ensures AimOf(t).Aim? ==>
              && AimOf(t).kind == AcceptedAim(t).kind && AimOf(t).system == AcceptedAim(t).system
              && AimOf(t).point == if LastExit(t).Exit? then LastExit(t).point else AcceptedAim(t).point
  {
    if t.Then? {
      AimIsAccepted(t.past);
    }
  }

  /** A jump has the kind and system it was accepted with. It goes to the exit of the last
      undocking since, or else to the point it was accepted with. */
  predicate AsAccepted(past: Trace, kind: State, system: nat, point: GPoint) {
    var a := AcceptedAim(past);
    && a.Aim? && a.kind == kind && a.system == system
    && point == if LastExit(past).Exit? then LastExit(past).point else a.point
  }

  predicate EveryMoveAsAccepted(t: Trace) {
    match t
    case Start => true
    case Then(past, Moved(kind, system, point)) => EveryMoveAsAccepted(past) && AsAccepted(past, kind, system, point)
    case Then(past, _) => EveryMoveAsAccepted(past)
  }

  lemma {:induction false} FaithfulAsAccepted(t: Trace)
    requires Faithful(t)
    ensures EveryMoveAsAccepted(t)
  {
    if t.Then? {
      FaithfulAsAccepted(t.past);
      AimIsAccepted(t.past);
    }
  }

  /** Over every run, every jump that moves the client goes where it was accepted for; to
      the very point it was accepted with exactly when no undocking since has left another. */
  lemma {:induction false} MovedAsAccepted(d: StaticData, j: Joint, ops: seq<Op>)
    requires OnTarget(j.client.move)
    ensures var t := Run(d, j, ops).client.move.trace;
            && EveryMoveAsAccepted(t)
            && (t.Then? && t.event.Moved? ==>
                  (t.event.point == AcceptedAim(t.past).point
                   <==> LastExit(t.past).NoExit? || LastExit(t.past).point == AcceptedAim(t.past).point))
  {
    JumpTargets(d, j, ops);
    FaithfulAsAccepted(Run(d, j, ops).client.move.trace);
  }

  /** A docked client whose jump is still pending is sent to the jump's system, at the
      direction of the dock, if it undocks and the timer expires then. */
  lemma UndockRedirects(d: StaticData, c: Client, env: Env)
    requires Pending(c.move) && Docked(d, c) && c.place.dockExit != NULL_ORIGIN && env.boots
    requires IsSolarSystem(d, c.place.systemData) && !c.move.ballparkTimer
    ensures var exit := c.place.dockExit;
            Tick(d, UndockFromStation(d, c, env), env, true, false).move.trace
            == Then(Then(c.move.trace, Redirected(exit)), Moved(c.move.state, c.move.system, exit))
  {
    MoveKept(d, Undocking(c), env, c.place.systemData);
    MoveArrives(d, Undocking(c), env, c.place.systemData);
    var outside := UndockFromStation(d, c, env);
    assert outside.move == Undocking(c).move;
    ExecutesExactly(d, outside, env, true, false);
  }

  lemma PoddedDocks(d: StaticData, c: Client, env: Env, pod: nat, clone: nat)
    requires IsStation(d, clone) && env.boots
    ensures var r := AfterPodded(d, c, env, pod, clone);
            && r.move == c.move && Docked(d, r) && r.place.dockExit == d.stations[clone].dockExit
            && IsSolarSystem(d, r.place.systemData)
  {
    var dead := Podding(d, c, pod);
    MoveKept(d, dead, env, clone);
    ArriveDocked(d, Depart(d, dead, clone), env);
    ArriveDocked(d, Boot(Depart(d, dead, clone)), env);
  }

  lemma ArriveDocked(d: StaticData, c: Client, env: Env)
    requires Docked(d, c)
    ensures var r := Arrive(d, c, env);
            && r.place.location == c.place.location && r.place.systemData == c.place.systemData
            && r.place.dockExit == d.stations[c.place.location].dockExit
  {
    assert c.place.location != 0;
  }

  /** There is such a client: one killed after it was let through a gate wakes in its clone's
      station with the timer of the jump running. The run ends at the exit of that station,
      in the system of the jump. */
  lemma KilledThenUndocked(d: StaticData, j: Joint, gate: Gate, pod: nat, clone: nat, env: Env, shipMass: nat)
    requires Free(j.client.move) && !j.client.move.ballparkTimer && !j.client.place.autopilot
    requires gate.Gate? && gate.securityAllows && env.boots
    requires IsStation(d, clone) && d.stations[clone].dockExit != NULL_ORIGIN
    ensures var exit := d.stations[clone].dockExit;
            var ops := [RequestGate(gate, env), Podded(pod, clone, env), LeaveStation(env),
                        Passing(env, true, false, shipMass)];
            Run(d, j, ops).client.move.trace
            == Then(Then(Then(j.client.move.trace,
                 Accepted(State.Jump, gate.system, gate.landing)),
                 Redirected(exit)),
                 Moved(State.Jump, gate.system, exit))
  {
    hide AfterPodded, UndockFromStation, Tick;
    var ops := [RequestGate(gate, env), Podded(pod, clone, env), LeaveStation(env),
                Passing(env, true, false, shipMass)];
    RunFour(d, j, ops[0], ops[1], ops[2], ops[3]);
    var let := StargateJump(d, j.client, env, gate);
    PoddedDocks(d, let, env, pod, clone);
    UndockRedirects(d, AfterPodded(d, let, env, pod, clone), env);
  }

  lemma ArriveInSpace(d: StaticData, c: Client, env: Env)
    requires InSpace(d, c)
    ensures var r := Arrive(d, c, env); r.place.location == c.place.location && r.place.shipInSpace
  {
    assert c.place.location != 0;
  }

  lemma MoveArrives(d: StaticData, c: Client, env: Env, system: nat)
    requires IsSolarSystem(d, system) && Docked(d, c) && env.boots
    ensures var r := MoveToLocation(d, c, env, system); r.place.location == system && r.place.shipInSpace
  {
    var b := Depart(d, c, system);
    ArriveInSpace(d, b, env);
    ArriveInSpace(d, Boot(b), env);
  }

  // ------------------------------------------------------------- when a jump executes

  /** A tick moves the client by the pending jump exactly when the jump executes, and does
      no other jump. */
  lemma ExecutesExactly(d: StaticData, c: Client, env: Env, stateFires: bool, ballparkFires: bool)
    ensures Tick(d, c, env, stateFires, ballparkFires).move.trace
            == if Executes(d, c, env, stateFires, ballparkFires)
               then Then(c.move.trace, Moved(c.move.state, c.move.system, c.move.point))
               else c.move.trace
  {
    if !Docked(d, c) && c.place.shipInSpace {
      var quiet := c.(move := c.move.(ballparkTimer := false));
      var parked := if c.move.ballparkTimer && ballparkFires then SetBallPark(d, quiet, env) else c;
      BallParkSettles(d, quiet, env);
      if parked.move.stateTimer && stateFires {
        ExpiredTrace(d, parked.(move := parked.move.(stateTimer := false)), env);
      }
    }
  }

  lemma BallParkSettles(d: StaticData, c: Client, env: Env)
    ensures var m := SetBallPark(d, c, env).move;
            && m == c.move.(state := if Settles(c) && IsJump(c.move.state) then Idle else c.move.state,
                            ballparkTimer := m.ballparkTimer)
  {
  }

  lemma ParkedSettles(d: StaticData, c: Client, env: Env, ballparkFires: bool)
    ensures var m := Parked(d, c, env, ballparkFires).move;
            && m == c.move.(state := if c.move.ballparkTimer && ballparkFires && Settles(c) && IsJump(c.move.state)
                                     then Idle else c.move.state,
                            ballparkTimer := m.ballparkTimer)
  {
    hide SetBallPark;
    BallParkSettles(d, c.(move := c.move.(ballparkTimer := false)), env);
  }

  lemma ExpiredTrace(d: StaticData, c: Client, env: Env)
    ensures StateExpired(d, c, env).move.trace
            == if IsJump(c.move.state) && c.move.point != NULL_ORIGIN
               then Then(c.move.trace, Moved(c.move.state, c.move.system, c.move.point))
               else c.move.trace
  {
    hide MoveToLocation, Updated;
    match c.move.state
    case Jump =>
      MoveKept(d, Launching(c, State.Jump), env, c.move.system);
    case DriveJump =>
      MoveKept(d, Launching(c, DriveJump), env, c.move.system);
    case WormholeJump =>
      MoveKept(d, Plunging(c), env, c.move.system);
    case Dock =>
      MoveKept(d, Docking(c), env, c.place.dockStation);
    case Login =>
      var seen := SetBallPark(d, c.(place := c.place.(login := false)), env);
      MoveKept(d, seen, env, seen.place.systemData);
    case _ =>
  }

  /** What ends the wait of a pending jump, executed or not: its timer expires while the
      client is docked or has a ship; the ballpark is settled meanwhile; or a docking delay
      of zero stops the timer. */
  predicate Interrupts(d: StaticData, c: Client, op: Op) {
    match op
    case RequestDock(delay) => delay == 0
    case Beyonce(_) => c.place.login && !c.lanes.setStateSent
    case Passing(_, stateFires, ballparkFires, _) =>
      if Docked(d, c) then stateFires
      else c.place.shipInSpace && (stateFires || (c.move.ballparkTimer && ballparkFires && Settles(c)))
    case _ => false
  }

  /** A pending jump stays pending, for the same system and wormhole, through every
      operation that is not one of those, whatever else is asked for; only undocking
      changes its point. */
  lemma PendingKept(d: StaticData, j: Joint, op: Op)
    requires Pending(j.client.move)
    ensures var m, n := j.client.move, Step(d, j, op).client.move;
            && (n.state == m.state && n.stateTimer <==> !Interrupts(d, j.client, op))
            && (!Interrupts(d, j.client, op) ==>
                  && n.system == m.system && n.wormhole == m.wormhole && n.mass == m.mass
                  && n.point == if op.LeaveStation? then j.client.place.dockExit else m.point)
  {
    hide MoveToLocation, SetBallPark, Tick, Updated, SetAll;
    var c := j.client;
    match op
    case LeaveStation(env) =>
      MoveKept(d, Undocking(c), env, c.place.systemData);
    case Passing(env, stateFires, ballparkFires, _) => PendingTick(d, c, env, stateFires, ballparkFires);
    case Beyonce(env) => BallParkSettles(d, c.(place := c.place.(beyonce := true)), env);
    case RequestGate(_, _) =>
    case RequestDrive(_, _) =>
    case RequestWormhole(_, _, _, _) =>
    case RequestDock(_) =>
    case WarpDone(_) =>
    case _ => PassiveKeepsMove(d, c, op);
  }

  lemma PendingTick(d: StaticData, c: Client, env: Env, stateFires: bool, ballparkFires: bool)
    requires Pending(c.move)
    ensures var m, n := c.move, Tick(d, c, env, stateFires, ballparkFires).move;
            var interrupts := Interrupts(d, c, Passing(env, stateFires, ballparkFires, 0));
            && (n.state == m.state && n.stateTimer <==> !interrupts)
            && (!interrupts ==> n == m.(ballparkTimer := n.ballparkTimer))
  {
    if !Docked(d, c) && c.place.shipInSpace {
      var quiet := c.(move := c.move.(ballparkTimer := false));
      var parked := if c.move.ballparkTimer && ballparkFires then SetBallPark(d, quiet, env) else c;
      BallParkSettles(d, quiet, env);
      if parked.move.stateTimer && stateFires {
        ExpiredNotPending(d, parked.(move := parked.move.(stateTimer := false)), env, c.move.state);
      }
    }
  }

  lemma ExpiredNotPending(d: StaticData, c: Client, env: Env, kind: State)
    requires IsJump(kind) && (c.move.state == kind || c.move.state == Idle) && !c.move.stateTimer
    ensures var n := StateExpired(d, c, env).move; !(n.state == kind && n.stateTimer)
  {
    MoveKept(d, Launching(c, State.Jump), env, c.move.system);
    MoveKept(d, Launching(c, DriveJump), env, c.move.system);
    MoveKept(d, Plunging(c), env, c.move.system);
  }

  // ------------------------------------------------------------- where wormholes land

  /** A wormhole jump is meant to land at the far wormhole, or at the origin when there is
      none. It does exactly when the far wormhole is known or no point is left over from
      an earlier move. */
  lemma LandingPoint(c: Client, t: Holes, hole: nat, shipMass: nat, spawn: Spawn, offset: GPoint)
    requires Free(c.move)
    requires Pending(RequestWormholeJump(c, t, hole, shipMass, spawn, offset).client.move)
    ensures var r := RequestWormholeJump(c, t, hole, shipMass, spawn, offset);
            && hole in t.items && hole in r.holes.items
            && var w := r.holes.items[hole];
            && (w.isExit ==> Entrance(t, w) != Null && Entrance(t, w).id in t.items)
            && var meant := if w.isExit then t.items[Entrance(t, w).id].position
                            else if HasExit(r.holes, w) then r.holes.items[ItemID(w.target2)].position
                            else NULL_ORIGIN;
            && (r.client.move.point == Displaced(meant, offset)
                <==> w.isExit || HasExit(r.holes, w) || c.move.point == NULL_ORIGIN)
  {
  }

  /** Undocking leaves such a point: after its timer expires the client is free to jump and
      the direction of the dock is still stored. */
  lemma UndockLeavesPoint(d: StaticData, c: Client, env: Env)
    requires Free(c.move) && Docked(d, c) && env.boots && IsSolarSystem(d, c.place.systemData)
    ensures var m := Tick(d, UndockFromStation(d, c, env), env, true, false).move;
            Free(m) && m.point == c.place.dockExit
  {
    hide MoveToLocation, SetBallPark;
    MoveKept(d, Undocking(c), env, c.place.systemData);
    MoveArrives(d, Undocking(c), env, c.place.systemData);
    var outside := UndockFromStation(d, c, env);
    assert outside.move == Undocking(c).move.(state := State.Undock, stateTimer := true);
    BallParkSettles(d, outside.(move := outside.move.(stateTimer := false)), env);
  }
}
