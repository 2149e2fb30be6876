/** Delivery of destiny updates over the runs of a client: whatever the client does, its
    lanes conserve what they took in, keep its order, and send only what can be read. */
module ClientDelivery {
  import opened ClientState
  import opened ClientRuns
  import DestinyLanes

  /** Lanes of which the delivery properties hold. */
  ghost predicate Delivering(l: DestinyLanes.Lanes) {
    DestinyLanes.Accounted(l) && DestinyLanes.AllReadable(l)
  }

  lemma StepDelivers(l: DestinyLanes.Lanes, op: DestinyLanes.Op)
    requires Delivering(l)
    ensures Delivering(DestinyLanes.Step(l, op))
  {
    DestinyLanes.StepAccounted(l, op);
    DestinyLanes.StepReadable(l, op);
  }

  /** Only the flags differ, and the state is not newly declared sent. */
  predicate Resets(l: DestinyLanes.Lanes, m: DestinyLanes.Lanes) {
    && m == l.(setStateSent := m.setStateSent, bubbleWait := m.bubbleWait)
    && (m.setStateSent ==> l.setStateSent)
  }

  lemma ResetDelivers(l: DestinyLanes.Lanes, m: DestinyLanes.Lanes)
    requires Delivering(l) && Resets(l, m)
    ensures Delivering(m)
  {
    forall lane: DestinyLanes.Lane
      ensures DestinyLanes.Balanced(m, lane)
    {
      assert DestinyLanes.Balanced(l, lane);
    }
  }

  lemma MoveResets(d: StaticData, c: Client, env: Env, location: nat)
    ensures Resets(c.lanes, MoveToLocation(d, c, env, location).lanes)
  {
    hide Arrive;
    ArriveResets(d, Depart(d, c, location), env);
    ArriveResets(d, Boot(Depart(d, c, location)), env);
  }

  lemma ArriveResets(d: StaticData, c: Client, env: Env)
    ensures Resets(c.lanes, Arrive(d, c, env).lanes)
  {
    hide ShipPlaced, SendSessionChange, Updated;
    ShipPlacedResets(d, c, env);
    ChangeKeepsLanes(d, UpdateSession(d, CharacterPlaced(d, ShipPlaced(d, c, env)), env.now));
  }

  lemma ShipPlacedResets(d: StaticData, c: Client, env: Env)
    ensures Resets(c.lanes, ShipPlaced(d, c, env).lanes)
  {
  }

  lemma ChangeKeepsLanes(d: StaticData, c: Client)
    ensures SendSessionChange(d, c).lanes == c.lanes
  {
  }

  lemma StateDelivers(c: Client, sent: bool)
    requires Delivering(c.lanes)
    ensures Delivering(StateSent(c, sent).lanes)
  {
    StepDelivers(c.lanes, DestinyLanes.StateSent(sent));
  }

  lemma SendSetStateDelivers(d: StaticData, c: Client, env: Env)
    requires Delivering(c.lanes)
    ensures Delivering(SendSetState(d, c, env).lanes)
  {
    var offer := DestinyLanes.Offer(Docked(d, c), env.snapshot, true, true);
    StepDelivers(c.lanes, offer);
    StateDelivers(c.(lanes := DestinyLanes.Step(c.lanes, offer)), true);
  }

  lemma ResendDelivers(d: StaticData, c: Client, env: Env)
    requires Delivering(c.lanes)
    ensures Delivering(Resend(d, c, env).lanes)
  {
    StateDelivers(c, false);
    SendSetStateDelivers(d, StateSent(c, false), env);
  }

  lemma MoveDelivers(d: StaticData, c: Client, env: Env, location: nat)
    requires Delivering(c.lanes)
    ensures Delivering(MoveToLocation(d, c, env, location).lanes)
  {
    MoveResets(d, c, env, location);
    ResetDelivers(c.lanes, MoveToLocation(d, c, env, location).lanes);
  }

  lemma BallParkDelivers(d: StaticData, c: Client, env: Env)
    requires Delivering(c.lanes)
    ensures Delivering(SetBallPark(d, c, env).lanes)
  {
    hide SendSetState;
    ResetDelivers(c.lanes, c.lanes.(bubbleWait := true));
    ResetDelivers(c.lanes, c.lanes.(bubbleWait := false));
    SendSetStateDelivers(d, c.(lanes := c.lanes.(bubbleWait := false)), env);
  }

  lemma DockDelivers(d: StaticData, c: Client, env: Env)
    requires Delivering(c.lanes)
    ensures Delivering(DockToStation(d, c, env).lanes)
  {
    hide MoveToLocation;
    ResetDelivers(c.lanes, Docking(c).lanes);
    MoveDelivers(d, Docking(c), env, c.place.dockStation);
  }

  lemma UndockDelivers(d: StaticData, c: Client, env: Env)
    requires Delivering(c.lanes)
    ensures Delivering(UndockFromStation(d, c, env).lanes)
  {
    hide MoveToLocation;
    MoveDelivers(d, Undocking(c), env, c.place.systemData);
  }

  lemma GateDelivers(d: StaticData, c: Client, env: Env, gate: Gate)
    requires Delivering(c.lanes)
    ensures Delivering(StargateJump(d, c, env, gate).lanes)
  {
    hide MoveToLocation, Resend;
    if gate.Gate? {
      var there := MoveToLocation(d, Crossing(c, gate), env, gate.system);
      MoveDelivers(d, Crossing(c, gate), env, gate.system);
      ResendDelivers(d, there, env);
    }
  }

  lemma ExecuteDelivers(d: StaticData, c: Client, env: Env)
    requires Delivering(c.lanes)
    ensures Delivering(ExecuteJump(d, c, env).lanes)
    ensures Delivering(ExecuteDriveJump(d, c, env).lanes)
    ensures Delivering(ExecuteWormholeJump(d, c, env).lanes)
  {
    hide MoveToLocation, Resend;
    var launched := Launching(c, State.Jump);
    MoveDelivers(d, launched, env, c.move.system);
    ResendDelivers(d, MoveToLocation(d, launched, env, c.move.system), env);
    MoveDelivers(d, Launching(c, DriveJump), env, c.move.system);
    MoveDelivers(d, Plunging(c), env, c.move.system);
  }

  lemma WarpInDelivers(d: StaticData, c: Client, env: Env)
    requires Delivering(c.lanes)
    ensures Delivering(WarpIn(d, c, env).lanes)
  {
    hide MoveToLocation, Resend;
    MoveDelivers(d, c, env, c.place.systemData);
    var entered := if env.inBubble then c else MoveToLocation(d, c, env, c.place.systemData);
    ResendDelivers(d, entered, env.(inBubble := true));
  }

  lemma ExpiredDelivers(d: StaticData, c: Client, env: Env)
    requires Delivering(c.lanes)
    ensures Delivering(StateExpired(d, c, env).lanes)
  {
    hide SetBallPark, WarpIn, ExecuteJump, ExecuteDriveJump, ExecuteWormholeJump, DockToStation;
    match c.move.state
    case Dock => DockDelivers(d, c, env);
    case Undock => BallParkDelivers(d, c, env);
    case Login =>
      var entered := c.(place := c.place.(login := false));
      BallParkDelivers(d, entered, env);
      WarpInDelivers(d, SetBallPark(d, entered, env), env);
    case Jump => ExecuteDelivers(d, c, env);
    case DriveJump => ExecuteDelivers(d, c, env);
    case WormholeJump => ExecuteDelivers(d, c, env);
    case _ =>
  }

  lemma TickDelivers(d: StaticData, c: Client, env: Env, stateFires: bool, ballparkFires: bool)
    requires Delivering(c.lanes)
    ensures Delivering(Tick(d, c, env, stateFires, ballparkFires).lanes)
  {
    hide SetBallPark, StateExpired;
    if !Docked(d, c) && c.place.shipInSpace {
      var quiet := c.(move := c.move.(ballparkTimer := false));
      BallParkDelivers(d, quiet, env);
      var parked := if c.move.ballparkTimer && ballparkFires then SetBallPark(d, quiet, env) else c;
      ExpiredDelivers(d, parked.(move := parked.move.(stateTimer := false)), env);
    }
  }

  /** Operations on the lanes themselves. */
  lemma LaneStepDelivers(d: StaticData, c: Client, op: Op)
    requires Delivering(c.lanes) && (op.Offer? || op.OfferEvent? || op.Flush? || op.DeclareState?)
    ensures Delivering(ClientStep(d, c, op).lanes)
  {
    match op
    case Offer(u, doPackage, isSetState) =>
      StepDelivers(c.lanes, DestinyLanes.Offer(Docked(d, c), u, doPackage, isSetState));
    case OfferEvent(u) => StepDelivers(c.lanes, DestinyLanes.OfferEvent(u));
    case Flush => StepDelivers(c.lanes, DestinyLanes.Flush(Docked(d, c)));
    case DeclareState(sent) => StateDelivers(c, sent);
  }

  lemma PoddedDelivers(d: StaticData, c: Client, env: Env, pod: nat, clone: nat)
    requires Delivering(c.lanes)
    ensures Delivering(AfterPodded(d, c, env, pod, clone).lanes)
  {
    hide MoveToLocation;
    MoveDelivers(d, Podding(d, c, pod), env, clone);
  }

  /** Operations after which the lanes are as they were. */
  predicate LeavesLanes(op: Op) {
    op.RequestDrive? || op.RequestDock? || op.ChooseDock? || op.UndockOver? || op.BoardInSpace?
    || op.BoardInHangar? || op.SetAutopilot? || op.SessionTimer? || op.Share?
  }

  lemma LanesLeft(d: StaticData, c: Client, op: Op)
    requires LeavesLanes(op)
    ensures ClientStep(d, c, op).lanes == c.lanes
  {
  }

  lemma ClientStepDelivers(d: StaticData, c: Client, op: Op)
    requires Delivering(c.lanes) && !op.RequestWormhole? && !op.Passing?
    ensures Delivering(ClientStep(d, c, op).lanes)
  {
    hide SetBallPark, StargateJump, UndockFromStation, MoveToLocation, SendSetState, Resend, AfterPodded, AfterPopped;
    match op
    case RequestGate(gate, env) => GateDelivers(d, c, env, gate);
    case Beyonce(env) => BallParkDelivers(d, c.(place := c.place.(beyonce := true)), env);
    case WarpDone(env) =>
      SendSetStateDelivers(d, if c.move.state == LoginWarp then c.(move := c.move.(state := Idle)) else c, env);
    case LeaveStation(env) => UndockDelivers(d, c, env);
    case RequestState(env) => ResendDelivers(d, c, env);
    case Popped(pod, now) => PoppedDelivers(d, c, pod, now);
    case Podded(pod, clone, env) => PoddedDelivers(d, c, env, pod, clone);
    case Relocate(location, env) => MoveDelivers(d, c, env, location);
    case Offer(_, _, _) => LaneStepDelivers(d, c, op);
    case OfferEvent(_) => LaneStepDelivers(d, c, op);
    case Flush => LaneStepDelivers(d, c, op);
    case DeclareState(_) => LaneStepDelivers(d, c, op);
    case _ => LanesLeft(d, c, op);
  }

  lemma PoppedDelivers(d: StaticData, c: Client, pod: nat, now: int)
    requires Delivering(c.lanes)
    ensures Delivering(AfterPopped(d, c, pod, now).lanes)
  {
    ResetDelivers(c.lanes, c.lanes.(bubbleWait := false));
  }

  /** Conservation, order and readable heads, over every run of every client. */
  lemma {:induction false} Delivery(d: StaticData, j: Joint, ops: seq<Op>)
    requires Delivering(j.client.lanes)
    ensures var l := Run(d, j, ops).client.lanes; DestinyLanes.Accounted(l) && DestinyLanes.AllReadable(l)
  {
    hide ClientStep, Tick;
    if ops != [] {
      var front, op := ops[..|ops| - 1], ops[|ops| - 1];
      Delivery(d, j, front);
      var before := Run(d, j, front);
      assert Delivering(before.client.lanes);
      if op.Passing? {
        TickDelivers(d, before.client, op.env, op.stateFires, op.ballparkFires);
      } else if !op.RequestWormhole? {
        ClientStepDelivers(d, before.client, op);
      }
      assert Delivering(Step(d, before, op).client.lanes);
    }
  }
}
