/** The client object put through whole runs: what is proved of runs holds of the object. */
module ClientService {
  import opened ClientState
  import opened ClientRuns
  import opened LocationView
  import ClientDelivery
  import ClientObject
  import DestinyLanes
  import FullStateFirst
  import JumpTargets
  import LocationRuns
  import NewClient
  import SessionReplica

  /** What the client does to its queue alone. */
  method PerformQueue(c: ClientObject.Client, op: Op)
    requires op.Offer? || op.OfferEvent? || op.Flush? || op.DeclareState?
    modifies c.queue
    ensures c.Abs() == ClientStep(c.data, old(c.Abs()), op)
  {
    hide DestinyLanes.QueueUpdate, DestinyLanes.QueueEvent, DestinyLanes.FlushQueue, DestinyLanes.SetStateSent;
    match op {
      case Offer(update, doPackage, isSetState) =>
        c.queue.QueueDestinyUpdate(IsStation(c.data, c.place.location), update, doPackage, isSetState);
      case OfferEvent(event) => c.queue.QueueDestinyEvent(event);
      case Flush => c.queue.FlushQueue(IsStation(c.data, c.place.location));
      case DeclareState(isSent) => c.queue.SetStateSent(isSent);
    }
  }

  /** New ships, a death, and what changes the session alone. */
  method PerformShip(c: ClientObject.Client, op: Op)
    requires c.Valid()
    requires op.BoardInSpace? || op.BoardInHangar? || op.Popped? || op.Podded? || op.SessionTimer? || op.Share?
    modifies c, c.session, c.queue
    ensures c.Abs() == ClientStep(c.data, old(c.Abs()), op)
  {
    hide ClientRuns.Board, ClientRuns.BoardShip, AfterPopped, AfterPodded, ClientState.SetSessionTimer, ShareValues;
    match op {
      case BoardInSpace(ship, now) => c.Board(ship, now);
      case BoardInHangar(ship, now) => c.BoardShip(ship, now);
      case Popped(pod, now) => c.ResetAfterPopped(pod, now);
      case Podded(pod, clone, env) => c.ResetAfterPodded(env, pod, clone);
      case SessionTimer(now) => c.SetSessionTimer(now);
      case Share(values, send) => c.UpdateShared(values, send);
    }
  }

  /** Requests, and the other ways in which the client moves. */
  method PerformMove(c: ClientObject.Client, op: Op)
    requires c.Valid()
    requires op.RequestGate? || op.RequestDrive? || op.RequestDock? || op.ChooseDock? || op.Beyonce? || op.WarpDone?
             || op.LeaveStation? || op.UndockOver? || op.RequestState? || op.Relocate? || op.SetAutopilot?
    modifies c, c.session, c.queue
    ensures c.Abs() == ClientStep(c.data, old(c.Abs()), op)
  {
    hide ClientState.StargateJump, ClientState.CynoJump, ClientState.BindBeyonce, LoginWarpComplete,
         ClientState.UndockFromStation, StateRequested, ClientState.MoveToLocation, ClientState.SetStateTimer;
    match op {
      case RequestGate(gate, env) => c.StargateJump(env, gate);
      case RequestDrive(system, landing) => c.CynoJump(system, landing);
      case RequestDock(delay) => c.RequestDock(delay);
      case ChooseDock(station) => c.SetDockStation(station);
      case Beyonce(env) => c.BindBeyonce(env);
      case WarpDone(env) => c.SetLoginWarpComplete(env);
      case LeaveStation(env) => c.UndockFromStation(env);
      case UndockOver => c.SetUndock(false);
      case RequestState(env) => c.RequestState(env);
      case Relocate(location, env) => c.MoveToLocation(env, location);
      case SetAutopilot(on) => c.SetAutoPilot(on);
    }
  }

  /** One operation on the object is one step of a run. */
  method Perform(c: ClientObject.Client, op: Op)
    requires c.Valid()
    modifies c, c.session, c.queue, c.items
    ensures Joint(c.Abs(), c.items.Contents()) == Step(c.data, Joint(old(c.Abs()), old(c.items.Contents())), op)
  {
    hide ClientStep, TickAll, RequestWormholeJump;
    match op {
      case RequestWormhole(hole, shipMass, spawn, offset) => c.WormholeJump(hole, shipMass, spawn, offset);
      case Passing(env, stateFires, ballparkFires, shipMass) =>
        c.ProcessClient(env, stateFires, ballparkFires, shipMass);
      case Offer(_, _, _) => PerformQueue(c, op);
      case OfferEvent(_) => PerformQueue(c, op);
      case Flush => PerformQueue(c, op);
      case DeclareState(_) => PerformQueue(c, op);
      case BoardInSpace(_, _) => PerformShip(c, op);
      case BoardInHangar(_, _) => PerformShip(c, op);
      case Popped(_, _) => PerformShip(c, op);
      case Podded(_, _, _) => PerformShip(c, op);
      case SessionTimer(_) => PerformShip(c, op);
      case Share(_, _) => PerformShip(c, op);
      case _ => PerformMove(c, op);
    }
  }

  /** Any sequence of operations on the object is a run. */
  method PerformAll(c: ClientObject.Client, ops: seq<Op>)
    requires c.Valid()
    modifies c, c.session, c.queue, c.items
    ensures Joint(c.Abs(), c.items.Contents()) == Run(c.data, Joint(old(c.Abs()), old(c.items.Contents())), ops)
  {
    hide Step;
    var i := 0;
    while i < |ops|
      invariant i <= |ops|
      invariant Joint(c.Abs(), c.items.Contents()) == Run(c.data, Joint(old(c.Abs()), old(c.items.Contents())), ops[..i])
    {
      Perform(c, ops[i]);
      assert ops[..i + 1][..i] == ops[..i];
      i := i + 1;
    }
    assert ops[..i] == ops;
  }

  /** A connection from its start: a client object is made, told the initial session, given a
      character, and put through any operations. Whatever they are, its jumps go where they
      were accepted for, its updates are all accounted for and readable; held-back updates
      come behind a full state if no operation breaks that order; and the client is shown
      where its character is, if none mixes its view. */
  method Serve(data: StaticData, items: ClientObject.ItemRegistry, env: Env, row: Row, ops: seq<Op>)
    returns (c: ClientObject.Client)
    requires PlacesHashApart(data) && LocationRuns.Consistent(data, row) && env.boots
    requires forall op :: op in ops ==> LocationRuns.Usual(data, op) && FullStateFirst.Ordinary(op)
    modifies items
    ensures fresh(c) && c.Valid() && c.data == data && c.items == items
    ensures var start := Joint(Chosen(data, env, row), old(items.Contents()));
            && Joint(c.Abs(), items.Contents()) == Run(data, start, ops)
            && (FullStateFirst.NeverBreaks(data, start, ops) ==> FullStateFirst.StateFirst(c.queue.history))
            && (LocationRuns.NeverMixes(data, start, ops) ==>
                  && AllShaped(c.sent, 1)
                  && ShowsCharacter(data, c.place, ServerView(c.session.Contents())))
    ensures JumpTargets.OnTarget(c.move) && JumpTargets.EveryMoveAsAccepted(c.move.trace)
    ensures DestinyLanes.Accounted(c.queue.LanesOf()) && DestinyLanes.AllReadable(c.queue.LanesOf())
  {
    hide ClientState.SelectCharacter, Run, JumpTargets.OnTarget, JumpTargets.EveryMoveAsAccepted, AllShaped,
         DestinyLanes.Accounted, DestinyLanes.AllReadable, ShowsCharacter, FullStateFirst.StateFirst,
         FullStateFirst.NeverBreaks, LocationRuns.NeverMixes, SessionReplica.Held, ServerView;
    c := new ClientObject.Client(data, items);
    c.SendInitialSessionStatus();
    c.SelectCharacter(env, row);
    PerformAll(c, ops);
    RunKeeps(data, env, row, old(items.Contents()), ops);
  }

  /** A new client with its initial session, given a character. */
  function Chosen(d: StaticData, env: Env, row: Row): Client {
    ClientState.SelectCharacter(d, NEW_CLIENT.(link := SessionReplica.SendInitialStatus(NEW_CLIENT.link)), env, row)
  }

  lemma ChosenStart(d: StaticData, env: Env, row: Row)
    requires PlacesHashApart(d) && LocationRuns.Consistent(d, row) && env.boots
    ensures var c := Chosen(d, env, row);
            && JumpTargets.OnTarget(c.move) && ClientDelivery.Delivering(c.lanes) && FullStateFirst.InOrder(d, c)
  {
    hide ClientState.MoveToLocation;
    NewClient.StartsRight(d);
    var known := NEW_CLIENT.(link := SessionReplica.SendInitialStatus(NEW_CLIENT.link));
    var session := ClientState.InitSession(d, known, row);
    var loaded := session.(place := session.place.(system := To(session.place.systemData),
                                                   charStation := row.station, charSystem := row.system));
    JumpTargets.MoveKept(d, loaded, env, loaded.place.location);
    ClientDelivery.MoveDelivers(d, loaded, env, loaded.place.location);
    assert d.stations.Keys !! d.systems.Keys;
    assert loaded.place.systemData in d.systems.Keys;
    FullStateFirst.MoveInOrder(d, loaded, env, loaded.place.location);
  }

  lemma RunKeeps(d: StaticData, env: Env, row: Row, holes: Holes, ops: seq<Op>)
    requires PlacesHashApart(d) && LocationRuns.Consistent(d, row) && env.boots
    requires forall op :: op in ops ==> LocationRuns.Usual(d, op) && FullStateFirst.Ordinary(op)
    ensures var start := Joint(Chosen(d, env, row), holes);
            var c := Run(d, start, ops).client;
            && JumpTargets.OnTarget(c.move) && JumpTargets.EveryMoveAsAccepted(c.move.trace)
            && DestinyLanes.Accounted(c.lanes) && DestinyLanes.AllReadable(c.lanes)
            && (FullStateFirst.NeverBreaks(d, start, ops) ==> FullStateFirst.StateFirst(c.lanes.history))
            && (LocationRuns.NeverMixes(d, start, ops) ==>
                  AllShaped(c.link.sent, 1) && ShowsCharacter(d, c.place, ServerView(c.link.store)))
  {
    hide ClientState.SelectCharacter, Run, JumpTargets.OnTarget, JumpTargets.EveryMoveAsAccepted, AllShaped,
         DestinyLanes.Accounted, DestinyLanes.AllReadable, ShowsCharacter, FullStateFirst.StateFirst,
         FullStateFirst.NeverBreaks, LocationRuns.NeverMixes, SessionReplica.Held, ServerView;
    var start := Joint(Chosen(d, env, row), holes);
    var known := NEW_CLIENT.(link := SessionReplica.SendInitialStatus(NEW_CLIENT.link));
    NewClient.StartsRight(d);
    ChosenStart(d, env, row);
    JumpTargets.JumpTargets(d, start, ops);
    JumpTargets.MovedAsAccepted(d, start, ops);
    ClientDelivery.Delivery(d, start, ops);
    if FullStateFirst.NeverBreaks(d, start, ops) {
      FullStateFirst.HeldBackBehindState(d, start, ops);
    }
    if LocationRuns.NeverMixes(d, start, ops) {
      LocationRuns.AtomicView(d, known, env, row, holes, ops);
    }
  }
}
