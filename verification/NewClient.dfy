/** Every connection starts where the theorems about runs start. */
module NewClient {
  import opened SessionReplica
  import opened ClientState
  import JumpTargets
  import ClientDelivery
  import FullStateFirst
  import LocationRuns
  import DestinyLanes
  import Session

  /** A new client is logging in, idle with no timer running, nowhere and without a ship. */
  lemma StartsIdle()
    ensures var m, p := NEW_CLIENT.move, NEW_CLIENT.place;
            && m.state == Idle && !m.stateTimer && !m.ballparkTimer && m.point == NULL_ORIGIN && m.system == m.wormhole == 0
            && p.login && !p.undock && !p.beyonce && !p.autopilot && !p.apRetry && !p.shipInSpace
            && p.system == Null && p.location == p.charStation == p.charSystem == p.ship == 0
    ensures NEW_CLIENT.link == Link(Session.DEFAULTS, []) && NEW_CLIENT.lanes == DestinyLanes.FRESH
  {
  }

  /** A new client has no jump to honour, nothing in its lanes and nothing sent; once the
      initial session state is out it is ready for a character. */
  lemma StartsRight(d: StaticData)
    ensures JumpTargets.OnTarget(NEW_CLIENT.move)
    ensures ClientDelivery.Delivering(NEW_CLIENT.lanes)
    ensures FullStateFirst.StateFirst(NEW_CLIENT.lanes.history) && FullStateFirst.Based(d, NEW_CLIENT.place)
    ensures LocationRuns.Connected(d, NEW_CLIENT.(link := SendInitialStatus(NEW_CLIENT.link)))
  {
    DefaultsWellFlagged(d.hash);
    WellFlaggedSettled(d.hash, NEW_CLIENT.link.store);
    InSyncInitial(NEW_CLIENT.link);
  }
}
