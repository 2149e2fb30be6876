/** What the session says of a client after it was updated, key by key, for every client and
    every hash. A store of a value over one of the same hash is lost, so a key shows a value
    when what it holds hashes alike. */
module SessionKeys {
  import opened Session
  import opened SessionReplica
  import opened ClientState

  predicate Shows(d: StaticData, s: Store, k: Key, v: Val) {
    d.hash(Current(s, k)) == d.hash(v)
  }

  /** Ten million file times are a second. */
  const SECOND := 10_000_000

  /** What a list of stores leaves in the keys it writes: the last value of each. */
  function Left(w: Writes): map<Key, Val> {
    match w
    case Done => map[]
    case Write(before, k, v) => Left(before)[k := v]
  }

  lemma {:induction false} LeftShows(d: StaticData, l: Link, w: Writes)
    ensures var s := SetAll(d.hash, l, w).store;
            && (forall k :: k in Left(w) ==> Shows(d, s, k, Left(w)[k]))
            && forall k :: k !in Left(w) ==> Current(s, k) == Current(l.store, k)
  {
    hide Session.Set;
    if w.Write? {
      LeftShows(d, l, w.before);
      var m := SetAll(d.hash, l, w.before);
      OneShows(d, m, w.k, w.v);
    }
  }

  lemma OneShows(d: StaticData, l: Link, k: Key, v: Val)
    ensures var s := SetIn(d.hash, l, k, v).store;
            Shows(d, s, k, v) && forall j :: j != k ==> Current(s, j) == Current(l.store, j)
  {
    StoreTakesEffect(d.hash, l.store, k, v);
  }

  lemma {:induction false} StoresSendNothing(h: Hash, l: Link, w: Writes)
    ensures SetAll(h, l, w).sent == l.sent
    ensures WellFlagged(h, l.store) ==> WellFlagged(h, SetAll(h, l, w).store)
    ensures InSync(l) ==> InSync(SetAll(h, l, w))
  {
    if w.Write? {
      StoresSendNothing(h, l, w.before);
      var m := SetAll(h, l, w.before);
      if WellFlagged(h, l.store) {
        WellFlaggedSet(h, m.store, w.k, w.v);
      }
      if InSync(l) {
        InSyncSet(h, m, w.k, w.v);
      }
    }
  }

  /** What a client at a station, or in space with a ship, is to be shown. */
  predicate ShowsStation(d: StaticData, s: Store, station: nat) {
    && Shows(d, s, StationId, Int(station)) && Shows(d, s, StationId2, Int(station))
    && Shows(d, s, WorldspaceId, Int(station)) && Shows(d, s, LocationId, Int(station))
    && Shows(d, s, SolarSystemId, None) && Shows(d, s, ShipId, None)
  }

  predicate ShowsSpace(d: StaticData, s: Store, system: nat, ship: nat) {
    && Shows(d, s, StationId, None) && Shows(d, s, StationId2, None) && Shows(d, s, WorldspaceId, None)
    && Shows(d, s, LocationId, Int(system)) && Shows(d, s, SolarSystemId, Int(system))
    && Shows(d, s, ShipId, Int(ship))
  }

  predicate ShowsSystem(d: StaticData, s: Store, system: nat) {
    && Shows(d, s, SolarSystemId2, Int(system))
    && (system in d.systems ==>
          Shows(d, s, ConstellationId, Int(d.systems[system].constellation))
          && Shows(d, s, RegionId, Int(d.systems[system].region)))
  }

  /** Keys that updates of the location leave alone. */
  predicate Elsewhere(k: Key) {
    k !in {StationId, StationId2, WorldspaceId, LocationId, SolarSystemId, SolarSystemId2, ShipId,
           ConstellationId, RegionId, Autopilot, NextSessionChange}
  }

  lemma StationLeft(station: nat)
    ensures Left(StationWrites(station))
            == map[SolarSystemId := None, ShipId := None, StationId := Int(station), StationId2 := Int(station),
                   WorldspaceId := Int(station), LocationId := Int(station)]
  {
    var w := StationWrites(station);
    assert Left(w.before.before.before.before) == map[SolarSystemId := None, ShipId := None];
    assert Left(w.before.before)
           == map[SolarSystemId := None, ShipId := None, StationId := Int(station), StationId2 := Int(station)];
  }

  lemma SpaceLeft(system: nat, ship: nat)
    ensures Left(SpaceWrites(system, ship))
            == map[StationId := None, StationId2 := None, WorldspaceId := None, SolarSystemId := Int(system),
                   LocationId := Int(system), ShipId := Int(ship)]
  {
    var w := SpaceWrites(system, ship);
    assert Left(w.before.before.before.before) == map[StationId := None, StationId2 := None];
    assert Left(w.before.before)
           == map[StationId := None, StationId2 := None, WorldspaceId := None, SolarSystemId := Int(system)];
  }

  /** The keys of an update besides those of the place. */
  function AlsoTold(d: StaticData, p: Place, now: int): map<Key, Val> {
    map[SolarSystemId2 := Int(p.charSystem),
        ConstellationId := Int(if p.charSystem in d.systems then d.systems[p.charSystem].constellation else 0),
        RegionId := Int(if p.charSystem in d.systems then d.systems[p.charSystem].region else 0),
        Session.Autopilot := Int(if p.autopilot then 1 else 0),
        NextSessionChange := Long(now + 20 * SECOND)]
  }

  lemma SystemLeft(d: StaticData, before: Writes, p: Place, now: int)
    ensures Left(SystemWrites(d, before, p, now)) == Left(before) + AlsoTold(d, p, now)
  {
    hide Left;
    var w := SystemWrites(d, before, p, now);
    LeftWrite(w);
    LeftWrite(w.before);
    LeftWrite(w.before.before);
    LeftWrite(w.before.before.before);
    LeftWrite(w.before.before.before.before);
    FiveStored(Left(before), Int(p.charSystem), Int(DataOf(d, p.charSystem).constellation),
               Int(DataOf(d, p.charSystem).region), w.before.v, w.v);
  }

  lemma LeftWrite(w: Writes)
    requires w.Write?
    ensures Left(w) == Left(w.before)[w.k := w.v]
  {
  }

  lemma FiveStored(m: map<Key, Val>, a: Val, b: Val, c: Val, e: Val, f: Val)
    ensures m[SolarSystemId2 := a][ConstellationId := b][RegionId := c][Session.Autopilot := e][NextSessionChange := f]
            == m + map[SolarSystemId2 := a, ConstellationId := b, RegionId := c, Session.Autopilot := e, NextSessionChange := f]
  {
  }

  /** A store that shows all values of a map. */
  predicate ShowsAll(d: StaticData, s: Store, m: map<Key, Val>) {
    forall k :: k in m ==> Shows(d, s, k, m[k])
  }

  lemma ShowsOne(d: StaticData, s: Store, m: map<Key, Val>, k: Key)
    requires ShowsAll(d, s, m) && k in m
    ensures Shows(d, s, k, m[k])
  {
  }

  lemma AlsoShown(d: StaticData, s: Store, p: Place, now: int, before: map<Key, Val>)
    requires ShowsAll(d, s, before + AlsoTold(d, p, now))
    ensures ShowsSystem(d, s, p.charSystem)
    ensures Shows(d, s, Session.Autopilot, Int(if p.autopilot then 1 else 0))
    ensures Shows(d, s, NextSessionChange, Long(now + 20 * SECOND))
  {
    hide ShowsAll, Shows;
    var m := before + AlsoTold(d, p, now);
    ShowsOne(d, s, m, SolarSystemId2);
    ShowsOne(d, s, m, ConstellationId);
    ShowsOne(d, s, m, RegionId);
    ShowsOne(d, s, m, Session.Autopilot);
    ShowsOne(d, s, m, NextSessionChange);
  }

  /** The keys of the place, as they are at a station or in space. */
  function PlaceTold(d: StaticData, p: Place): map<Key, Val> {
    if p.charStation in d.stations then
      var station := Int(p.charStation);
      map[SolarSystemId := None, ShipId := None, StationId := station, StationId2 := station,
          WorldspaceId := station, LocationId := station]
    else
      map[StationId := None, StationId2 := None, WorldspaceId := None, SolarSystemId := Int(p.charSystem),
          LocationId := Int(p.charSystem), ShipId := Int(p.ship)]
  }

  lemma PlaceLeft(d: StaticData, p: Place)
    ensures Left(PlaceWrites(d, p)) == PlaceTold(d, p)
  {
    hide StationWrites, SpaceWrites;
    StationLeft(p.charStation);
    SpaceLeft(p.charSystem, p.ship);
  }

  lemma PlaceShown(d: StaticData, s: Store, p: Place, now: int)
    requires ShowsAll(d, s, PlaceTold(d, p) + AlsoTold(d, p, now))
    ensures if p.charStation in d.stations then ShowsStation(d, s, p.charStation)
            else ShowsSpace(d, s, p.charSystem, p.ship)
  {
    hide ShowsAll, Shows;
    var m := PlaceTold(d, p) + AlsoTold(d, p, now);
    ShowsOne(d, s, m, StationId);
    ShowsOne(d, s, m, StationId2);
    ShowsOne(d, s, m, WorldspaceId);
    ShowsOne(d, s, m, LocationId);
    ShowsOne(d, s, m, SolarSystemId);
    ShowsOne(d, s, m, ShipId);
  }

  /** All that an update tells of a client. */
  predicate ShowsClient(d: StaticData, s: Store, p: Place, now: int) {
    && (if p.charStation in d.stations then ShowsStation(d, s, p.charStation)
        else ShowsSpace(d, s, p.charSystem, p.ship))
    && ShowsSystem(d, s, p.charSystem)
    && Shows(d, s, Session.Autopilot, Int(if p.autopilot then 1 else 0))
    && Shows(d, s, NextSessionChange, Long(now + 20 * SECOND))
  }

  ghost predicate SameElsewhere(s: Store, t: Store) {
    forall k :: Elsewhere(k) ==> Current(t, k) == Current(s, k)
  }

  /** An update tells all of the client, and leaves the other keys. */
  lemma UpdatedShows(d: StaticData, c: Client, now: int)
    ensures var r := UpdateSession(d, c, now);
            && r == c.(link := r.link) && r.link.sent == c.link.sent
            && ShowsClient(d, r.link.store, c.place, now) && SameElsewhere(c.link.store, r.link.store)
  {
    hide SetAll, PlaceWrites, SystemWrites, Shows, ShowsAll, AlsoTold, PlaceTold, ShowsSystem, ShowsStation, ShowsSpace,
         Left, SameElsewhere;
    var p := c.place;
    var w := SystemWrites(d, PlaceWrites(d, p), p, now);
    var s := UpdateSession(d, c, now).link.store;
    StoresSendNothing(d.hash, c.link, w);
    SystemLeft(d, PlaceWrites(d, p), p, now);
    PlaceLeft(d, p);
    AllLeft(d, c.link, w);
    AlsoShown(d, s, p, now, PlaceTold(d, p));
    PlaceShown(d, s, p, now);
    UpdatedElsewhere(d, c.link, p, now);
  }

  lemma AllLeft(d: StaticData, l: Link, w: Writes)
    ensures ShowsAll(d, SetAll(d.hash, l, w).store, Left(w))
  {
    hide SetAll, Shows;
    LeftShows(d, l, w);
  }

  lemma UpdatedElsewhere(d: StaticData, l: Link, p: Place, now: int)
    ensures SameElsewhere(l.store, SetAll(d.hash, l, SystemWrites(d, PlaceWrites(d, p), p, now)).store)
  {
    hide SetAll, PlaceWrites, SystemWrites, Left;
    var w := SystemWrites(d, PlaceWrites(d, p), p, now);
    LeftShows(d, l, w);
    SystemLeft(d, PlaceWrites(d, p), p, now);
    PlaceLeft(d, p);
    KeysLeft(d, p, now);
  }

  lemma KeysLeft(d: StaticData, p: Place, now: int)
    ensures forall k :: k in PlaceTold(d, p) + AlsoTold(d, p, now) ==> !Elsewhere(k)
  {
  }

  /** The session timer's time is told, and nothing else changes. */
  lemma TimerShown(d: StaticData, c: Client, time: int)
    ensures var r := SetSessionTimer(d, c, time);
            && r == c.(link := r.link) && r.link.sent == c.link.sent
            && Shows(d, r.link.store, NextSessionChange, Long(time + 20 * SECOND))
            && forall k :: k != NextSessionChange ==> Lookup(r.link.store, k) == Lookup(c.link.store, k)
  {
    StoreTakesEffect(d.hash, c.link.store, NextSessionChange, Long(time + NEXT_CHANGE));
  }

  /** A client whose replica is in order, so that a flush brings it up to date. */
  ghost predicate Orderly(d: StaticData, l: Link) {
    WellFlagged(d.hash, l.store) && InSync(l)
  }

  /** The client has all that the server holds. */
  ghost predicate UpToDate(l: Link) {
    && !l.store.dirty
    && forall k :: k != ClientID && k != SessionID && k != Sid ==> Held(l.sent, k) == Current(l.store, k)
  }

  /** A flush brings the client up to date, and changes nothing of the server's values. */
  lemma FlushShown(d: StaticData, c: Client)
    requires Orderly(d, c.link) && c.place.location != 0
    ensures var r := SendSessionChange(d, c);
            && r == c.(link := r.link)
            && Orderly(d, r.link) && UpToDate(r.link)
            && forall k :: Current(r.link.store, k) == Current(c.link.store, k)
  {
    hide Changes;
    var l := c.link;
    SameValuesFlush(l);
    InSyncChanges(d.hash, l);
    WellFlaggedSettled(d.hash, l.store);
    CleanInSync(d.hash, if l.store.dirty then SendChanges(l) else l);
  }

  /** A client without a location is first given that of its character, and told it. */
  lemma FlushPlaces(d: StaticData, c: Client)
    requires Orderly(d, c.link) && c.place.location == 0 && c.link.store.dirty
    ensures var r := SendSessionChange(d, c);
            var location := if c.place.charStation in d.stations then c.place.charStation else c.place.systemData;
            && r.place == c.place.(location := location) && r.move == c.move && r.lanes == c.lanes
            && Shows(d, r.link.store, LocationId, Int(location)) && UpToDate(r.link)
  {
    hide Changes, Session.Set;
    var location := if c.place.charStation in d.stations then c.place.charStation else c.place.systemData;
    var l := SetIn(d.hash, c.link, LocationId, Int(location));
    OneShows(d, c.link, LocationId, Int(location));
    WellFlaggedSet(d.hash, c.link.store, LocationId, Int(location));
    InSyncSet(d.hash, c.link, LocationId, Int(location));
    SameValuesFlush(l);
    InSyncChanges(d.hash, l);
    WellFlaggedSettled(d.hash, l.store);
    CleanInSync(d.hash, SendChanges(l));
  }
}
