/** What the client is told of its location: every view it ever holds is that of a docked
    client or that of one in space, never a mixture. */
module LocationView {
  import opened Session
  import opened SessionReplica
  import opened ClientState

  datatype View = View(station: Val, station2: Val, worldspace: Val, location: Val,
                       system: Val, system2: Val, ship: Val)

  function ServerView(s: Store): View {
    View(Current(s, StationId), Current(s, StationId2), Current(s, WorldspaceId), Current(s, LocationId),
         Current(s, SolarSystemId), Current(s, SolarSystemId2), Current(s, ShipId))
  }

  function ClientView(sent: seq<Packet>): View {
    View(Held(sent, StationId), Held(sent, StationId2), Held(sent, WorldspaceId), Held(sent, LocationId),
         Held(sent, SolarSystemId), Held(sent, SolarSystemId2), Held(sent, ShipId))
  }

  predicate StationShaped(v: View) {
    && v.station.Int? && v.station == v.station2 == v.worldspace == v.location
    && v.system == None && v.ship == None
  }

  predicate SpaceShaped(v: View) {
    && v.system.Int? && v.system == v.system2 == v.location
    && v.station == None && v.station2 == None && v.worldspace == None
  }

  predicate Shaped(v: View) {
    StationShaped(v) || SpaceShaped(v)
  }

  /** The view after the first i packets. */
  function ViewAt(sent: seq<Packet>, i: nat): View
    requires i <= |sent|
  {
    ClientView(sent[..i])
  }

  /** Every view the client has held since the n-th packet. */
  ghost predicate AllShaped(sent: seq<Packet>, n: nat) {
    forall i {:trigger ViewAt(sent, i)} :: n < i <= |sent| ==> Shaped(ViewAt(sent, i))
  }

  // --------------------------------------------------------------- telling hashes

  /** Integers hash as the code has it, and None does not hash as a station or system. */
  ghost predicate PlacesHashApart(d: StaticData) {
    && (forall n :: d.hash(Int(n)) == IntHash(n))
    && d.hash(None) !in d.stations && d.hash(None) !in d.systems
  }

  /** An item number that None does not hash as. */
  predicate HashesApart(d: StaticData, id: nat) {
    d.hash(None) != id
  }

  predicate Known(d: StaticData, v: Val) {
    v == None || (v.Int? && v.i >= 0 && d.hash(None) != v.i)
  }

  predicate KnownView(d: StaticData, v: View) {
    && Known(d, v.station) && Known(d, v.station2) && Known(d, v.worldspace) && Known(d, v.location)
    && Known(d, v.system) && Known(d, v.system2) && Known(d, v.ship)
  }

  function With(view: View, k: Key, v: Val): View {
    View(if k == StationId then v else view.station,
         if k == StationId2 then v else view.station2,
         if k == WorldspaceId then v else view.worldspace,
         if k == LocationId then v else view.location,
         if k == SolarSystemId then v else view.system,
         if k == SolarSystemId2 then v else view.system2,
         if k == ShipId then v else view.ship)
  }

  predicate OfLocation(k: Key) {
    k == StationId || k == StationId2 || k == WorldspaceId || k == LocationId
    || k == SolarSystemId || k == SolarSystemId2 || k == ShipId
  }

  function Overlaid(view: View, w: Writes): View {
    match w
    case Done => view
    case Write(before, k, v) => With(Overlaid(view, before), k, v)
  }

  /** All stores to keys of the location are of known values. */
  predicate KnownWrites(d: StaticData, w: Writes) {
    match w
    case Done => true
    case Write(before, k, v) => KnownWrites(d, before) && (OfLocation(k) ==> Known(d, v))
  }

  lemma SetOne(d: StaticData, l: Link, k: Key, v: Val, j: Key)
    requires PlacesHashApart(d) && (j == k ==> Known(d, Current(l.store, k)) && Known(d, v))
    ensures Current(SetIn(d.hash, l, k, v).store, j) == if j == k then v else Current(l.store, j)
  {
  }

  /** Storing a known value over known ones takes effect. */
  lemma SetKnown(d: StaticData, l: Link, k: Key, v: Val)
    requires PlacesHashApart(d) && KnownView(d, ServerView(l.store)) && (OfLocation(k) ==> Known(d, v))
    ensures ServerView(SetIn(d.hash, l, k, v).store) == With(ServerView(l.store), k, v)
  {
    SetOne(d, l, k, v, StationId);
    SetOne(d, l, k, v, StationId2);
    SetOne(d, l, k, v, WorldspaceId);
    SetOne(d, l, k, v, LocationId);
    SetOne(d, l, k, v, SolarSystemId);
    SetOne(d, l, k, v, SolarSystemId2);
    SetOne(d, l, k, v, ShipId);
  }

  lemma {:induction false} SetAllView(d: StaticData, l: Link, w: Writes)
    requires PlacesHashApart(d) && KnownView(d, ServerView(l.store)) && KnownWrites(d, w)
    ensures ServerView(SetAll(d.hash, l, w).store) == Overlaid(ServerView(l.store), w)
    ensures KnownView(d, ServerView(SetAll(d.hash, l, w).store))
  {
    if w.Write? {
      SetAllView(d, l, w.before);
      SetKnown(d, SetAll(d.hash, l, w.before), w.k, w.v);
    }
  }

  lemma {:induction false} SharedView(d: StaticData, view: View, w: Writes, values: seq<(string, Val)>)
    ensures Overlaid(view, SharedWrites(w, values)) == Overlaid(view, w)
    ensures KnownWrites(d, SharedWrites(w, values)) == KnownWrites(d, w)
  {
    if values != [] {
      SharedView(d, view, w, values[..|values| - 1]);
    }
  }

  // ------------------------------------------------------------- telling the place

  lemma StationView(d: StaticData, view: View, station: nat)
    requires PlacesHashApart(d) && IsStation(d, station)
    ensures var w := StationWrites(station);
            && KnownWrites(d, w)
            && Overlaid(view, w) == View(Int(station), Int(station), Int(station), Int(station),
                                         None, view.system2, None)
  {
    var w := StationWrites(station);
    assert Known(d, Int(station));
    assert Overlaid(view, w.before.before.before.before.before) == view.(system := None);
    assert Overlaid(view, w.before.before.before.before) == view.(system := None, ship := None);
    assert Overlaid(view, w.before.before)
           == view.(system := None, ship := None, station := Int(station), station2 := Int(station));
    assert KnownWrites(d, w.before.before.before.before);
    assert KnownWrites(d, w.before.before);
  }

  lemma SpaceView(d: StaticData, view: View, system: nat, ship: nat)
    requires PlacesHashApart(d) && IsSolarSystem(d, system) && HashesApart(d, ship)
    ensures var w := SpaceWrites(system, ship);
            && KnownWrites(d, w)
            && Overlaid(view, w) == View(None, None, None, Int(system), Int(system), view.system2, Int(ship))
  {
    var w := SpaceWrites(system, ship);
    assert Known(d, Int(system)) && Known(d, Int(ship));
    assert Overlaid(view, w.before.before.before.before.before) == view.(station := None);
    assert Overlaid(view, w.before.before.before.before) == view.(station := None, station2 := None);
    assert Overlaid(view, w.before.before)
           == view.(station := None, station2 := None, worldspace := None, system := Int(system));
    assert KnownWrites(d, w.before.before.before.before);
    assert KnownWrites(d, w.before.before);
  }

  lemma SystemView(d: StaticData, view: View, before: Writes, p: Place, now: int)
    requires PlacesHashApart(d) && IsSolarSystem(d, p.charSystem) && KnownWrites(d, before)
    ensures var w := SystemWrites(d, before, p, now);
            && KnownWrites(d, w)
            && Overlaid(view, w) == Overlaid(view, before).(system2 := Int(p.charSystem))
  {
    var w := SystemWrites(d, before, p, now);
    var b := w.before.before.before;
    assert Known(d, Int(p.charSystem));
    assert b == Write(Write(before, SolarSystemId2, Int(p.charSystem)), ConstellationId, b.v);
    assert KnownWrites(d, b.before);
    assert Overlaid(view, b) == Overlaid(view, before).(system2 := Int(p.charSystem));
    assert KnownWrites(d, b);
    assert Overlaid(view, w.before.before) == Overlaid(view, b) && KnownWrites(d, w.before.before);
    assert Overlaid(view, w.before) == Overlaid(view, b) && KnownWrites(d, w.before);
  }

  /** The view of a client where its character is. */
  predicate ShowsCharacter(d: StaticData, p: Place, v: View) {
    if IsStation(d, p.charStation) then
      StationShaped(v) && v.location == Int(p.charStation)
    else
      SpaceShaped(v) && v.location == Int(p.charSystem)
  }

  lemma UpdatedView(d: StaticData, l: Link, p: Place, now: int)
    requires PlacesHashApart(d) && KnownView(d, ServerView(l.store))
    requires IsSolarSystem(d, p.charSystem) && HashesApart(d, p.ship)
    ensures ShowsCharacter(d, p, ServerView(Updated(d, l, p, now).store))
    ensures KnownView(d, ServerView(Updated(d, l, p, now).store))
  {
    var view := ServerView(l.store);
    if IsStation(d, p.charStation) {
      StationView(d, view, p.charStation);
    } else {
      SpaceView(d, view, p.charSystem, p.ship);
    }
    SystemView(d, view, PlaceWrites(d, p), p, now);
    SetAllView(d, l, SystemWrites(d, PlaceWrites(d, p), p, now));
  }

  // ------------------------------------------------------------------- the invariant

  /** The client is somewhere, and so is its character, though perhaps not at the same place. */
  predicate Placed(d: StaticData, p: Place) {
    && (IsStation(d, p.location) || IsSolarSystem(d, p.location))
    && IsSolarSystem(d, p.charSystem) && HashesApart(d, p.ship)
    && (Astray(d, p) ==> p.system == Null)
  }

  /** The location is already a system while the character is still at a station. */
  predicate Astray(d: StaticData, p: Place) {
    IsSolarSystem(d, p.location) && IsStation(d, p.charStation)
  }

  /** The link is in order, apart from what the server's view is. */
  ghost predicate Sane(d: StaticData, l: Link, n: nat) {
    match l
    case Link(store, sent) =>
      && WellFlagged(d.hash, store) && InSync(l) && KnownView(d, ServerView(store))
      && n <= |sent| && AllShaped(sent, n)
  }

  ghost predicate Located(d: StaticData, c: Client, n: nat) {
    match c
    case Client(link, _, _, place) =>
      && PlacesHashApart(d) && Sane(d, link, n)
      && Placed(d, place)
      && ShowsCharacter(d, place, ServerView(link.store))
  }

  lemma FlushView(d: StaticData, l: Link)
    requires WellFlagged(d.hash, l.store) && InSync(l)
    ensures WellFlagged(d.hash, SendChanges(l).store) && InSync(SendChanges(l)) && !SendChanges(l).store.dirty
    ensures ServerView(SendChanges(l).store) == ServerView(l.store) == ClientView(SendChanges(l).sent)
  {
    hide Changes, Settled, Replica;
    InSyncChanges(d.hash, l);
    SameValuesFlush(l);
    WellFlaggedSettled(d.hash, l.store);
    CleanInSync(d.hash, SendChanges(l));
  }

  lemma AppendShaped(sent: seq<Packet>, p: Packet, n: nat)
    requires AllShaped(sent, n) && Shaped(ClientView(sent + [p]))
    ensures AllShaped(sent + [p], n)
  {
    forall i | n < i <= |sent + [p]|
      ensures Shaped(ViewAt(sent + [p], i))
    {
      assert (sent + [p])[..i] == if i <= |sent| then sent[..i] else sent + [p];
      if i <= |sent| {
        assert ViewAt(sent + [p], i) == ViewAt(sent, i);
      }
    }
  }

  /** A flush of a shaped server leaves a shaped client. */
  lemma FlushShaped(d: StaticData, l: Link, n: nat)
    requires Sane(d, l, n) && Shaped(ServerView(l.store))
    ensures Sane(d, SendChanges(l), n) && ServerView(SendChanges(l).store) == ServerView(l.store)
    ensures ClientView(SendChanges(l).sent) == ServerView(l.store)
  {
    FlushView(d, l);
    if SendChanges(l).sent != l.sent {
      AppendShaped(l.sent, SessionChange(Changes(l.store)), n);
    }
  }

  lemma SessionChangeLocated(d: StaticData, c: Client, n: nat)
    requires Located(d, c, n)
    ensures Located(d, SendSessionChange(d, c), n)
    ensures SendSessionChange(d, c).place == c.place
    ensures ClientView(SendSessionChange(d, c).link.sent) == ServerView(c.link.store)
  {
    assert c.place.location != 0;
    if c.link.store.dirty {
      FlushShaped(d, c.link, n);
    } else {
      CleanInSync(d.hash, c.link);
    }
  }

  lemma {:induction false} SaneWrites(d: StaticData, l: Link, n: nat, w: Writes)
    requires PlacesHashApart(d) && Sane(d, l, n) && KnownWrites(d, w)
    ensures Sane(d, SetAll(d.hash, l, w), n)
    ensures ServerView(SetAll(d.hash, l, w).store) == Overlaid(ServerView(l.store), w)
  {
    SetAllView(d, l, w);
    if w.Write? {
      var m := SetAll(d.hash, l, w.before);
      SaneWrites(d, l, n, w.before);
      WellFlaggedSet(d.hash, m.store, w.k, w.v);
      InSyncSet(d.hash, m, w.k, w.v);
    }
  }
}
