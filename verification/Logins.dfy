/** A character chosen: the session of its database row, and where client, character and ship
    are then. */
module Logins {
  import opened Session
  import opened SessionReplica
  import opened ClientState
  import opened SessionKeys
  import opened Arrivals
  import Requests

  /** The keys of the place, from a database row. */
  function RowPlace(d: StaticData, row: Row): map<Key, Val> {
    if row.station in d.stations then
      var station := Int(row.station);
      map[SolarSystemId := None, ShipId := None, StationId := station, StationId2 := station,
          LocationId := station, WorldspaceId := station]
    else
      map[StationId := None, StationId2 := None, WorldspaceId := None, ShipId := Int(row.ship),
          SolarSystemId := Int(row.system), LocationId := Int(row.system)]
  }

  lemma SixLeft(before: Writes, k0: Key, v0: Val, k1: Key, v1: Val, k2: Key, v2: Val, k3: Key, v3: Val,
                k4: Key, v4: Val, k5: Key, v5: Val)
    ensures Left(Write(Write(Write(Write(Write(Write(before, k0, v0), k1, v1), k2, v2), k3, v3), k4, v4), k5, v5))
            == Left(before)[k0 := v0][k1 := v1][k2 := v2][k3 := v3][k4 := v4][k5 := v5]
  {
    hide Left;
    var w1 := Write(Write(before, k0, v0), k1, v1);
    var w3 := Write(Write(w1, k2, v2), k3, v3);
    LeftWrite(w1.before);
    LeftWrite(w1);
    LeftWrite(w3.before);
    LeftWrite(w3);
    LeftWrite(Write(w3, k4, v4));
    LeftWrite(Write(Write(w3, k4, v4), k5, v5));
  }

  lemma PlaceLeftBehind(d: StaticData, row: Row)
    ensures Left(InitWrites(d, row)) == Left(ProfileWrites(row)) + RowPlace(d, row)
  {
    hide Left, ProfileWrites;
    var p := ProfileWrites(row);
    var station := Int(row.station);
    if row.station in d.stations {
      SixLeft(p, SolarSystemId, None, ShipId, None, StationId, station, StationId2, station,
              LocationId, station, WorldspaceId, station);
      StationStored(Left(p), station);
    } else {
      SixLeft(p, StationId, None, StationId2, None, WorldspaceId, None, ShipId, Int(row.ship),
              SolarSystemId, Int(row.system), LocationId, Int(row.system));
      SpaceStored(Left(p), Int(row.system), Int(row.ship));
    }
  }

  lemma StationStored(m: map<Key, Val>, v: Val)
    ensures m[SolarSystemId := None][ShipId := None][StationId := v][StationId2 := v][LocationId := v][WorldspaceId := v]
            == m + map[SolarSystemId := None, ShipId := None, StationId := v, StationId2 := v, LocationId := v, WorldspaceId := v]
  {
  }

  lemma SpaceStored(m: map<Key, Val>, v: Val, ship: Val)
    ensures m[StationId := None][StationId2 := None][WorldspaceId := None][ShipId := ship][SolarSystemId := v][LocationId := v]
            == m + map[StationId := None, StationId2 := None, WorldspaceId := None, ShipId := ship,
                       SolarSystemId := v, LocationId := v]
  {
  }

  /** What a row leaves of the names and of the system. */
  lemma ProfileLeft(row: Row)
    ensures var m := Left(ProfileWrites(row));
            && m.Keys >= {SolarSystemId2, ConstellationId, RegionId}
            && m[SolarSystemId2] == Int(row.system) && m[ConstellationId] == Int(row.constellation)
            && m[RegionId] == Int(row.region)
            && (forall name :: Requests.Names(row.identity + row.corporation, name) ==>
                  Named(name) in m && m[Named(name)] == Requests.LastOf(row.identity + row.corporation, name))
            && forall k: Key :: k in m && k !in {SolarSystemId2, ConstellationId, RegionId} ==>
                 k.Named? && Requests.Names(row.identity + row.corporation, k.name)
  {
    hide SharedWrites, Requests.LastOf, Requests.Names;
    var i := SharedWrites(Done, row.identity);
    var s := Write(Write(Write(i, SolarSystemId2, Int(row.system)), ConstellationId, Int(row.constellation)),
                   RegionId, Int(row.region));
    assert Left(s) == Left(i)[SolarSystemId2 := Int(row.system)][ConstellationId := Int(row.constellation)]
                        [RegionId := Int(row.region)] by {
      LeftWrite(s);
      LeftWrite(s.before);
      LeftWrite(s.before.before);
    }
    hide Left;
    Requests.SharedLeft(row.identity, Done);
    Requests.SharedLeft(row.corporation, s);
    forall name
      ensures Requests.Names(row.identity + row.corporation, name)
              <==> Requests.Names(row.identity, name) || Requests.Names(row.corporation, name)
      ensures Requests.Names(row.corporation, name) ==>
                Requests.LastOf(row.identity + row.corporation, name) == Requests.LastOf(row.corporation, name)
      ensures !Requests.Names(row.corporation, name) && Requests.Names(row.identity, name) ==>
                Requests.LastOf(row.identity + row.corporation, name) == Requests.LastOf(row.identity, name)
    {
      LastOfBoth(row.identity, row.corporation, name);
    }
    NothingLeft();
  }

  lemma NothingLeft()
    ensures Left(Done) == map[]
  {
  }

  lemma {:induction false} LastOfBoth(first: seq<(string, Val)>, second: seq<(string, Val)>, name: string)
    ensures Requests.Names(first + second, name) <==> Requests.Names(first, name) || Requests.Names(second, name)
    ensures Requests.Names(second, name) ==> Requests.LastOf(first + second, name) == Requests.LastOf(second, name)
    ensures !Requests.Names(second, name) && Requests.Names(first, name) ==>
              Requests.LastOf(first + second, name) == Requests.LastOf(first, name)
    decreases |second|
  {
    if second == [] {
      assert first + second == first;
      assert !Requests.Names(second, name);
    } else {
      var all, front := first + second, second[..|second| - 1];
      assert all[..|all| - 1] == first + front;
      LastOfBoth(first, front, name);
      Requests.NamesLast(all, name);
      Requests.NamesLast(second, name);
    }
  }

  /** The session of a row holds its place, its system and its named values, the last of a
      name; nothing is sent yet, and the other keys stay. */
  lemma SessionInited(d: StaticData, c: Client, row: Row)
    ensures var r := InitSession(d, c, row);
            var s, values := r.link.store, row.identity + row.corporation;
            && r.link.sent == c.link.sent && r.move == c.move && r.lanes == c.lanes
            && (Orderly(d, c.link) ==> Orderly(d, r.link))
            && (if row.station in d.stations then ShowsStation(d, s, row.station) else ShowsSpace(d, s, row.system, row.ship))
            && Shows(d, s, SolarSystemId2, Int(row.system)) && Shows(d, s, ConstellationId, Int(row.constellation))
            && Shows(d, s, RegionId, Int(row.region))
            && (forall name :: Requests.Names(values, name) ==> Shows(d, s, Named(name), Requests.LastOf(values, name)))
            && forall k: Key :: Elsewhere(k) && !(k.Named? && Requests.Names(values, k.name)) ==>
                 Current(s, k) == Current(c.link.store, k)
  {
    hide SetAll, InitWrites, ProfileWrites, Left, Shows, Requests.Names, Requests.LastOf, Orderly, Current;
    var w := InitWrites(d, row);
    StoresKeepOrder(d, c.link, w);
    LeftShows(d, c.link, w);
    PlaceLeftBehind(d, row);
    ProfileLeft(row);
    var m := Left(w);
    assert StationId in m && StationId2 in m && WorldspaceId in m && LocationId in m && SolarSystemId in m && ShipId in m;
    assert SolarSystemId2 in m && ConstellationId in m && RegionId in m;
    assert forall name :: Requests.Names(row.identity + row.corporation, name) ==> Named(name) in m;
  }

  lemma StoresKeepOrder(d: StaticData, l: Link, w: Writes)
    ensures SetAll(d.hash, l, w).sent == l.sent
    ensures Orderly(d, l) ==> Orderly(d, SetAll(d.hash, l, w))
  {
    hide SetAll;
    StoresSendNothing(d.hash, l, w);
  }

  /** Where a row puts the client. */
  lemma RowPlaced(d: StaticData, c: Client, row: Row)
    requires row.station in d.stations || row.system in d.systems
    ensures var p := InitSession(d, c, row).place;
            var location := if row.station in d.stations then row.station else row.system;
            p == c.place.(location := location, ship := row.ship, systemData := SettledAt(d, c.place, location).systemData)
  {
    Disjoint(d, row.station);
    Disjoint(d, row.system);
  }

  /** A character chosen, whose system boots: client, character and ship settle at the place
      of the row; the client is up to date, shown the place and the named values; and its
      login timer runs. */
  lemma Selected(d: StaticData, c: Client, env: Env, row: Row)
    requires Orderly(d, c.link) && env.boots && c.place.login && c.move.state == Idle
    requires row.station in d.stations || row.system in d.systems
    ensures var r, values := SelectCharacter(d, c, env, row), row.identity + row.corporation;
            var location := if row.station in d.stations then row.station else row.system;
            && r.place == SettledAt(d, c.place, location).(ship := row.ship)
            && r.move == (if c.move.stateTimer then c.move else c.move.(state := State.Login, stateTimer := true))
            && r.lanes == c.lanes.(bubbleWait := location in d.stations,
                                   setStateSent := c.lanes.setStateSent && location in d.stations)
            && UpToDate(r.link) && ShowsClient(d, r.link.store, r.place, env.now)
            && (forall name :: Requests.Names(values, name) ==>
                  Shows(d, r.link.store, Named(name), Requests.LastOf(values, name)))
  {
    hide InitSession, MoveToLocation, UpToDate, ShowsClient, Shows, Requests.Names, Requests.LastOf, Orderly, Current;
    SessionInited(d, c, row);
    RowPlaced(d, c, row);
    var location := if row.station in d.stations then row.station else row.system;
    Disjoint(d, location);
    var known := InitSession(d, c, row);
    var loaded := known.(place := known.place.(system := To(known.place.systemData),
                                               charStation := row.station, charSystem := row.system));
    MoveSettles(d, loaded, env, location);
    var there := MoveToLocation(d, loaded, env, location);
    NamesKept(d, loaded.link.store, there.link.store, row.identity + row.corporation);
  }

  lemma NamesKept(d: StaticData, s: Store, t: Store, values: seq<(string, Val)>)
    requires SameElsewhere(s, t)
    requires forall name :: Requests.Names(values, name) ==> Shows(d, s, Named(name), Requests.LastOf(values, name))
    ensures forall name :: Requests.Names(values, name) ==> Shows(d, t, Named(name), Requests.LastOf(values, name))
  {
    hide Current, Requests.Names, Requests.LastOf;
  }

  /** One whose system does not boot, or whose place is unknown, has its session set up and is
      not placed. */
  lemma NotSelected(d: StaticData, c: Client, env: Env, row: Row)
    requires InitSession(d, c, row).place.systemData !in d.systems || !env.boots
    ensures SelectCharacter(d, c, env, row) == InitSession(d, c, row)
  {
    hide InitSession;
  }
}
