/** The session variables of one client: what the server stores, what it puts on the
    wire, and what a client that applies the wire traffic holds. */
module Session {

  datatype Val = None | Int(i: int) | Long(l: int) | Str(s: string) | Float(f: real)

  /** The names the model speaks of; every other name is Named. */
  datatype Key =
    | ClientID | SessionID | Sid
    | StationId | StationId2 | WorldspaceId | LocationId | SolarSystemId | SolarSystemId2 | ShipId
    | ConstellationId | RegionId | Autopilot | NextSessionChange
    | Role | UserId | Address
    | Named(name: string)

  /** Names that never go through the wire. */
  predicate Persisted(k: Key) {
    k != ClientID && k != SessionID && k != Sid
  }

  datatype Entry = Entry(last: Val, cur: Val, changed: bool)

  datatype Delta = Delta(last: Val, cur: Val)

  datatype Store = Store(entries: map<Key, Entry>, dirty: bool)

  datatype Packet = InitialState(values: map<Key, Val>) | SessionChange(changes: map<Key, Delta>)

  /** Values are compared by hash, so the hash function is a parameter. */
  type Hash = Val -> int

  const BLANK := Entry(None, None, false)

  function Lookup(s: Store, k: Key): Entry {
    if k in s.entries then s.entries[k] else BLANK
  }

  function Current(s: Store, k: Key): Val {
    Lookup(s, k).cur
  }

  predicate Flagged(s: Store, k: Key) {
    Lookup(s, k).changed
  }

  /** Storing a value: only a value whose hash differs replaces the current one. */
  function Set(h: Hash, s: Store, k: Key, v: Val): Store {
    var e := Lookup(s, k);
    if h(v) != h(e.cur) then
      Store(s.entries[k := Entry(e.cur, v, true)], true)
    else
      Store(s.entries[k := e], s.dirty)
  }

  function Settled(entries: map<Key, Entry>): map<Key, Entry> {
    map k | k in entries :: entries[k].(changed := false)
  }

  function Changes(s: Store): map<Key, Delta> {
    if s.dirty then
      map k | k in s.entries && s.entries[k].changed && Persisted(k) :: Delta(s.entries[k].last, s.entries[k].cur)
    else
      map[]
  }

  function AfterChanges(s: Store): Store {
    if s.dirty then Store(Settled(s.entries), false) else s
  }

  function InitialValues(s: Store): map<Key, Val> {
    map k | k in s.entries && Persisted(k) :: s.entries[k].cur
  }

  function AfterInitial(s: Store): Store {
    Store(Settled(s.entries), false)
  }

  /** The player and newbie role bits. */
  const DEFAULT_ROLE := 2305843009213693952 + 576460752303423488

  const DEFAULTS: Store := Store(
    map[Role := Entry(None, Long(DEFAULT_ROLE), false),
        UserId := Entry(None, Int(0), false),
        Address := Entry(None, Str("0.0.0.0"), false)],
    false)

  /** The store with its dictionary of triples updated in place. */
  class ClientSession {
    const hash: Hash
    var entries: map<Key, Entry>
    var dirty: bool

    constructor (hash: Hash)
      ensures this.hash == hash && Contents() == DEFAULTS
    {
      this.hash := hash;
      entries := map[Role := Entry(None, Long(DEFAULT_ROLE), false),
                     UserId := Entry(None, Int(0), false),
                     Address := Entry(None, Str("0.0.0.0"), false)];
      dirty := false;
    }

    function Contents(): Store
      reads this
    {
      Store(entries, dirty)
    }

    method SetValue(k: Key, v: Val)
      modifies this
      ensures Contents() == Set(hash, old(Contents()), k, v)
    {
      if k !in entries {
        entries := entries[k := BLANK];
      }
      var current := entries[k].cur;
      if hash(v) != hash(current) {
        var tuple := entries[k];
        tuple := tuple.(last := current);
        tuple := tuple.(cur := v);
        tuple := tuple.(changed := true);
        entries := entries[k := tuple];
        dirty := true;
      }
    }

    method Clear(k: Key)
      modifies this
      ensures Contents() == Set(hash, old(Contents()), k, None)
    {
      SetValue(k, None);
    }

    method HasValue(k: Key) returns (has: bool)
      ensures has == (Current(Contents(), k) != None)
    {
      if k !in entries {
        return false;
      }
      has := entries[k].cur != None;
    }

    /** The keys are visited in the dictionary's own order, so in any order. */
    method EncodeChanges() returns (into: map<Key, Delta>)
      modifies this
      ensures into == Changes(old(Contents()))
      ensures Contents() == AfterChanges(old(Contents()))
    {
      into := map[];
      if !dirty {
        return;
      }
      ghost var before := entries;
      var todo := entries.Keys;
      while todo != {}
        invariant dirty && todo <= before.Keys
        invariant Visited(before, todo, entries)
        invariant forall k :: k in into <==> k in before && k !in todo && before[k].changed && Persisted(k)
        invariant forall k :: k in into ==> into[k] == Delta(before[k].last, before[k].cur)
        decreases |todo|
      {
        var k :| k in todo;
        todo := todo - {k};
        var value := entries[k];
        if value.changed {
          entries := entries[k := value.(changed := false)];
          if Persisted(k) {
            into := into[k := Delta(value.last, value.cur)];
          }
        }
      }
      assert entries == Settled(before);
      dirty := false;
    }

    method EncodeInitialState() returns (into: map<Key, Val>)
      modifies this
      ensures into == InitialValues(old(Contents()))
      ensures Contents() == AfterInitial(old(Contents()))
    {
      into := map[];
      ghost var before := entries;
      var todo := entries.Keys;
      while todo != {}
        invariant todo <= before.Keys
        invariant Visited(before, todo, entries)
        invariant forall k :: k in into <==> k in before && k !in todo && Persisted(k)
        invariant forall k :: k in into ==> into[k] == before[k].cur
        decreases |todo|
      {
        var k :| k in todo;
        todo := todo - {k};
        var value := entries[k];
        entries := entries[k := value.(changed := false)];
        if Persisted(k) {
          into := into[k := value.cur];
        }
      }
      assert entries == Settled(before);
      dirty := false;
    }
  }

  /** A pass over the dictionary has cleared the flags of all keys but those to do. */
  ghost predicate Visited(before: map<Key, Entry>, todo: set<Key>, entries: map<Key, Entry>) {
    && entries.Keys == before.Keys
    && forall k :: k in before ==> entries[k] == if k in todo then before[k] else before[k].(changed := false)
  }
}
