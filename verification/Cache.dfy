// The on-disk result cache: what one run loads, serves, records and saves, and what that
// comes to over any sequence of runs.
module ResultCache {
  import opened Model

  const SchemaVersion: int := 1

  datatype Entry = Entry(statusCode: int, state: LinkState, checkedAt: int)

  datatype File = File(schema: int, fingerprint: string, entries: map<string, Entry>)

  // The in-memory store of one run.
  datatype Store = Store(entries: map<string, Entry>, ttl: int, enabled: bool, fingerprint: string)

  // A 4xx status that is worth keeping: not 408 Request Timeout, 425 Too Early or
  // 429 Too Many Requests.
  predicate StableClientError(code: int) {
    400 <= code < 500 && code !in {408, 425, 429}
  }

  predicate Definitive(r: Result) {
    r.err.None? && (r.state.StateAlive? || (r.state.StateDead? && StableClientError(r.statusCode)))
  }

  function EntryFor(r: Result, now: int): Entry {
    Entry(r.statusCode, r.state, now)
  }

  // The file is there, readable, of this schema and made under the same request policy.
  predicate Usable(disk: Option<File>, enabled: bool, fingerprint: string) {
    enabled && disk.Some? && disk.value.schema == SchemaVersion && disk.value.fingerprint == fingerprint
  }

  function Load(disk: Option<File>, ttl: int, enabled: bool, fingerprint: string): Store {
    if Usable(disk, enabled, fingerprint)
    then Store(disk.value.entries, ttl, enabled, fingerprint)
    else Store(map[], ttl, enabled, fingerprint)
  }

  function Lookup(st: Store, key: string, now: int): Option<Entry> {
    if st.enabled && key in st.entries && now - st.entries[key].checkedAt < st.ttl
    then Some(st.entries[key])
    else None
  }

  function Record(st: Store, key: string, r: Result, now: int): Store {
    if st.enabled && Definitive(r)
    then st.(entries := st.entries[key := EntryFor(r, now)])
    else st
  }

  // What Save leaves on disk; a disabled cache leaves the disk alone.
  function Saved(st: Store, disk: Option<File>): Option<File> {
    if st.enabled then Some(File(SchemaVersion, st.fingerprint, st.entries)) else disk
  }

  class Cache {
    var entries: map<string, Entry>
    const ttl: int
    const enabled: bool
    const fingerprint: string

    ghost function View(): Store
      reads this
    {
      Store(entries, ttl, enabled, fingerprint)
    }

    constructor (disk: Option<File>, ttl: int, enabled: bool, fingerprint: string)
      ensures View() == Load(disk, ttl, enabled, fingerprint)
      ensures this.ttl == ttl && this.enabled == enabled && this.fingerprint == fingerprint
      ensures entries == if enabled && disk.Some? && disk.value.schema == 1 && disk.value.fingerprint == fingerprint
                         then disk.value.entries else map[]
    {
      this.ttl, this.enabled, this.fingerprint := ttl, enabled, fingerprint;
      entries := map[];
      new;
      if enabled {
        if disk.Some? && disk.value.schema == SchemaVersion && disk.value.fingerprint == fingerprint {
          entries := disk.value.entries;
        }
      }
    }

    method Get(key: string, now: int) returns (hit: Option<Entry>)
      ensures hit == Lookup(View(), key, now)
      ensures hit.Some? <==> enabled && key in entries && now - entries[key].checkedAt < ttl
      ensures hit.Some? ==> hit.value == entries[key]
    {
      hit := None;
      if enabled {
        if key in entries && !(now - entries[key].checkedAt >= ttl) {
          hit := Some(entries[key]);
        }
      }
    }

    // An error-free result is kept when it is alive, whatever its code, or dead with a 4xx
    // that is not 408, 425 or 429; any other leaves the entries as they were.
    method Put(key: string, r: Result, now: int)
      modifies this
      ensures View() == Record(old(View()), key, r, now)
      ensures
        var keeps := r.err == None && (r.state == StateAlive ||
                     (r.state == StateDead && 400 <= r.statusCode <= 499 && r.statusCode != 408 && r.statusCode != 425 && r.statusCode != 429));
        entries == if enabled && keeps then old(entries)[key := Entry(r.statusCode, r.state, now)] else old(entries)
    {
      if !enabled || !Definitive(r) {
        return;
      }
      entries := entries[key := Entry(r.statusCode, r.state, now)];
    }

    // The entries are copied one by one under the lock and written after it.
    method Save(disk: Option<File>) returns (disk': Option<File>)
      ensures disk' == Saved(View(), disk)
      ensures disk' == if enabled then Some(File(1, fingerprint, entries)) else disk
    {
      if !enabled {
        return disk;
      }
      var snapshot: map<string, Entry> := map[];
      var keys := entries.Keys;
      while keys != {}
        invariant keys <= entries.Keys
        invariant snapshot == map k | k in entries.Keys - keys :: entries[k]
        decreases |keys|
      {
        var k :| k in keys;
        snapshot := snapshot[k := entries[k]];
        keys := keys - {k};
      }
      assert snapshot == entries;
      disk' := Some(File(SchemaVersion, fingerprint, snapshot));
    }
  }
}
