/** Per-plugin key-value storage of `internal/manager/storage.go`: a map from
    plugin ID to that plugin's map from key to bytes. `MemoryStorage` keeps it
    in memory only; `FileStorage` also writes a plugin's map to disk after
    each change, which the model records as a list of disk operations whose
    outcomes are given. */
module Storage {
  import opened Wrappers
  import opened Text
  import opened Errors

  type Store = map<string, map<string, Bytes>>

  // ---------------------------------------------------------------------------
  // The map effects, as functions on values

  /** What `Get` finds: the value when both the plugin and the key are present. */
  function Lookup(d: Store, pluginId: string, key: string): Option<Bytes> {
    if pluginId in d && key in d[pluginId] then Some(d[pluginId][key]) else None
  }

  /** A plugin's map, or an empty one when it has none yet. */
  function PluginData(d: Store, pluginId: string): map<string, Bytes> {
    if pluginId in d then d[pluginId] else map[]
  }

  /** The effect of `Set`: creates the plugin's map if needed, then sets the key. */
  function Stored(d: Store, pluginId: string, key: string, value: Bytes): (r: Store)
    ensures Lookup(r, pluginId, key) == Some(value)
    ensures r.Keys == d.Keys + {pluginId}
  {
    d[pluginId := PluginData(d, pluginId)[key := value]]
  }

  /** The effect of `Delete`: removes the key from the plugin's map, if the plugin has one. */
  function Deleted(d: Store, pluginId: string, key: string): (r: Store)
    ensures Lookup(r, pluginId, key) == None
    ensures r.Keys == d.Keys
  {
    if pluginId in d then d[pluginId := d[pluginId] - {key}] else d
  }

  /** The effect of `Clear`: drops the plugin's whole map. */
  function Cleared(d: Store, pluginId: string): (r: Store)
    ensures forall key :: Lookup(r, pluginId, key) == None
    ensures r.Keys == d.Keys - {pluginId}
  {
    d - {pluginId}
  }

  /** `Set` changes no other (plugin, key) entry. */
  lemma StoredFrame(d: Store, pluginId: string, key: string, value: Bytes, p: string, k: string)
    requires p != pluginId || k != key
    ensures Lookup(Stored(d, pluginId, key, value), p, k) == Lookup(d, p, k)
  {
  }

  /** `Delete` changes no other (plugin, key) entry, and is a no-op when the
      plugin or the key is absent. */
  lemma DeletedFrame(d: Store, pluginId: string, key: string, p: string, k: string)
    requires p != pluginId || k != key
    ensures Lookup(Deleted(d, pluginId, key), p, k) == Lookup(d, p, k)
  {
  }

  lemma DeletedAbsent(d: Store, pluginId: string, key: string)
    requires Lookup(d, pluginId, key) == None
    ensures Deleted(d, pluginId, key) == d
  {
    if pluginId in d {
      assert d[pluginId] - {key} == d[pluginId];
    }
  }

  /** `Clear` leaves every other plugin's data as it was. */
  lemma ClearedFrame(d: Store, pluginId: string, p: string, k: string)
    requires p != pluginId
    ensures Lookup(Cleared(d, pluginId), p, k) == Lookup(d, p, k)
  {
  }

  /** Setting a key and deleting it again leaves the plugin's other keys, and
      every other plugin, as they were. */
  lemma SetThenDelete(d: Store, pluginId: string, key: string, value: Bytes, p: string, k: string)
    ensures Lookup(Deleted(Stored(d, pluginId, key, value), pluginId, key), p, k)
         == if p == pluginId && k == key then None else Lookup(d, p, k)
  {
  }

  // ---------------------------------------------------------------------------
  // The in-memory store

  class MemoryStorage {
    var data: Store

    /** `NewMemoryStorage`. */
    constructor ()
      ensures data == map[]
    {
      data := map[];
    }

    /** `Get`: the value and whether it exists; an absent plugin or key gives
        no value, `false` and no error. */
    method Get(pluginId: string, key: string) returns (value: Bytes, found: bool, err: Outcome<Error>)
      ensures found <==> Lookup(data, pluginId, key).Some?
      ensures found ==> value == Lookup(data, pluginId, key).value
      ensures !found ==> value == []
      ensures err == Pass
    {
      if pluginId in data {
        var pluginData := data[pluginId];
        if key in pluginData {
          return pluginData[key], true, Pass;
        }
        return [], false, Pass;
      }
      return [], false, Pass;
    }

    method Set(pluginId: string, key: string, value: Bytes) returns (err: Outcome<Error>)
      modifies this
      ensures data == Stored(old(data), pluginId, key, value)
      ensures err == Pass
    {
      var pluginData := if pluginId in data then data[pluginId] else map[];
      data := data[pluginId := pluginData[key := value]];
      return Pass;
    }

    method Delete(pluginId: string, key: string) returns (err: Outcome<Error>)
      modifies this
      ensures data == Deleted(old(data), pluginId, key)
      ensures err == Pass
    {
      if pluginId in data {
        data := data[pluginId := data[pluginId] - {key}];
      }
      return Pass;
    }

    method Clear(pluginId: string) returns (err: Outcome<Error>)
      modifies this
      ensures data == Cleared(old(data), pluginId)
      ensures err == Pass
    {
      data := data - {pluginId};
      return Pass;
    }

    method Close() returns (err: Outcome<Error>)
      ensures err == Pass
    {
      return Pass;
    }
  }

  // ---------------------------------------------------------------------------
  // The file-backed store

  /** A write to disk: one plugin's whole map, or removal of its directory. */
  datatype DiskOp = Persist(pluginId: string, contents: map<string, Bytes>) | RemoveAll(pluginId: string)

  class FileStorage {
    const basePath: string
    var data: Store
    /** The disk operations issued so far, oldest first. */
    var diskOps: seq<DiskOp>

    /** `NewFileStorage` on a directory with no stored data. */
    constructor (basePath: string)
      ensures this.basePath == basePath && data == map[] && diskOps == []
    {
      this.basePath := basePath;
      data := map[];
      diskOps := [];
    }

    method Get(pluginId: string, key: string) returns (value: Bytes, found: bool, err: Outcome<Error>)
      ensures found <==> Lookup(data, pluginId, key).Some?
      ensures found ==> value == Lookup(data, pluginId, key).value
      ensures !found ==> value == []
      ensures err == Pass
    {
      if pluginId in data {
        var pluginData := data[pluginId];
        if key in pluginData {
          return pluginData[key], true, Pass;
        }
        return [], false, Pass;
      }
      return [], false, Pass;
    }

    /** `Set`: the memory map changes first; then the plugin's map is written,
        and the outcome of that write (`persisted`) is the result. */
    method Set(pluginId: string, key: string, value: Bytes, persisted: Outcome<Error>) returns (err: Outcome<Error>)
      modifies this
      ensures data == Stored(old(data), pluginId, key, value)
      ensures diskOps == old(diskOps) + [Persist(pluginId, data[pluginId])]
      ensures err == persisted
    {
      var pluginData := if pluginId in data then data[pluginId] else map[];
      data := data[pluginId := pluginData[key := value]];
      diskOps := diskOps + [Persist(pluginId, data[pluginId])];
      return persisted;
    }

    /** `Delete` writes to disk only when the plugin already had data. */
    method Delete(pluginId: string, key: string, persisted: Outcome<Error>) returns (err: Outcome<Error>)
      modifies this
      ensures data == Deleted(old(data), pluginId, key)
      ensures pluginId in old(data) ==> diskOps == old(diskOps) + [Persist(pluginId, data[pluginId])] && err == persisted
      ensures pluginId !in old(data) ==> diskOps == old(diskOps) && err == Pass
    {
      if pluginId in data {
        data := data[pluginId := data[pluginId] - {key}];
        diskOps := diskOps + [Persist(pluginId, data[pluginId])];
        return persisted;
      }
      return Pass;
    }

    /** `Clear` drops the map and removes the plugin's directory; `removed` is
        the outcome of that removal. */
    method Clear(pluginId: string, removed: Outcome<Error>) returns (err: Outcome<Error>)
      modifies this
      ensures data == Cleared(old(data), pluginId)
      ensures diskOps == old(diskOps) + [RemoveAll(pluginId)]
      ensures err == removed
    {
      data := data - {pluginId};
      diskOps := diskOps + [RemoveAll(pluginId)];
      return removed;
    }
  }
}
