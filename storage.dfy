/** opinion-hub-frontend/hooks/useInMemoryStorage.tsx: a key-value store kept in
    memory, used where a browser would otherwise persist decryption
    signatures. `set` writes into the previous `Map` in place and then stores
    a copy of it; `remove` deletes from a copy; `clear` starts afresh. The
    model keeps the contents as a `map` field the methods reassign, and
    reads see every earlier write (React's re-render between a write and
    the next read is assumed). */
module Storage {
  import opened Base

  class InMemoryStorage<V> {
    var data: map<string, V>

    /** An empty store (line 13). */
    constructor ()
      ensures data == map[]
    {
      data := map[];
    }

    /** `get(key)`: the stored value, or `undefined` (here `None`). */
    function Get(key: string): (r: Option<V>)
      reads this
      ensures r.Some? <==> key in data
      ensures r.Some? ==> r.value == data[key]
    {
      if key in data then Some(data[key]) else None
    }

    /** `set(key, value)`: adds or overwrites one entry. */
    method Set(key: string, value: V)
      modifies this
      ensures data == old(data)[key := value]
    {
      data := data[key := value];
    }

    /** `remove(key)`: drops one entry; a missing key changes nothing. */
    method Remove(key: string)
      modifies this
      ensures data == old(data) - {key}
    {
      data := data - {key};
    }

    /** `clear()`: forgets everything. */
    method Clear()
      modifies this
      ensures data == map[]
    {
      data := map[];
    }
  }

  /** The store's laws, on its contents: a read after a write returns what
      was written, writes to other keys leave a key's value alone, a read
      after a removal finds nothing, and removing a key that was never
      written is a no-op. */
  lemma StoreLaws<V>(data: map<string, V>, key: string, other: string, value: V)
    ensures key in data[key := value] && data[key := value][key] == value
    ensures other != key ==> (other in data[key := value] <==> other in data)
    ensures other != key && other in data ==> data[key := value][other] == data[other]
    ensures key !in data - {key}
    ensures key !in data ==> data - {key} == data
    ensures (data[key := value] - {key}) == data - {key}
  {
  }

  /** Writing a value and reading it back gives the value; removing a key
      and reading it gives nothing; a cleared store holds nothing. */
  method RoundTrip<V>(s: InMemoryStorage<V>, key: string, value: V) returns (afterSet: Option<V>, afterRemove: Option<V>)
    modifies s
    ensures afterSet == Some(value)
    ensures afterRemove == None
    ensures s.data == old(s.data) - {key}
  {
    s.Set(key, value);
    afterSet := s.Get(key);
    s.Remove(key);
    afterRemove := s.Get(key);
  }
}
