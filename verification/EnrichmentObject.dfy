/** The enrichment service as an object: the two critical sections on its key map, each proved to be an
    action of the state machine whose state the object's fields represent. */
module EnrichmentObject {
  import opened Common
  import opened SingleFlight

  /** tokens is what the key's channel of capacity one holds. */
  class EnrichmentKey {
    ghost const handle: Handle
    const ip: Ip
    var tokens: nat
    var refs: int

    constructor (ip: Ip, ghost handle: Handle)
      ensures this.handle == handle && this.ip == ip && tokens == 1 && refs == 1
    {
      this.handle, this.ip, tokens, refs := handle, ip, 1, 1;
    }

    ghost predicate Represents(key: Key)
      reads this
    {
      ip == key.ip && tokens == key.tokens && refs == key.refs
    }
  }

  class Service {
    var keys: map<Ip, EnrichmentKey>
    ghost var state: State

    /** The key is the machine's key of its handle, and the only such object the map may hold. */
    ghost predicate Known(key: EnrichmentKey)
      reads this, key
    {
      && key.handle in state.heap && key.Represents(state.heap[key.handle])
      && (key.ip in keys && keys[key.ip].handle == key.handle ==> keys[key.ip] == key)
    }

    /** The map holds the objects of the machine's keys. */
    ghost predicate Valid()
      reads this, keys.Values
    {
      && keys.Keys == state.keys.Keys
      && (forall ip | ip in keys ::
            && keys[ip].ip == ip && keys[ip].handle == state.keys[ip]
            && state.keys[ip] in state.heap && keys[ip].Represents(state.heap[state.keys[ip]]))
      && (forall k | k in state.heap :: k < state.next)
    }

    constructor (ghost s: State)
      requires Init(s)
      ensures Valid() && state == s
    {
      keys, state := map[], s;
    }

    /** The start of acquireKey: one more reference to the address's key, which is made if need be. */
    method TakeReference(ip: Ip, ghost t: Handle) returns (key: EnrichmentKey)
      requires Valid() && t in state.calls && state.calls[t].ip == ip
      modifies `keys, `state, (if ip in keys then {keys[ip]} else {})`refs
      ensures Valid() && Known(key)
      ensures state == Reference(old(state), t)
      ensures t in state.calls && state.calls[t].pc == WaitToken(key.handle)
    {
      if ip in keys {
        key := keys[ip];
        key.refs := key.refs + 1;
      } else {
        key := new EnrichmentKey(ip, state.next);
        keys := keys[ip := key];
      }
      state := Reference(state, t);
    }

    /** releaseKeyReference: the last reference takes the key out of the map, if it is still the one there. */
    method ReleaseKeyReference(key: EnrichmentKey, ghost t: Handle)
      requires Valid() && Known(key) && t in state.calls && state.calls[t].ip == key.ip
      modifies `keys, `state, key`refs
      ensures Valid() && Known(key)
      ensures state == Dereference(old(state), t, key.handle)
    {
      assert forall ip | ip in keys && ip != key.ip :: keys[ip] != key && keys[ip].handle != key.handle;
      key.refs := key.refs - 1;
      if key.refs == 0 && key.ip in keys && keys[key.ip] == key {
        keys := keys - {key.ip};
      }
      state := Dereference(state, t, key.handle);
    }
  }
}
