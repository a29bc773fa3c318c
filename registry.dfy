/**
 * The registry of named queues (`queuesSync`): a map from queue name to the
 * payloads waiting in that queue, oldest first. Each method runs under the
 * registry's or the queue's lock in the original, so each is one atomic step.
 */
module QueueRegistry {

  /** The abstract contents of the registry: each known name with its FIFO of payloads. */
  type Contents = map<string, seq<string>>

  /** The payloads waiting under `name`; a name never created has none. */
  function QueueOf(qs: Contents, name: string): seq<string> {
    if name in qs then qs[name] else []
  }

  class QueuesSync {
    var m: Contents

    constructor ()
      ensures m == map[]
    {
      m := map[];
    }

    /** `get`: a lookup that never creates an entry. */
    method Get(key: string) returns (q: seq<string>, ok: bool)
      ensures ok <==> key in m
      ensures ok ==> q == m[key]
      ensures !ok ==> q == []
    {
      ok := key in m;
      q := if ok then m[key] else [];
    }

    /** `put`: binds `key` to `value`, replacing any earlier entry, and touches no other key. */
    method Put(key: string, value: seq<string>)
      modifies this
      ensures m == old(m)[key := value]
    {
      m := m[key := value];
    }

    /** `PushBack` on the list of an existing queue: `v` becomes its newest payload. */
    method PushBack(key: string, v: string)
      requires key in m
      modifies this
      ensures m == old(m)[key := old(m)[key] + [v]]
    {
      m := m[key := m[key] + [v]];
    }

    /** `Front` then `Remove`: takes the oldest payload of a non-empty queue. */
    method PopFront(key: string) returns (v: string)
      requires key in m && m[key] != []
      modifies this
      ensures m == old(m)[key := old(m)[key][1..]]
      ensures [v] + m[key] == old(m)[key]
    {
      v := m[key][0];
      m := m[key := m[key][1..]];
    }
  }

  /** After `put(k, value)`, `get(k)` answers `(value, true)` and a lookup of any other key is as before. */
  method PutThenGet(queues: QueuesSync, key: string, value: seq<string>, other: string)
    returns (q: seq<string>, ok: bool, otherBefore: seq<string>, okBefore: bool, otherAfter: seq<string>, okAfter: bool)
    requires other != key
    modifies queues
    ensures q == value && ok
    ensures otherAfter == otherBefore && okAfter == okBefore
  {
    otherBefore, okBefore := queues.Get(other);
    queues.Put(key, value);
    q, ok := queues.Get(key);
    otherAfter, okAfter := queues.Get(other);
  }
}
