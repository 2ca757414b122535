/**
 * The in-memory cache the store writes through to (src/cache/in-memory.ts). Entries are stored
 * without expiry, as the store's are. Beside each value stands a second slot, under the key
 * prefixed with `X-`, that counts the reads.
 */
module Caches {
  import opened Wrappers

  datatype Slot<V> = Value(value: V) | Meta(accessCount: nat)

  function MetaKey(key: string): string {
    "X-" + key
  }

  function Put<V>(mem: map<string, Slot<V>>, key: string, value: V): map<string, Slot<V>> {
    mem[key := Value(value)][MetaKey(key) := Meta(0)]
  }

  function Counted<V>(mem: map<string, Slot<V>>, key: string): map<string, Slot<V>> {
    if MetaKey(key) in mem && mem[MetaKey(key)].Meta? then
      mem[MetaKey(key) := Meta(mem[MetaKey(key)].accessCount + 1)]
    else mem
  }

  function Del<V>(mem: map<string, Slot<V>>, key: string): map<string, Slot<V>> {
    mem - {key, MetaKey(key)}
  }

  /** What `get` answers, when what stands there is a value. */
  function Read<V>(mem: map<string, Slot<V>>, key: string): Option<V> {
    if key in mem && mem[key].Value? then Some(mem[key].value) else None
  }

  lemma MetaKeyIsAnother(key: string)
    ensures MetaKey(key) != key
  {
    assert |MetaKey(key)| == |key| + 2;
  }

  /** The last put of a key is what is read; other keys are left alone, except the read counter's. */
  lemma LastPutIsRead<V>(mem: map<string, Slot<V>>, key: string, value: V, other: string)
    ensures Read(Put(mem, key, value), other)
      == if other == MetaKey(key) then None else if other == key then Some(value) else Read(mem, other)
  {
    MetaKeyIsAnother(key);
  }

  /** Counting a read changes no value, and deleting a key changes no other. */
  lemma ReadingIsHarmless<V>(mem: map<string, Slot<V>>, key: string, other: string)
    ensures Read(Counted(mem, key), other) == Read(mem, other)
    ensures other != MetaKey(key) ==> Read(Del(mem, key), other) == if other == key then None else Read(mem, other)
  {
  }

  /** The cache after `n` reads of a key. */
  function AfterReads<V>(mem: map<string, Slot<V>>, key: string, n: nat): map<string, Slot<V>> {
    if n == 0 then mem else Counted(AfterReads(mem, key, n - 1), key)
  }

  /** Beside a value stands the number of its reads since it was put, and putting it again starts anew. */
  lemma {:induction false} ReadsAreCounted<V>(mem: map<string, Slot<V>>, key: string, value: V, n: nat)
    ensures var after := AfterReads(Put(mem, key, value), key, n);
      && MetaKey(key) in after && after[MetaKey(key)] == Meta(n) && Read(after, key) == Some(value)
  {
    MetaKeyIsAnother(key);
    if n == 0 {
    } else {
      ReadsAreCounted(mem, key, value, n - 1);
    }
  }

  class CacheMemory<V> {
    var mem: map<string, Slot<V>>

    constructor ()
      ensures mem == map[]
    {
      mem := map[];
    }

    method PutEntry(key: string, value: V)
      modifies this
      ensures mem == Put(old(mem), key, value)
    {
      mem := mem[key := Value(value)];
      mem := mem[MetaKey(key) := Meta(0)];
    }

    method GetEntry(key: string) returns (r: Option<V>)
      modifies this
      ensures mem == Counted(old(mem), key)
      ensures r == Read(old(mem), key)
    {
      if MetaKey(key) in mem && mem[MetaKey(key)].Meta? {
        mem := mem[MetaKey(key) := Meta(mem[MetaKey(key)].accessCount + 1)];
      }
      r := if key in mem && mem[key].Value? then Some(mem[key].value) else None;
    }

    method DelEntry(key: string)
      modifies this
      ensures mem == Del(old(mem), key)
    {
      mem := mem - {key};
      mem := mem - {MetaKey(key)};
    }
  }
}
