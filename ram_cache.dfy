/**
 * The in-memory overlay in front of the persistent question cache: a
 * size-bounded map from a question's hash code to the question. Every write
 * also goes to the persistent layer; reads look in memory first.
 *
 * The persistent layer's own contents are not modelled: what the wrapper
 * sends it is kept as the sequence `persistentWrites`, and what it answers
 * to a lookup is a parameter of the read methods.
 */
module RAMCache {
  import opened Questions

  /** The memory budget of the overlay, 50 MB counted as each entry's byte count. */
  const MaxCacheSize: nat := 50 * 1024 * 1024

  /** The summed byte count of the entries of `m`. */
  ghost function TotalSize(m: map<int, Question>, sizeOf: Question -> nat): nat
    decreases |m|
  {
    if m == map[] then 0
    else
      var entry :| entry in m.Items;
      sizeOf(entry.1) + TotalSize(m - {entry.0}, sizeOf)
  }

  /** The total can be split at any entry, not only the one its definition picks. */
  lemma {:induction false} TotalSizeRemove(m: map<int, Question>, sizeOf: Question -> nat, k: int)
    requires k in m
    ensures TotalSize(m, sizeOf) == sizeOf(m[k]) + TotalSize(m - {k}, sizeOf)
    decreases |m|
  {
    var entry :| entry in m.Items && TotalSize(m, sizeOf) == sizeOf(entry.1) + TotalSize(m - {entry.0}, sizeOf);
    var j := entry.0;
    if j != k {
      assert k in m - {j} && j in m - {k};
      TotalSizeRemove(m - {j}, sizeOf, k);
      TotalSizeRemove(m - {k}, sizeOf, j);
      assert m - {j} - {k} == m - {k} - {j};
    }
  }

  /** Storing `q` under `key` changes the total by the new size minus the size of the entry it replaces. */
  lemma TotalSizePut(m: map<int, Question>, sizeOf: Question -> nat, key: int, q: Question)
    ensures key in m ==> TotalSize(m, sizeOf) >= sizeOf(m[key])
    ensures TotalSize(m[key := q], sizeOf) ==
      TotalSize(m, sizeOf) - (if key in m then sizeOf(m[key]) else 0) + sizeOf(q)
  {
    TotalSizeRemove(m[key := q], sizeOf, key);
    assert m[key := q] - {key} == m - {key};
    if key in m {
      TotalSizeRemove(m, sizeOf, key);
    } else {
      assert m - {key} == m;
    }
  }

  /** Every entry of `a` is an entry of `b`. */
  ghost predicate SubMap(a: map<int, Question>, b: map<int, Question>) {
    forall k | k in a :: k in b && a[k] == b[k]
  }

  class Cache {
    /** The LRU map, keyed by hash code. */
    var ram: map<int, Question>
    /** The running byte count the LRU map keeps of its entries. */
    var size: nat
    /** Every question written through to the persistent layer, in order. */
    var persistentWrites: seq<Question>
    /** `QuizQuestion.hashCode()`. */
    const hashOf: Question -> int
    /** `QuizQuestion.toByteCount()`, the size the LRU map charges for an entry. */
    const sizeOf: Question -> nat

    ghost predicate Valid()
      reads this
    {
      size == TotalSize(ram, sizeOf) && size <= MaxCacheSize
    }

    constructor (hashOf: Question -> int, sizeOf: Question -> nat)
      ensures Valid()
      ensures ram == map[] && persistentWrites == []
      ensures this.hashOf == hashOf && this.sizeOf == sizeOf
    {
      this.hashOf, this.sizeOf := hashOf, sizeOf;
      ram, size, persistentWrites := map[], 0, [];
    }

    /**
     * Puts `q` into memory under its hash code, evicts entries while the
     * budget is exceeded (which ones is the LRU policy's choice, left open
     * here), and always writes `q` through to the persistent layer.
     */
    method CacheQuestion(q: Question)
      requires Valid()
      modifies this
      ensures Valid()
      ensures persistentWrites == old(persistentWrites) + [q]
      ensures SubMap(ram, old(ram)[hashOf(q) := q])
      ensures TotalSize(old(ram)[hashOf(q) := q], sizeOf) <= MaxCacheSize ==> ram == old(ram)[hashOf(q) := q]
    {
      var key := hashOf(q);
      TotalSizePut(ram, sizeOf, key, q);
      var previous := if key in ram then sizeOf(ram[key]) else 0;
      size := size - previous + sizeOf(q);
      ram := ram[key := q];
      TrimToSize();
      persistentWrites := persistentWrites + [q];
    }

    /** Evicts entries, one at a time, until the byte count is within the budget. */
    method TrimToSize()
      requires size == TotalSize(ram, sizeOf)
      modifies this`ram, this`size
      ensures Valid()
      ensures SubMap(ram, old(ram))
      ensures old(size) <= MaxCacheSize ==> ram == old(ram)
    {
      while size > MaxCacheSize && ram != map[]
        invariant size == TotalSize(ram, sizeOf)
        invariant SubMap(ram, old(ram))
        invariant old(size) <= MaxCacheSize ==> ram == old(ram)
        decreases |ram|
      {
        var entry :| entry in ram.Items;
        TotalSizeRemove(ram, sizeOf, entry.0);
        size := size - sizeOf(entry.1);
        ram := ram - {entry.0};
      }
    }

    /** Tag lookups are answered by the persistent layer alone. */
    method GetQuestionSetByTag(tag: string, persistentAnswer: set<int>) returns (r: set<int>)
      ensures r == persistentAnswer
    {
      r := persistentAnswer;
    }

    /**
     * The entry in memory when there is one, without asking the persistent
     * layer; otherwise the persistent layer's answer, without putting it into
     * memory.
     */
    method GetQuestionById(id: int, persistentAnswer: Option<Question>) returns (r: Option<Question>)
      ensures id in ram ==> r == Some(ram[id])
      ensures id !in ram ==> r == persistentAnswer
    {
      if id in ram {
        r := Some(ram[id]);
      } else {
        r := persistentAnswer;
      }
    }

    /** Evicts every entry from memory; the persistent layer is not touched. */
    method ClearCache()
      modifies this`ram, this`size
      ensures Valid()
      ensures ram == map[]
    {
      ram, size := map[], 0;
    }
  }
}
