/**
 * The snapshot keys of the state store: two formats, a staging area of temporary keys, and an
 * atomic swap. Whatever was attempted since, loading gives the last snapshot committed.
 */
module SnapshotStores {

  import opened RaftTypes
  import opened Sha256
  import opened Sha256Streams

  datatype Snapshot = Snapshot(bytes: seq<bv8>, index: nat, term: nat)

  /** Sixteen octets in the single-value format; twenty, with a chunk count, in the other. */
  datatype Meta = Meta(index: nat, term: nat, count: Option<nat>)

  /** The keys under `snapshot:`; a write batch replaces any of them atomically. */
  datatype Keys = Keys(data: Option<seq<bv8>>, meta: Option<Meta>, hash: Option<seq<bv8>>,
                       chunks: map<nat, seq<bv8>>, temps: map<nat, seq<bv8>>)

  /** What goes wrong in a streaming save, if anything. */
  datatype Fault =
    | Smooth
    | Interrupted(after: nat)      // the process dies; temporary keys stay behind
    | Aborted(after: nat)          // the provider or a chunk write fails
    | CommitFails                  // the final batch does not commit

  /** The first `n` chunks, joined. */
  function Joined(chunks: map<nat, seq<bv8>>, n: nat): seq<bv8>
    requires forall i :: 0 <= i < n ==> i in chunks
  {
    if n == 0 then [] else Joined(chunks, n - 1) + chunks[n - 1]
  }

  predicate Holds(alu: Alu, k: Keys, s: Snapshot) {
    && k.hash == Some(Digest(alu, s.bytes))
    && (|| (k.data == Some(s.bytes) && k.meta == Some(Meta(s.index, s.term, None)))
        || (k.data == None && HoldsChunks(k, s)))
  }

  predicate HoldsChunks(k: Keys, s: Snapshot) {
    && k.meta.Some? && k.meta.value.count.Some?
    && k.meta.value == Meta(s.index, s.term, k.meta.value.count)
    && (forall i :: 0 <= i < k.meta.value.count.value ==> i in k.chunks)
    && Joined(k.chunks, k.meta.value.count.value) == s.bytes
  }

  predicate Represents(alu: Alu, k: Keys, committed: Option<Snapshot>) {
    match committed
    case None => k.data == None && k.meta == None
    case Some(s) => Holds(alu, k, s)
  }

  /** What a completed streaming save leaves: nothing at all when every chunk was empty. */
  function Streamed(chunks: seq<seq<bv8>>, index: nat, term: nat): Option<Snapshot> {
    if forall i :: 0 <= i < |chunks| ==> chunks[i] == [] then None else Some(Snapshot(Concat(chunks), index, term))
  }

  lemma {:induction false} JoinedGrows(chunks: map<nat, seq<bv8>>, more: map<nat, seq<bv8>>, n: nat)
    requires forall i :: 0 <= i < n ==> i in chunks && i in more && more[i] == chunks[i]
    ensures Joined(more, n) == Joined(chunks, n)
  {
    if n > 0 {
      JoinedGrows(chunks, more, n - 1);
    }
  }

  // ---------- what a load makes of the keys, sound or not ----------

  /** How many chunks are read: up to the count, if there is one, and to the first gap. */
  predicate Leading(chunks: map<nat, seq<bv8>>, count: Option<nat>, n: nat) {
    && (forall i :: 0 <= i < n ==> i in chunks) && (count.Some? ==> n <= count.value)
    && (n !in chunks || count == Some(n))
  }

  predicate Intact(alu: Alu, k: Keys, bytes: seq<bv8>) {
    k.hash == None || k.hash.value == Digest(alu, bytes)
  }

  ghost predicate Loads(alu: Alu, k: Keys, r: Option<Snapshot>) {
    if k.data.Some? then
      r == if k.meta.Some? && k.meta.value.count == None && Intact(alu, k, k.data.value)
           then Some(Snapshot(k.data.value, k.meta.value.index, k.meta.value.term)) else None
    else if k.meta == None then r == None
    else exists n :: LoadsChunks(alu, k, n, r)
  }

  predicate LoadsChunks(alu: Alu, k: Keys, n: nat, r: Option<Snapshot>)
    requires k.meta.Some?
  {
    && Leading(k.chunks, k.meta.value.count, n)
    && r == if Intact(alu, k, Joined(k.chunks, n))
            then Some(Snapshot(Joined(k.chunks, n), k.meta.value.index, k.meta.value.term)) else None
  }

  /** What was committed is what is loaded. */
  lemma LoadsCommitted(alu: Alu, k: Keys, committed: Option<Snapshot>, r: Option<Snapshot>)
    requires Represents(alu, k, committed) && Loads(alu, k, r)
    ensures r == committed
  {
    if k.data == None && k.meta.Some? {
      var n :| LoadsChunks(alu, k, n, r);
      assert n == k.meta.value.count.value;
    }
  }

  /** Whatever became of the keys, no bytes are handed out that contradict the stored hash. */
  lemma LoadedIsIntact(alu: Alu, k: Keys, r: Option<Snapshot>)
    requires Loads(alu, k, r) && k.hash.Some? && r.Some?
    ensures k.hash.value == Digest(alu, r.value.bytes)
  {
  }

  /** Keys `0` to `n - 1` are at most as many as there are. */
  lemma AtMostAsMany(chunks: map<nat, seq<bv8>>, n: nat)
    requires forall i :: 0 <= i < n ==> i in chunks
    ensures n <= |chunks|
    decreases n
  {
    if n > 0 {
      var rest := chunks - {n - 1};
      AtMostAsMany(rest, n - 1);
      assert chunks.Keys == rest.Keys + {n - 1};
    }
  }

  class SnapshotStore {
    const alu: Alu
    var keys: Keys
    ghost var committed: Option<Snapshot>

    ghost predicate Valid()
      reads this
    {
      Reorders(alu) && Represents(alu, keys, committed)
    }

    constructor (alu: Alu)
      requires Reorders(alu)
      ensures Valid() && committed == None && this.alu == alu
    {
      this.alu := alu;
      keys, committed := Keys(None, None, None, map[], map[]), None;
    }

    /** The single-value format, in one batch; chunks of an older snapshot may stay behind. */
    method SaveSnapshot(bytes: seq<bv8>, index: nat, term: nat, commits: bool) returns (ok: bool)
      requires Valid()
      modifies this
      ensures Valid() && ok == commits
      ensures committed == if ok then Some(Snapshot(bytes, index, term)) else old(committed)
    {
      var hash := HashPieces(alu, [bytes]);
      assert [bytes][..0] == [] && [] + bytes == bytes;
      if commits {
        keys := keys.(data := Some(bytes), meta := Some(Meta(index, term, None)), hash := Some(hash));
        committed := Some(Snapshot(bytes, index, term));
      }
      ok := commits;
    }

    /**
     * Stages the chunks under temporary keys while hashing them, then swaps everything in with
     * one batch. Any fault leaves the old snapshot in place.
     */
    method SaveSnapshotStream(chunks: seq<seq<bv8>>, index: nat, term: nat, fault: Fault) returns (ok: bool)
      requires Valid()
      modifies this
      ensures Valid() && ok == (fault == Smooth)
      ensures committed == if ok then Streamed(chunks, index, term) else old(committed)
    {
      keys := keys.(temps := map[]);
      var limit := if fault.Interrupted? || fault.Aborted? then Min(fault.after, |chunks|) else |chunks|;
      var count, hash := Stage(chunks, limit);
      if fault.Interrupted? {
        return false;
      }
      if fault.Aborted? || fault.CommitFails? {
        keys := keys.(temps := map[]);
        return false;
      }
      assert chunks[..limit] == chunks;
      if count == 0 {
        keys := keys.(data := None, meta := None, hash := None, chunks := map[]);
      } else {
        Swap(count, hash, index, term);
      }
      committed := Streamed(chunks, index, term);
      ok := true;
    }

    method Stage(chunks: seq<seq<bv8>>, limit: nat) returns (count: nat, hash: seq<bv8>)
      requires Reorders(alu) && limit <= |chunks| && keys.temps == map[]
      modifies this`keys
      ensures keys == old(keys).(temps := keys.temps)
      ensures forall i :: 0 <= i < count ==> i in keys.temps
      ensures Joined(keys.temps, count) == Concat(chunks[..limit]) && hash == Digest(alu, Concat(chunks[..limit]))
      ensures count == 0 <==> forall i :: 0 <= i < limit ==> chunks[i] == []
    {
      count := 0;
      var pieces := [];
      for k := 0 to limit
        invariant keys == old(keys).(temps := keys.temps) && |pieces| == count
        invariant forall i :: 0 <= i < count ==> i in keys.temps
        invariant Joined(keys.temps, count) == Concat(pieces) == Concat(chunks[..k])
        invariant count == 0 <==> forall i :: 0 <= i < k ==> chunks[i] == []
      {
        var chunk := chunks[k];
        ConcatNext(chunks[..k], chunk);
        assert chunks[..k + 1] == chunks[..k] + [chunk];
        if chunk != [] {
          JoinedGrows(keys.temps, keys.temps[count := chunk], count);
          ConcatNext(pieces, chunk);
          keys := keys.(temps := keys.temps[count := chunk]);
          pieces, count := pieces + [chunk], count + 1;
        }
      }
      hash := HashPieces(alu, pieces);
    }

    /** One batch: drop the old snapshot, move the staged chunks to their final keys. */
    method Swap(count: nat, hash: seq<bv8>, index: nat, term: nat)
      requires forall i :: 0 <= i < count ==> i in keys.temps
      modifies this`keys
      ensures keys.data == None && keys.meta == Some(Meta(index, term, Some(count))) && keys.hash == Some(hash)
      ensures forall i :: 0 <= i < count ==> i in keys.chunks
      ensures Joined(keys.chunks, count) == old(Joined(keys.temps, count))
    {
      var moved: map<nat, seq<bv8>>, rest: map<nat, seq<bv8>> := map[], keys.temps;
      for i := 0 to count
        invariant forall j :: 0 <= j < i ==> j in moved && moved[j] == keys.temps[j]
        invariant forall j :: i <= j < count ==> j in rest && rest[j] == keys.temps[j]
      {
        var n: nat := i;
        moved, rest := moved[n := rest[n]], rest - {n};
      }
      JoinedGrows(keys.temps, moved, count);
      keys := Keys(None, Some(Meta(index, term, Some(count))), Some(hash), moved, rest);
    }

    /** Reads whichever format is present, hashing as it goes; a mismatch is an error. */
    method LoadSnapshotStream() returns (r: Option<Snapshot>)
      requires Reorders(alu)
      ensures Loads(alu, keys, r)
      ensures Valid() ==> r == committed
    {
      if keys.data.Some? {
        r := LoadSnapshot();
      } else if keys.meta == None {
        r := None;
      } else {
        r := LoadChunks();
      }
      if Valid() {
        LoadsCommitted(alu, keys, committed, r);
      }
    }

    method LoadChunks() returns (r: Option<Snapshot>)
      requires Reorders(alu) && keys.data == None && keys.meta.Some?
      ensures Loads(alu, keys, r)
    {
      var n, bytes, hash := ReadChunks();
      var intact := keys.hash == None || keys.hash.value == hash;
      r := if intact then Some(Snapshot(bytes, keys.meta.value.index, keys.meta.value.term)) else None;
      assert LoadsChunks(alu, keys, n, r);
    }

    /** The single-value format; its metadata has no chunk count. */
    method LoadSnapshot() returns (r: Option<Snapshot>)
      requires Reorders(alu) && keys.data.Some?
      ensures Loads(alu, keys, r)
    {
      var bytes := keys.data.value;
      if keys.meta == None || keys.meta.value.count.Some? {
        return None;
      }
      var hash := HashPieces(alu, [bytes]);
      assert [bytes][..0] == [] && [] + bytes == bytes;
      var intact := keys.hash == None || keys.hash.value == hash;
      r := if intact then Some(Snapshot(bytes, keys.meta.value.index, keys.meta.value.term)) else None;
    }

    /** Chunk after chunk, until the count is reached or a key is missing. */
    method ReadChunks() returns (n: nat, bytes: seq<bv8>, hash: seq<bv8>)
      requires Reorders(alu) && keys.meta.Some?
      ensures Leading(keys.chunks, keys.meta.value.count, n)
      ensures bytes == Joined(keys.chunks, n) && hash == Digest(alu, bytes)
    {
      var count := keys.meta.value.count;
      var pieces := [];
      n, bytes := 0, [];
      while count != Some(n) && n in keys.chunks
        invariant forall i :: 0 <= i < n ==> i in keys.chunks
        invariant count.Some? ==> n <= count.value
        invariant Concat(pieces) == bytes == Joined(keys.chunks, n)
        decreases |keys.chunks| - n
      {
        AtMostAsMany(keys.chunks, n + 1);
        ConcatNext(pieces, keys.chunks[n]);
        pieces, bytes := pieces + [keys.chunks[n]], bytes + keys.chunks[n];
        n := n + 1;
      }
      hash := HashPieces(alu, pieces);
    }
  }

  // ---------- any sequence of attempts ----------

  datatype Attempt =
    | Whole(snapshot: Snapshot, commits: bool)
    | Stream(chunks: seq<seq<bv8>>, index: nat, term: nat, fault: Fault)

  /** The last attempt that went through decides. */
  function LastCommitted(attempts: seq<Attempt>): Option<Snapshot> {
    if attempts == [] then None
    else
      var before := LastCommitted(attempts[..|attempts| - 1]);
      match attempts[|attempts| - 1]
      case Whole(s, commits) => if commits then Some(s) else before
      case Stream(chunks, index, term, fault) => if fault == Smooth then Streamed(chunks, index, term) else before
  }

  method Try(store: SnapshotStore, attempt: Attempt)
    requires store.Valid()
    modifies store
    ensures store.Valid()
    ensures store.committed ==
            match attempt
            case Whole(s, commits) => if commits then Some(s) else old(store.committed)
            case Stream(chunks, index, term, fault) =>
              if fault == Smooth then Streamed(chunks, index, term) else old(store.committed)
  {
    match attempt {
      case Whole(s, commits) => var _ := store.SaveSnapshot(s.bytes, s.index, s.term, commits);
      case Stream(chunks, index, term, fault) => var _ := store.SaveSnapshotStream(chunks, index, term, fault);
    }
  }

  /** Any sequence of saves, whole or streamed, failed or interrupted, and then a load. */
  method SaveAllThenLoad(attempts: seq<Attempt>) returns (r: Option<Snapshot>)
    ensures r == LastCommitted(attempts)
  {
    WordsReorder();
    var store := new SnapshotStore(WORDS);
    for k := 0 to |attempts|
      invariant fresh(store) && store.Valid() && store.committed == LastCommitted(attempts[..k])
    {
      assert attempts[..k + 1][..k] == attempts[..k];
      Try(store, attempts[k]);
    }
    assert attempts[..|attempts|] == attempts;
    r := store.LoadSnapshotStream();
  }

  lemma ConcatNext(pieces: seq<seq<bv8>>, piece: seq<bv8>)
    ensures Concat(pieces + [piece]) == Concat(pieces) + piece
  {
    assert (pieces + [piece])[..|pieces|] == pieces;
  }
}
