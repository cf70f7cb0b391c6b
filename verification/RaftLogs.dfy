/** The in-memory log: a value view with its laws, and the class that keeps it. */
module RaftLogs {

  import opened RaftTypes

  /** A log whose first slot holds logical index `start`. */
  datatype Log = Log(start: nat, entries: seq<Entry>)
  {
    predicate InRange(index: nat) {
      start <= index < start + |entries|
    }

    function LastIndex(): nat {
      if entries == [] then 0 else entries[|entries| - 1].index
    }

    function LastTerm(): nat {
      if entries == [] then 0 else entries[|entries| - 1].term
    }

    /** The index the next append will take. */
    function NextIndex(): nat {
      if LastIndex() == 0 then start else LastIndex() + 1
    }

    function At(index: nat): Option<Entry> {
      if InRange(index) then Some(entries[index - start]) else None
    }

    function TermAt(index: nat): nat {
      if index == 0 || !InRange(index) then 0 else entries[index - start].term
    }

    function Append(term: nat, data: string): Log {
      Log(start, entries + [Entry(NextIndex(), term, data)])
    }

    /** The entries in `[from, to)`, clamped to what the log holds. */
    function Slice(from: nat, to: nat): seq<Entry> {
      var lo, hi := Max(from, start), Min(to, start + |entries|);
      if lo >= hi then [] else entries[lo - start..hi - start]
    }

    function TruncateSuffix(from: nat): Log {
      Log(start, if from <= start then [] else entries[..Min(|entries|, from - start)])
    }

    /** Every entry sits at the slot its own index names. */
    predicate Contiguous() {
      forall k :: 0 <= k < |entries| ==> entries[k].index == start + k
    }
  }

  /** Metadata plus payload, as the snapshot trigger estimates it. */
  function EntryBytes(e: Entry): nat {
    4 + 4 + |e.data|
  }

  function Bytes(entries: seq<Entry>): nat {
    if entries == [] then 0
    else Bytes(entries[..|entries| - 1]) + EntryBytes(entries[|entries| - 1])
  }

  /** Slicing is selection by the entries' own indices, in log order. */
  lemma SliceSelectsByIndex(log: Log, from: nat, to: nat, e: Entry)
    requires log.Contiguous()
    ensures e in log.Slice(from, to) <==> e in log.entries && from <= e.index < to
    ensures forall i, j :: 0 <= i < j < |log.Slice(from, to)| ==>
              log.Slice(from, to)[j].index == log.Slice(from, to)[i].index + (j - i)
  {
    if e in log.entries && from <= e.index < to {
      var k :| 0 <= k < |log.entries| && log.entries[k] == e;
      var lo := Max(from, log.start);
      assert log.Slice(from, to)[log.start + k - lo] == e;
    }
  }

  /** Appending and then cutting at the new index is a round trip, and both keep contiguity. */
  lemma TruncateUndoesAppend(log: Log, term: nat, data: string)
    requires log.Contiguous() && 1 <= log.start
    ensures log.Append(term, data).Contiguous()
    ensures log.Append(term, data).TruncateSuffix(log.NextIndex()) == log
    ensures log.Append(term, data).At(log.NextIndex()) == Some(Entry(log.NextIndex(), term, data))
    ensures log.Append(term, data).LastIndex() == log.NextIndex() == log.start + |log.entries|
  {
  }

  class RaftLog {
    var entries: seq<Entry>
    var startIndex: nat
    var estimatedBytes: nat

    ghost predicate Valid()
      reads this
    {
      estimatedBytes == Bytes(entries)
    }

    function View(): Log
      reads this
    {
      Log(startIndex, entries)
    }

    constructor ()
      ensures Valid() && View() == Log(1, [])
    {
      entries, startIndex, estimatedBytes := [], 1, 0;
    }

    method Append(term: nat, data: string) returns (index: nat)
      requires Valid()
      modifies this
      ensures Valid() && View() == old(View()).Append(term, data)
      ensures index == old(View()).NextIndex()
    {
      var (last, _) := GetLastLogInfo();
      index := if last == 0 then startIndex else last + 1;
      AppendLogEntry(Entry(index, term, data));
    }

    method AppendLogEntry(entry: Entry)
      requires Valid()
      modifies this
      ensures Valid() && startIndex == old(startIndex) && entries == old(entries) + [entry]
    {
      assert (entries + [entry])[..|entries|] == entries;
      entries := entries + [entry];
      estimatedBytes := estimatedBytes + EntryBytes(entry);
    }

    function GetLastLogInfo(): (r: (nat, nat))
      reads this
      ensures r == (View().LastIndex(), View().LastTerm())
    {
      if entries == [] then (0, 0) else var last := entries[|entries| - 1]; (last.index, last.term)
    }

    method GetEntries(start: nat, end: nat) returns (result: seq<Entry>)
      ensures result == View().Slice(start, end)
    {
      result := [];
      if start >= end || entries == [] {
        return;
      }
      var from := Max(start, startIndex);
      var to := Min(end, startIndex + |entries|);
      if from >= to {
        return;
      }
      for i := from - startIndex to to - startIndex
        invariant result == entries[from - startIndex..i]
      {
        result := result + [entries[i]];
      }
    }

    method TruncateSuffix(fromIndex: nat)
      requires Valid()
      modifies this
      ensures Valid() && View() == old(View()).TruncateSuffix(fromIndex)
    {
      if fromIndex > startIndex + |entries| {
        return;
      }
      if fromIndex <= startIndex {
        entries, estimatedBytes := [], 0;
      } else {
        var newSize := fromIndex - startIndex;
        while |entries| > newSize
          invariant Valid() && startIndex == old(startIndex)
          invariant newSize <= |entries| <= |old(entries)|
          invariant entries == old(entries)[..|entries|]
        {
          estimatedBytes := estimatedBytes - EntryBytes(entries[|entries| - 1]);
          entries := entries[..|entries| - 1];
        }
      }
    }

    /** Every held entry is now covered by a snapshot. */
    method SetStartIndex(index: nat)
      modifies this
      ensures Valid() && View() == Log(index, [])
    {
      entries, estimatedBytes, startIndex := [], 0, index;
    }
  }
}
