/**
 * Snapshot transfer: the chunks a leader cuts, and the follower's reassembly of them from any
 * mixture of drops, repeats and interleaved transfers, with writes that fail or lose data.
 */
module SnapshotTransfers {

  import opened RaftTypes

  /** A snapshot is named by the last index and term it covers; so is its temporary file. */
  datatype Name = Name(index: nat, term: nat)

  const CHUNK_SIZE: nat := 64 * 1024

  /**
   * What becomes of a chunk's octets: all reach the file; the file does not open; the write reports a
   * failure after some of them; or it reports success and only some survive the close of the stream.
   */
  datatype Write = Whole | Unopened | Failed(written: nat) | Lost(kept: nat)

  /** A chunk of the named snapshot arrives, or the state machine has read the file it was handed. */
  datatype Signal = Arrives(name: Name, offset: nat, write: Write) | RestoreEnds

  /** How long the chunk at an offset is; a short one is the last. */
  function ChunkLength(size: nat, offset: nat): nat
    requires offset <= size
  {
    Min(CHUNK_SIZE, size - offset)
  }

  /** How many of a chunk's octets a write puts into the file. */
  function PutBy(write: Write, length: nat): nat {
    match write
    case Whole => length
    case Unopened => 0
    case Failed(n) => Min(n, length)
    case Lost(n) => Min(n, length)
  }

  predicate Accepts(write: Write) {
    write.Whole? || write.Lost?
  }

  // ---------- the receiver, without the octets ----------

  /** A chunk that was accepted, and what each write of it put into the file, the accepted one last. */
  datatype Attempt = Attempt(offset: nat, length: nat, puts: seq<nat>)

  datatype Handed = Handed(name: Name, attempts: seq<Attempt>)

  /** The transfer in progress, its accepted chunks, the writes of the next one; the file being restored. */
  datatype State = State(path: Option<Name>, expected: nat, done: seq<Attempt>, tries: seq<nat>,
                         restoring: Option<Handed>)

  const IDLE := State(None, 0, [], [], None)

  function Dropped(s: State): State {
    IDLE.(restoring := s.restoring)
  }

  function Opened(s: State, name: Name): State {
    State(Some(name), 0, [], [], s.restoring)
  }

  function AfterWrite(s: State, name: Name, length: nat, write: Write): State {
    var tried := s.(tries := s.tries + [PutBy(write, length)]);
    if Accepts(write) then Accepted(tried, name, length) else tried
  }

  /** A write reported success: the chunk counts, and the last one hands the file over. */
  function Accepted(s: State, name: Name, length: nat): State {
    var done := s.done + [Attempt(s.expected, length, s.tries)];
    if length < CHUNK_SIZE then IDLE.(restoring := Some(Handed(name, done)))
    else s.(expected := s.expected + length, done := done, tries := [])
  }

  /** One chunk, whatever transfer it belongs to. */
  function AfterChunk(size: nat, s: State, name: Name, offset: nat, write: Write): State
    requires offset <= size
  {
    var length := ChunkLength(size, offset);
    if offset == 0 then if s.restoring.Some? then s else AfterWrite(Opened(s, name), name, length, write)
    else if s.path != Some(name) || s.expected != offset then Dropped(s)
    else AfterWrite(s, name, length, write)
  }

  /** Chunks are cut from the snapshot, so they start within it. */
  predicate Genuine(sizes: Name -> nat, e: Signal) {
    e.Arrives? ==> e.offset <= sizes(e.name)
  }

  function After(sizes: Name -> nat, s: State, e: Signal): State
    requires Genuine(sizes, e)
  {
    match e
    case Arrives(name, offset, write) => AfterChunk(sizes(name), s, name, offset, write)
    case RestoreEnds => s.(restoring := None)
  }

  function AfterAll(sizes: Name -> nat, signals: seq<Signal>): State
    requires forall e :: e in signals ==> Genuine(sizes, e)
  {
    if signals == [] then IDLE
    else After(sizes, AfterAll(sizes, signals[..|signals| - 1]), signals[|signals| - 1])
  }

  /** The files the state machine reads to their end, in order. */
  function AllHanded(sizes: Name -> nat, signals: seq<Signal>): seq<Handed>
    requires forall e :: e in signals ==> Genuine(sizes, e)
  {
    if signals == [] then []
    else
      var rest, last := signals[..|signals| - 1], signals[|signals| - 1];
      var s := AfterAll(sizes, rest);
      AllHanded(sizes, rest) + if last.RestoreEnds? && s.restoring.Some? then [s.restoring.value] else []
  }

  // ---------- which octet of the snapshot is where in the file ----------

  function Range(from: nat, count: nat): seq<nat> {
    seq(count, k => from + k)
  }

  /** Every write of a chunk starts over at the chunk's first octet. */
  function Laid(offset: nat, puts: seq<nat>): seq<nat> {
    if puts == [] then [] else Laid(offset, puts[..|puts| - 1]) + Range(offset, puts[|puts| - 1])
  }

  function Layout(attempts: seq<Attempt>): seq<nat> {
    if attempts == [] then []
    else
      var a := attempts[|attempts| - 1];
      Layout(attempts[..|attempts| - 1]) + Laid(a.offset, a.puts)
  }

  predicate Within(layout: seq<nat>, size: nat) {
    forall k :: 0 <= k < |layout| ==> layout[k] < size
  }

  /** The file's octets, given the snapshot's. */
  function Render(bytes: seq<bv8>, layout: seq<nat>): seq<bv8>
    requires Within(layout, |bytes|)
  {
    seq(|layout|, k requires 0 <= k < |layout| => bytes[layout[k]])
  }

  /** One write of the chunk put all of it into the file, and the others nothing. */
  predicate Once(a: Attempt) {
    a.length == 0 || exists k :: 0 <= k < |a.puts| && OnlyAt(a, k)
  }

  predicate OnlyAt(a: Attempt, k: nat) {
    k < |a.puts| && a.puts[k] == a.length && forall j :: 0 <= j < |a.puts| && j != k ==> a.puts[j] == 0
  }

  /** Accepted chunks follow each other from the first octet to `end`, and no write exceeds its chunk. */
  predicate Follow(attempts: seq<Attempt>, end: nat)
    decreases |attempts|
  {
    if attempts == [] then end == 0
    else
      var a := attempts[|attempts| - 1];
      && a.offset + a.length == end && Follow(attempts[..|attempts| - 1], a.offset)
      && (forall k :: 0 <= k < |a.puts| ==> a.puts[k] <= a.length)
  }

  // ---------- the file is the snapshot exactly when each chunk went in once ----------

  lemma {:induction false} LaidWithin(offset: nat, puts: seq<nat>, length: nat)
    requires forall k :: 0 <= k < |puts| ==> puts[k] <= length
    ensures forall k :: 0 <= k < |Laid(offset, puts)| ==> offset <= Laid(offset, puts)[k] < offset + length
  {
    if puts != [] {
      LaidWithin(offset, puts[..|puts| - 1], length);
    }
  }

  lemma {:induction false} LayoutWithin(attempts: seq<Attempt>, end: nat)
    requires Follow(attempts, end)
    ensures Within(Layout(attempts), end)
    decreases |attempts|
  {
    if attempts != [] {
      var a := attempts[|attempts| - 1];
      LayoutWithin(attempts[..|attempts| - 1], a.offset);
      LaidWithin(a.offset, a.puts, a.length);
    }
  }

  predicate AllZero(puts: seq<nat>) {
    forall k :: 0 <= k < |puts| ==> puts[k] == 0
  }

  lemma {:induction false} NothingLaid(offset: nat, puts: seq<nat>)
    ensures Laid(offset, puts) == [] <==> AllZero(puts)
  {
    if puts != [] {
      var n := |puts| - 1;
      NothingLaid(offset, puts[..n]);
      assert |Laid(offset, puts)| == |Laid(offset, puts[..n])| + puts[n];
      assert forall k :: 0 <= k < n ==> puts[..n][k] == puts[k];
    }
  }

  /** A chunk's octets are in the file once and in order exactly when one write put them all there. */
  lemma {:induction false} LaidOnceIff(a: Attempt)
    requires forall k :: 0 <= k < |a.puts| ==> a.puts[k] <= a.length
    ensures Laid(a.offset, a.puts) == Range(a.offset, a.length) <==> Once(a)
    decreases |a.puts|
  {
    if a.length == 0 {
      NothingLaid(a.offset, a.puts);
    } else if a.puts != [] {
      var n := |a.puts| - 1;
      var b := a.(puts := a.puts[..n]);
      LaidOnceIff(b);
      NothingLaid(a.offset, b.puts);
      if a.puts[n] == 0 {
        assert Laid(a.offset, a.puts) == Laid(b.offset, b.puts);
        OneFewerTry(a);
      } else {
        LastTry(a);
      }
    }
  }

  lemma OneFewerTry(a: Attempt)
    requires a.length > 0 && a.puts != [] && a.puts[|a.puts| - 1] == 0
    ensures Once(a) <==> Once(a.(puts := a.puts[..|a.puts| - 1]))
  {
    var n := |a.puts| - 1;
    var b := a.(puts := a.puts[..n]);
    if Once(a) {
      var k :| 0 <= k < |a.puts| && OnlyAt(a, k);
      assert OnlyAt(b, k);
    }
    if Once(b) {
      var k :| 0 <= k < |b.puts| && OnlyAt(b, k);
      assert OnlyAt(a, k);
    }
  }

  lemma LastTry(a: Attempt)
    requires a.puts != [] && 0 < a.puts[|a.puts| - 1] <= a.length
    requires Laid(a.offset, a.puts[..|a.puts| - 1]) == [] <==> AllZero(a.puts[..|a.puts| - 1])
    ensures Laid(a.offset, a.puts) == Range(a.offset, a.length) <==> Once(a)
  {
    var n := |a.puts| - 1;
    var before, all := Laid(a.offset, a.puts[..n]), Laid(a.offset, a.puts);
    assert all == before + Range(a.offset, a.puts[n]);
    assert forall k :: 0 <= k < n ==> a.puts[..n][k] == a.puts[k];
    if all == Range(a.offset, a.length) {
      assert all[|before|] == a.offset + |before|;
      assert before == [] && OnlyAt(a, n);
    }
    if Once(a) {
      var k :| 0 <= k < |a.puts| && OnlyAt(a, k);
      assert k == n && before == [];
    }
  }

  /** The last chunk's share of a file that is in order throughout. */
  lemma SplitInOrder(front: seq<nat>, back: seq<nat>, offset: nat, length: nat)
    requires Within(front, offset) && (forall k :: 0 <= k < |back| ==> offset <= back[k])
    ensures front + back == Range(0, offset + length) <==> front == Range(0, offset) && back == Range(offset, length)
  {
    var all, whole := front + back, Range(0, offset + length);
    if all == whole {
      if front != [] {
        assert front[|front| - 1] == all[|front| - 1] == whole[|front| - 1];
      }
      assert |front| < |all| ==> back[0] == all[|front|] == whole[|front|];
      assert |front| == offset && |back| == length;
      forall k | 0 <= k < |front| ensures front[k] == k {
        assert all[k] == whole[k];
      }
      forall k | 0 <= k < |back| ensures back[k] == offset + k {
        assert all[offset + k] == whole[offset + k];
      }
    }
  }

  lemma {:induction false} InOrderIff(attempts: seq<Attempt>, end: nat)
    requires Follow(attempts, end)
    ensures Layout(attempts) == Range(0, end) <==> EachOnce(attempts)
    decreases |attempts|
  {
    if attempts != [] {
      var n := |attempts| - 1;
      var a := attempts[n];
      InOrderIff(attempts[..n], a.offset);
      LayoutWithin(attempts[..n], a.offset);
      LaidWithin(a.offset, a.puts, a.length);
      SplitInOrder(Layout(attempts[..n]), Laid(a.offset, a.puts), a.offset, a.length);
      LaidOnceIff(a);
      assert forall k :: 0 <= k < n ==> attempts[..n][k] == attempts[k];
    }
  }

  /** Each accepted chunk went into the file once. */
  predicate EachOnce(attempts: seq<Attempt>) {
    forall k :: 0 <= k < |attempts| ==> Once(attempts[k])
  }

  /** A file shows every snapshot of that size exactly when its octets are in order. */
  lemma ShowsEveryIff(layout: seq<nat>, size: nat)
    requires Within(layout, size)
    ensures (forall bytes: seq<bv8> :: |bytes| == size ==> Render(bytes, layout) == bytes) <==> layout == Range(0, size)
  {
    if layout != Range(0, size) {
      var blank: seq<bv8> := seq(size, _ => 0);
      if |layout| != size {
        assert Render(blank, layout) != blank;
      } else {
        var k :| 0 <= k < size && layout[k] != k;
        var bytes: seq<bv8> := blank[k := 1];
        assert Render(bytes, layout)[k] == bytes[layout[k]] == 0;
      }
    }
  }

  // ---------- over every sequence of signals ----------

  /** What holds of the receiver after any signals. */
  predicate StateOk(sizes: Name -> nat, s: State) {
    && (s.path.Some? ==> s.restoring == None && Orderly(s, sizes(s.path.value)))
    && (s.restoring.Some? ==> Follow(s.restoring.value.attempts, sizes(s.restoring.value.name)))
  }

  /** Accepted chunks follow each other, and the failed writes of the next one stay within it. */
  predicate Orderly(s: State, size: nat) {
    && Follow(s.done, s.expected) && s.expected <= size
    && (forall k :: 0 <= k < |s.tries| ==> s.tries[k] <= ChunkLength(size, s.expected))
  }

  lemma OneMoreDone(done: seq<Attempt>, a: Attempt)
    ensures Layout(done + [a]) == Layout(done) + Laid(a.offset, a.puts)
    ensures Follow(done, a.offset) && (forall k :: 0 <= k < |a.puts| ==> a.puts[k] <= a.length) ==>
              Follow(done + [a], a.offset + a.length)
  {
    assert (done + [a])[..|done|] == done;
  }

  lemma WriteKeepsOk(sizes: Name -> nat, s: State, name: Name, write: Write)
    requires s.path == Some(name) && s.restoring == None && Orderly(s, sizes(name))
    ensures StateOk(sizes, AfterWrite(s, name, ChunkLength(sizes(name), s.expected), write))
  {
    var length := ChunkLength(sizes(name), s.expected);
    OneMoreDone(s.done, Attempt(s.expected, length, s.tries + [PutBy(write, length)]));
  }

  lemma SignalKeepsOk(sizes: Name -> nat, s: State, e: Signal)
    requires StateOk(sizes, s) && Genuine(sizes, e)
    ensures StateOk(sizes, After(sizes, s, e))
  {
    if e.Arrives? {
      if e.offset == 0 && s.restoring == None {
        WriteKeepsOk(sizes, Opened(s, e.name), e.name, e.write);
      } else if e.offset > 0 && s.path == Some(e.name) && s.expected == e.offset {
        WriteKeepsOk(sizes, s, e.name, e.write);
      }
    }
  }

  lemma {:induction false} SignalsKeepOk(sizes: Name -> nat, signals: seq<Signal>)
    requires forall e :: e in signals ==> Genuine(sizes, e)
    ensures StateOk(sizes, AfterAll(sizes, signals))
  {
    if signals != [] {
      SignalsKeepOk(sizes, signals[..|signals| - 1]);
      SignalKeepsOk(sizes, AfterAll(sizes, signals[..|signals| - 1]), signals[|signals| - 1]);
    }
  }

  lemma {:induction false} HandedFollow(sizes: Name -> nat, signals: seq<Signal>, k: nat)
    requires (forall e :: e in signals ==> Genuine(sizes, e)) && k < |AllHanded(sizes, signals)|
    ensures var h := AllHanded(sizes, signals)[k]; Follow(h.attempts, sizes(h.name))
  {
    var rest := signals[..|signals| - 1];
    SignalsKeepOk(sizes, rest);
    if k < |AllHanded(sizes, rest)| {
      HandedFollow(sizes, rest, k);
    }
  }

  /**
   * For every drop, repeat, reordering and mixture of chunks and every outcome of their writes: a file
   * the state machine reads shows the snapshot, whatever its octets, exactly when each of the chunks
   * accepted for it went in once: one of its writes put all of it there, and the others nothing.
   */
  lemma ReassemblyCompleteIff(sizes: Name -> nat, signals: seq<Signal>, k: nat)
    requires (forall e :: e in signals ==> Genuine(sizes, e)) && k < |AllHanded(sizes, signals)|
    ensures var h := AllHanded(sizes, signals)[k];
            && Within(Layout(h.attempts), sizes(h.name))
            && ((forall bytes :: |bytes| == sizes(h.name) ==> Render(bytes, Layout(h.attempts)) == bytes)
                <==> EachOnce(h.attempts))
  {
    var h := AllHanded(sizes, signals)[k];
    HandedFollow(sizes, signals, k);
    LayoutWithin(h.attempts, sizes(h.name));
    InOrderIff(h.attempts, sizes(h.name));
    ShowsEveryIff(Layout(h.attempts), sizes(h.name));
  }

  /** With every chunk so far in once and no failed write of the next one. */
  predicate CleanSoFar(s: State) {
    EachOnce(s.done) && s.tries == [] && (s.restoring.Some? ==> EachOnce(s.restoring.value.attempts))
  }

  lemma WholeKeepsClean(sizes: Name -> nat, s: State, e: Signal)
    requires CleanSoFar(s) && Genuine(sizes, e) && (e.Arrives? ==> e.write == Whole)
    ensures CleanSoFar(After(sizes, s, e))
  {
    if e.Arrives? {
      var length := ChunkLength(sizes(e.name), e.offset);
      assert forall offset :: OnlyAt(Attempt(offset, length, [] + [length]), 0);
    }
  }

  lemma {:induction false} WholeStaysClean(sizes: Name -> nat, signals: seq<Signal>)
    requires forall e :: e in signals ==> Genuine(sizes, e) && (e.Arrives? ==> e.write == Whole)
    ensures CleanSoFar(AfterAll(sizes, signals))
  {
    if signals != [] {
      WholeStaysClean(sizes, signals[..|signals| - 1]);
      WholeKeepsClean(sizes, AfterAll(sizes, signals[..|signals| - 1]), signals[|signals| - 1]);
    }
  }

  /** While every write is whole, every file is complete, however the chunks are mixed. */
  lemma {:induction false} WholeWritesComplete(sizes: Name -> nat, signals: seq<Signal>, k: nat)
    requires forall e :: e in signals ==> Genuine(sizes, e) && (e.Arrives? ==> e.write == Whole)
    requires k < |AllHanded(sizes, signals)|
    ensures EachOnce(AllHanded(sizes, signals)[k].attempts)
  {
    var rest := signals[..|signals| - 1];
    WholeStaysClean(sizes, rest);
    if k < |AllHanded(sizes, rest)| {
      WholeWritesComplete(sizes, rest, k);
    }
  }

  /** A later chunk that no transfer awaits. */
  predicate Misplaced(s: State, e: Signal) {
    e.Arrives? && e.offset != 0 && !(s.path == Some(e.name) && s.expected == e.offset)
  }

  /** Nothing is being received; what is being restored is what `s` was restoring. */
  predicate Ended(s: State, s': State) {
    s'.path == None && (s'.restoring == None || s'.restoring == s.restoring)
  }

  /** A misplaced chunk ends the transfer: until a first chunk arrives no file is received or handed over. */
  lemma {:induction false} MisplacedEndsTransfer(sizes: Name -> nat, signals: seq<Signal>, k: nat)
    requires (forall e :: e in signals ==> Genuine(sizes, e)) && k < |signals|
    requires Misplaced(AfterAll(sizes, signals[..k]), signals[k])
    requires forall j :: k < j < |signals| && signals[j].Arrives? ==> signals[j].offset != 0
    ensures Ended(AfterAll(sizes, signals[..k]), AfterAll(sizes, signals))
    decreases |signals|
  {
    var n := |signals| - 1;
    if k < n {
      assert signals[..n][..k] == signals[..k] && signals[..n][k] == signals[k];
      assert forall j :: k < j < n ==> signals[..n][j] == signals[j];
      MisplacedEndsTransfer(sizes, signals[..n], k);
    }
  }

  // ---------- the receiver with its files ----------

  datatype Chunk = Chunk(name: Name, offset: nat, data: seq<bv8>, done: bool)

  /** What the leader reads at an offset; a short read is the last one. */
  function Cut(name: Name, bytes: seq<bv8>, offset: nat): Chunk
    requires offset <= |bytes|
  {
    var data := bytes[offset..Min(offset + CHUNK_SIZE, |bytes|)];
    Chunk(name, offset, data, |data| < CHUNK_SIZE)
  }

  lemma CutFacts(name: Name, bytes: seq<bv8>, offset: nat)
    requires offset <= |bytes|
    ensures var c, n := Cut(name, bytes, offset), ChunkLength(|bytes|, offset);
            && c.name == name && c.offset == offset && |c.data| == n && c.done == (n < CHUNK_SIZE)
            && offset + n <= |bytes| && c.data == bytes[offset..offset + n]
  {
  }

  /** The transfer's file as far as it got: accepted chunks, and writes of the next one that failed. */
  function Received(s: State): seq<nat> {
    Layout(s.done) + Laid(s.expected, s.tries)
  }

  ghost predicate FileOk(truth: Name -> seq<bv8>, files: map<Name, seq<bv8>>, name: Name, layout: seq<nat>) {
    name in files && Within(layout, |truth(name)|) && files[name] == Render(truth(name), layout)
  }

  lemma RenderMore(bytes: seq<bv8>, layout: seq<nat>, offset: nat, count: nat)
    requires Within(layout, |bytes|) && offset + count <= |bytes|
    ensures Within(layout + Range(offset, count), |bytes|)
    ensures Render(bytes, layout + Range(offset, count)) == Render(bytes, layout) + bytes[offset..offset + count]
  {
  }

  lemma OneMoreTry(s: State, put: nat)
    ensures Received(s.(tries := s.tries + [put])) == Received(s) + Range(s.expected, put)
  {
    assert (s.tries + [put])[..|s.tries|] == s.tries;
    var a, b, c := Layout(s.done), Laid(s.expected, s.tries), Range(s.expected, put);
    assert a + (b + c) == a + b + c;
  }

  /** The files show what the state says they show. */
  ghost predicate TransferOk(truth: Name -> seq<bv8>, files: map<Name, seq<bv8>>, s: State) {
    && (s.path.Some? ==> s.restoring == None && Orderly(s, |truth(s.path.value)|))
    && (s.path.Some? && s.expected > 0 ==> FileOk(truth, files, s.path.value, Received(s)))
    && (s.restoring.Some? ==> HandedOk(truth, files, s.restoring.value))
  }

  ghost predicate HandedOk(truth: Name -> seq<bv8>, files: map<Name, seq<bv8>>, h: Handed) {
    Follow(h.attempts, |truth(h.name)|) && FileOk(truth, files, h.name, Layout(h.attempts))
  }

  /** The file once a write at the expected offset has put `put` octets there. */
  function WithPut(files: map<Name, seq<bv8>>, name: Name, bytes: seq<bv8>, offset: nat, put: nat): map<Name, seq<bv8>>
    requires name in files && offset + put <= |bytes|
  {
    files[name := files[name] + bytes[offset..offset + put]]
  }

  lemma PutShows(truth: Name -> seq<bv8>, files: map<Name, seq<bv8>>, s: State, name: Name, put: nat)
    requires s.path == Some(name) && Orderly(s, |truth(name)|) && FileOk(truth, files, name, Received(s))
    requires put <= ChunkLength(|truth(name)|, s.expected)
    ensures var s' := s.(tries := s.tries + [put]);
            && Orderly(s', |truth(name)|)
            && FileOk(truth, WithPut(files, name, truth(name), s.expected, put), name, Received(s'))
  {
    OneMoreTry(s, put);
    RenderMore(truth(name), Received(s), s.expected, put);
  }

  lemma AcceptedShows(truth: Name -> seq<bv8>, files: map<Name, seq<bv8>>, s: State, name: Name)
    requires s.path == Some(name) && s.restoring == None
    requires Orderly(s, |truth(name)|) && FileOk(truth, files, name, Received(s))
    ensures TransferOk(truth, files, Accepted(s, name, ChunkLength(|truth(name)|, s.expected)))
  {
    var length := ChunkLength(|truth(name)|, s.expected);
    var a := Attempt(s.expected, length, s.tries);
    OneMoreDone(s.done, a);
    assert Laid(s.expected + length, []) == [] && Layout(s.done + [a]) + [] == Layout(s.done + [a]);
  }

  lemma WriteKeeps(truth: Name -> seq<bv8>, files: map<Name, seq<bv8>>, s: State, name: Name, write: Write,
                   files': map<Name, seq<bv8>>)
    requires s.path == Some(name) && s.restoring == None && Orderly(s, |truth(name)|)
    requires write == Unopened ==> files' == files && (s.expected > 0 ==> FileOk(truth, files, name, Received(s)))
    requires write != Unopened ==>
               && FileOk(truth, files, name, Received(s))
               && var put := PutBy(write, ChunkLength(|truth(name)|, s.expected));
                  files' == WithPut(files, name, truth(name), s.expected, put)
    ensures TransferOk(truth, files', AfterWrite(s, name, ChunkLength(|truth(name)|, s.expected), write))
  {
    var put := PutBy(write, ChunkLength(|truth(name)|, s.expected));
    if write == Unopened {
      OneMoreTry(s, 0);
      assert Received(s) + Range(s.expected, 0) == Received(s);
    } else {
      PutShows(truth, files, s, name, put);
      if Accepts(write) {
        AcceptedShows(truth, files', s.(tries := s.tries + [put]), name);
      }
    }
  }

  class SnapshotReceiver {
    const truth: Name -> seq<bv8>
    var files: map<Name, seq<bv8>>
    var path: Option<Name>             // the file being received, if any
    var recvName: Name                 // index and term of the transfer
    var expectedOffset: nat
    var restoring: Option<Name>        // the file the state machine is reading
    ghost var state: State

    /** The fields are those of `state`, and the files show what it says they show. */
    ghost predicate Valid()
      reads this
    {
      Matches() && TransferOk(truth, files, state)
    }

    ghost predicate Matches()
      reads this
    {
      && path == state.path && (path.Some? ==> recvName == path.value && expectedOffset == state.expected)
      && restoring == if state.restoring.Some? then Some(state.restoring.value.name) else None
    }

    constructor (truth: Name -> seq<bv8>)
      ensures Valid() && this.truth == truth && state == IDLE
    {
      this.truth := truth;
      files, path, recvName, expectedOffset, restoring := map[], None, Name(0, 0), 0, None;
      state := IDLE;
    }

    /** One chunk, whatever transfer it belongs to. */
    method HandleChunk(name: Name, offset: nat, write: Write)
      requires Valid() && offset <= |truth(name)|
      modifies this
      ensures Valid() && state == AfterChunk(|truth(name)|, old(state), name, offset, write)
      ensures old(restoring).Some? ==> files == old(files)
    {
      var c := Cut(name, truth(name), offset);
      CutFacts(name, truth(name), offset);
      if c.offset == 0 && restoring.Some? {
        return;
      }
      if c.offset == 0 {
        Begin(c, write);
      } else if path == None || c.name != recvName || c.offset != expectedOffset {
        Reset();
      } else {
        Continue(c, write);
      }
    }

    method Continue(c: Chunk, write: Write)
      requires Valid() && path == Some(c.name) && 0 < expectedOffset <= |truth(c.name)|
      requires c == Cut(c.name, truth(c.name), expectedOffset)
      modifies this
      ensures Valid() && state == AfterWrite(old(state), c.name, |c.data|, write)
    {
      assert Awaits(c, write);
      AppendChunk(c, write);
    }

    method Begin(c: Chunk, write: Write)
      requires Valid() && restoring == None && c == Cut(c.name, truth(c.name), 0)
      modifies this
      ensures Valid() && state == AfterWrite(Opened(old(state), c.name), c.name, |c.data|, write)
    {
      Open(c, write);
      assert Awaits(c, write);
      AppendChunk(c, write);
    }

    /** The first chunk of a transfer starts a new file over whatever was there. */
    method Open(c: Chunk, write: Write)
      requires Valid() && restoring == None
      modifies this
      ensures Matches() && state == Opened(old(state), c.name) && state.restoring == None
      ensures write != Unopened ==> FileOk(truth, files, c.name, Received(state))
    {
      path, recvName, expectedOffset, state := Some(c.name), c.name, 0, Opened(state, c.name);
      if write != Unopened {
        files := files[c.name := []];
        assert Received(state) == [] && Render(truth(c.name), []) == [];
      }
    }

    /** A chunk from elsewhere: drop the transfer. */
    method Reset()
      requires Valid()
      modifies this
      ensures Valid() && state == Dropped(old(state))
      ensures restoring.Some? ==> files == old(files)
    {
      if path.Some? {
        files, path := files - {path.value}, None;
      }
      recvName, expectedOffset, state := Name(0, 0), 0, Dropped(state);
    }

    method AppendChunk(c: Chunk, write: Write)
      requires Matches() && Awaits(c, write)
      modifies this
      ensures Valid() && state == AfterWrite(old(state), c.name, |c.data|, write)
    {
      ghost var s, before := state, files;
      CutFacts(c.name, truth(c.name), state.expected);
      PutOctets(c, write);
      WriteKeeps(truth, before, s, c.name, write, files);
      MarkWritten(c, write);
    }

    /** The transfer is at this chunk, and its file, if the write opens it, is as far along. */
    ghost predicate Awaits(c: Chunk, write: Write)
      reads this
    {
      && state.path == Some(c.name) && state.restoring == None && Orderly(state, |truth(c.name)|)
      && c == Cut(c.name, truth(c.name), state.expected)
      && (write != Unopened || state.expected > 0 ==> FileOk(truth, files, c.name, Received(state)))
    }

    method PutOctets(c: Chunk, write: Write)
      requires c.offset + |c.data| <= |truth(c.name)| && c.data == truth(c.name)[c.offset..c.offset + |c.data|]
      requires write != Unopened ==> c.name in files
      modifies this`files
      ensures files == if write == Unopened then old(files)
                       else WithPut(old(files), c.name, truth(c.name), c.offset, PutBy(write, |c.data|))
    {
      var part := c.data;
      if write.Unopened? {
        return;
      } else if write.Failed? {
        part := c.data[..Min(write.written, |c.data|)];
      } else if write.Lost? {
        part := c.data[..Min(write.kept, |c.data|)];
      }
      assert part == truth(c.name)[c.offset..c.offset + PutBy(write, |c.data|)];
      files := files[c.name := files[c.name] + part];
    }

    method MarkWritten(c: Chunk, write: Write)
      requires Matches() && path == Some(c.name) && restoring == None && c.done == (|c.data| < CHUNK_SIZE)
      modifies this`path, this`recvName, this`expectedOffset, this`restoring, this`state
      ensures Matches() && state == AfterWrite(old(state), c.name, |c.data|, write)
    {
      state := AfterWrite(state, c.name, |c.data|, write);
      if write.Whole? || write.Lost? {
        expectedOffset := expectedOffset + |c.data|;
        if c.done {
          restoring, path := path, None;
          recvName, expectedOffset := Name(0, 0), 0;
        }
      }
    }

    /** The restore is over; its file goes. */
    method FinishRestore()
      requires Valid() && restoring.Some?
      modifies this
      ensures Valid() && state == old(state).(restoring := None)
    {
      files, restoring := files - {restoring.value}, None;
      state := state.(restoring := None);
    }
  }

  // ---------- any mixture of chunks ----------

  datatype Restored = Restored(name: Name, bytes: seq<bv8>)

  ghost predicate ReadsAs(truth: Name -> seq<bv8>, h: Handed, r: Restored) {
    && r.name == h.name && Follow(h.attempts, |truth(h.name)|) && Within(Layout(h.attempts), |truth(h.name)|)
    && r.bytes == Render(truth(h.name), Layout(h.attempts))
  }

  function SizesOf(truth: Name -> seq<bv8>): Name -> nat {
    name => |truth(name)|
  }

  /** Whatever chunks arrive and whatever becomes of their writes: what the state machine reads, file by file. */
  method ReceiveAll(truth: Name -> seq<bv8>, signals: seq<Signal>) returns (restored: seq<Restored>)
    requires forall e :: e in signals ==> Genuine(SizesOf(truth), e)
    ensures var handed := AllHanded(SizesOf(truth), signals);
            |restored| == |handed| && forall k :: 0 <= k < |handed| ==> ReadsAs(truth, handed[k], restored[k])
    ensures forall k :: 0 <= k < |restored| && EachOnce(AllHanded(SizesOf(truth), signals)[k].attempts) ==>
              restored[k].bytes == truth(restored[k].name)
  {
    var receiver := new SnapshotReceiver(truth);
    restored := [];
    for k := 0 to |signals|
      invariant fresh(receiver) && receiver.Valid() && receiver.truth == truth
      invariant receiver.state == AfterAll(SizesOf(truth), signals[..k])
      invariant var handed := AllHanded(SizesOf(truth), signals[..k]);
                |restored| == |handed| && forall j :: 0 <= j < |handed| ==> ReadsAs(truth, handed[j], restored[j])
    {
      assert signals[k] in signals && signals[..k + 1][..k] == signals[..k];
      match signals[k] {
        case Arrives(name, offset, write) => receiver.HandleChunk(name, offset, write);
        case RestoreEnds =>
          if receiver.restoring.Some? {
            var name := receiver.restoring.value;
            restored := restored + [Restored(name, receiver.files[name])];
            receiver.FinishRestore();
          }
      }
    }
    assert signals[..|signals|] == signals;
    forall k | 0 <= k < |restored| && EachOnce(AllHanded(SizesOf(truth), signals)[k].attempts)
      ensures restored[k].bytes == truth(restored[k].name)
    {
      InOrderIff(AllHanded(SizesOf(truth), signals)[k].attempts, |truth(restored[k].name)|);
    }
  }

  /** Chunk after chunk, as the leader cuts them: the snapshot arrives whole. */
  method TransferWhole(truth: Name -> seq<bv8>, name: Name) returns (bytes: seq<bv8>)
    ensures bytes == truth(name)
  {
    var receiver := new SnapshotReceiver(truth);
    var offset, handed := 0, false;
    while !handed
      invariant fresh(receiver) && receiver.Valid() && receiver.truth == truth && CleanSoFar(receiver.state)
      invariant handed == receiver.restoring.Some? && (handed ==> receiver.restoring == Some(name))
      invariant !handed ==> offset <= |truth(name)|
      invariant !handed && offset > 0 ==> receiver.state.path == Some(name) && receiver.state.expected == offset
      decreases !handed, |truth(name)| - offset
    {
      WholeKeepsClean(SizesOf(truth), receiver.state, Arrives(name, offset, Whole));
      receiver.HandleChunk(name, offset, Whole);
      offset, handed := offset + ChunkLength(|truth(name)|, offset), receiver.restoring.Some?;
    }
    ghost var h := receiver.state.restoring.value;
    InOrderIff(h.attempts, |truth(name)|);
    bytes := receiver.files[name];
  }

  // ---------- files that are not the snapshot ----------

  lemma OneSignalMore(sizes: Name -> nat, signals: seq<Signal>, e: Signal)
    requires forall x :: x in signals + [e] ==> Genuine(sizes, x)
    ensures forall x :: x in signals ==> Genuine(sizes, x)
    ensures AfterAll(sizes, signals + [e]) == After(sizes, AfterAll(sizes, signals), e)
    ensures var s := AfterAll(sizes, signals);
            AllHanded(sizes, signals + [e])
              == AllHanded(sizes, signals) + if e.RestoreEnds? && s.restoring.Some? then [s.restoring.value] else []
  {
    forall x | x in signals ensures Genuine(sizes, x) {
      assert x in signals + [e];
    }
    assert (signals + [e])[..|signals|] == signals;
  }

  const N := Name(1, 1)

  lemma ThreeChunks()
    ensures var n, first := CHUNK_SIZE, Attempt(0, CHUNK_SIZE, [CHUNK_SIZE]);
            && AfterChunk(n + 1, IDLE, N, 0, Whole) == State(Some(N), n, [first], [], None)
            && AfterChunk(n + 1, State(Some(N), n, [first], [], None), N, n, Failed(1))
                 == State(Some(N), n, [first], [1], None)
            && AfterChunk(n + 1, State(Some(N), n, [first], [1], None), N, n, Whole)
                 == IDLE.(restoring := Some(Handed(N, [first, Attempt(n, 1, [1, 1])])))
  {
    var n, first, second := CHUNK_SIZE, Attempt(0, CHUNK_SIZE, [CHUNK_SIZE]), Attempt(CHUNK_SIZE, 1, [1, 1]);
    assert [] + [n] == [n] && [] + [first] == [first] && [] + [1] == [1];
    assert [1] + [1] == [1, 1] && [first] + [second] == [first, second];
  }

  /** A continuation chunk whose write fails after one octet and is then sent again: the octet is in the file twice. */
  lemma FailedWriteGoesUnnoticed() returns (sizes: Name -> nat, signals: seq<Signal>)
    ensures signals == [Arrives(N, 0, Whole), Arrives(N, CHUNK_SIZE, Failed(1)), Arrives(N, CHUNK_SIZE, Whole),
                        RestoreEnds]
    ensures (forall e :: e in signals ==> Genuine(sizes, e)) && |AllHanded(sizes, signals)| == 1
    ensures !EachOnce(AllHanded(sizes, signals)[0].attempts)
  {
    var n := CHUNK_SIZE;
    sizes := _ => n + 1;
    var e0, e1, e2 := Arrives(N, 0, Whole), Arrives(N, n, Failed(1)), Arrives(N, n, Whole);
    signals := [e0, e1, e2, RestoreEnds];
    assert signals == [e0, e1, e2] + [RestoreEnds];
    OneSignalMore(sizes, [], e0);
    OneSignalMore(sizes, [e0], e1);
    OneSignalMore(sizes, [e0, e1], e2);
    OneSignalMore(sizes, [e0, e1, e2], RestoreEnds);
    assert [] + [e0] == [e0] && [e0] + [e1] == [e0, e1] && [e0, e1] + [e2] == [e0, e1, e2];
    var first, second := Attempt(0, n, [n]), Attempt(n, 1, [1, 1]);
    ThreeChunks();
    assert AfterAll(sizes, [e0]) == State(Some(N), n, [first], [], None);
    assert AfterAll(sizes, [e0, e1]) == State(Some(N), n, [first], [1], None);
    assert AfterAll(sizes, [e0, e1, e2]) == IDLE.(restoring := Some(Handed(N, [first, second])));
    assert second.puts[0] == 1 && second.puts[1] == 1;
    assert [first, second][1] == second && !Once(second);
  }

  lemma LostChunk()
    ensures AfterChunk(1, IDLE, N, 0, Lost(0)) == IDLE.(restoring := Some(Handed(N, [Attempt(0, 1, [0])])))
  {
    assert [] + [0] == [0] && [] + [Attempt(0, 1, [0])] == [Attempt(0, 1, [0])];
  }

  lemma LostIsNotOnce()
    ensures !EachOnce([Attempt(0, 1, [0])])
  {
    assert [Attempt(0, 1, [0])][0].puts[0] == 0;
    assert !Once([Attempt(0, 1, [0])][0]);
  }

  /** A one-octet snapshot whose octet is lost when the stream closes: an empty file is restored. */
  lemma LossAtCloseGoesUnnoticed() returns (sizes: Name -> nat, signals: seq<Signal>)
    ensures signals == [Arrives(N, 0, Lost(0)), RestoreEnds]
    ensures (forall e :: e in signals ==> Genuine(sizes, e)) && |AllHanded(sizes, signals)| == 1
    ensures !EachOnce(AllHanded(sizes, signals)[0].attempts)
  {
    sizes := _ => 1;
    var e0 := Arrives(N, 0, Lost(0));
    signals := [e0, RestoreEnds];
    assert signals == [e0] + [RestoreEnds] && [] + [e0] == [e0];
    OneSignalMore(sizes, [], e0);
    OneSignalMore(sizes, [e0], RestoreEnds);
    LostChunk();
    LostIsNotOnce();
  }
}
