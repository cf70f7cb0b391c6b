/** The write-ahead log's index: what it means as a map, and the vector that keeps it. */
module WalIndexes {

  import opened RaftTypes

  /** Where a record sits; segment 0 marks a hole. */
  datatype Location = Location(segment: nat, offset: nat, length: nat)

  const HOLE := Location(0, 0, 0)

  type Index = map<nat, Location>

  function Stored(m: Index, index: nat, loc: Location): Index {
    if loc.segment == 0 then m - {index} else m[index := loc]
  }

  function DroppedBelow(m: Index, before: nat): Index {
    map i | i in m && i >= before :: m[i]
  }

  function DroppedFrom(m: Index, from: nat): Index {
    map i | i in m && i < from :: m[i]
  }

  function Slot(first: nat, slots: seq<Location>, i: nat): Location {
    if first <= i < first + |slots| then slots[i - first] else HOLE
  }

  /** A vector of slots from `first` on, read as a map: holes are absent keys. */
  function LiveSlots(first: nat, slots: seq<Location>): Index {
    map i: nat | first <= i < first + |slots| && Slot(first, slots, i).segment != 0 :: Slot(first, slots, i)
  }

  // ---------- operations on the map and on the vector ----------

  datatype Op = Put(index: nat, loc: Location) | DropBelow(before: nat) | DropFrom(from: nat)

  function Apply(m: Index, op: Op): Index {
    match op
    case Put(i, loc) => Stored(m, i, loc)
    case DropBelow(b) => DroppedBelow(m, b)
    case DropFrom(f) => DroppedFrom(m, f)
  }

  datatype Vector = Vector(first: nat, slots: seq<Location>)
  {
    /** The range the index reports; (0, 0) when it is empty. */
    function Last(): nat {
      if slots == [] then 0 else first + |slots| - 1
    }

    function Map(): Index {
      LiveSlots(first, slots)
    }
  }

  const EMPTY := Vector(0, [])

  /** The vector grown with holes until it has a slot for `index`. */
  function Grown(v: Vector, index: nat): Vector
    requires v.slots != []
  {
    var low := if index < v.first then Vector(index, seq(v.first - index, _ => HOLE) + v.slots) else v;
    if index > low.Last() then low.(slots := low.slots + seq(index - low.Last(), _ => HOLE)) else low
  }

  function Edit(v: Vector, op: Op): Vector {
    match op
    case Put(i, loc) =>
      if v.slots == [] then Vector(i, [loc])
      else
        var g := Grown(v, i);
        g.(slots := g.slots[i - g.first := loc])
    case DropBelow(b) =>
      if v.slots == [] || b <= v.first then v
      else if b > v.Last() then EMPTY
      else Vector(b, v.slots[b - v.first..])
    case DropFrom(f) =>
      if v.slots == [] || f > v.Last() then v
      else if f <= v.first then EMPTY
      else v.(slots := v.slots[..f - v.first])
  }

  lemma GrownKeepsMap(v: Vector, index: nat)
    requires v.slots != []
    ensures Grown(v, index).Map() == v.Map() && Grown(v, index).slots != []
    ensures Grown(v, index).first == Min(v.first, index) && Grown(v, index).Last() == Max(v.Last(), index)
  {
  }

  lemma PutIsStored(v: Vector, i: nat, loc: Location)
    ensures Edit(v, Put(i, loc)).Map() == Stored(v.Map(), i, loc)
  {
    if v.slots != [] {
      GrownKeepsMap(v, i);
      PutInSlot(Grown(v, i), i, loc);
    }
  }

  lemma PutInSlot(v: Vector, i: nat, loc: Location)
    requires v.first <= i < v.first + |v.slots|
    ensures v.(slots := v.slots[i - v.first := loc]).Map() == Stored(v.Map(), i, loc)
  {
  }

  lemma BelowIsDropped(v: Vector, b: nat)
    ensures Edit(v, DropBelow(b)).Map() == DroppedBelow(v.Map(), b)
  {
  }

  lemma FromIsDropped(v: Vector, f: nat)
    ensures Edit(v, DropFrom(f)).Map() == DroppedFrom(v.Map(), f)
  {
  }

  /** The vector keeps the map: gaps are absent keys. */
  lemma EditIsApply(v: Vector, op: Op)
    ensures Edit(v, op).Map() == Apply(v.Map(), op)
  {
    match op
    case Put(i, loc) => PutIsStored(v, i, loc);
    case DropBelow(b) => BelowIsDropped(v, b);
    case DropFrom(f) => FromIsDropped(v, f);
  }

  // ---------- the reported range ----------

  /** The range reported is that of the live keys: empty with none, else with a live key at either end. */
  predicate Tight(v: Vector) {
    if v.slots == [] then true else v.first in v.Map() && v.Last() in v.Map()
  }

  /** The operation leaves a hole at an end, from a range that had none. */
  predicate Loosens(v: Vector, op: Op) {
    match op
    case Put(i, loc) => loc.segment == 0 && (v.slots == [] || i <= v.first || i >= v.Last())
    case DropBelow(b) => v.slots != [] && v.first < b <= v.Last() && b !in v.Map()
    case DropFrom(f) => v.slots != [] && v.first < f <= v.Last() && f - 1 !in v.Map()
  }

  lemma PutKeepsTightIff(v: Vector, i: nat, loc: Location)
    requires Tight(v)
    ensures Tight(Edit(v, Put(i, loc))) <==> !Loosens(v, Put(i, loc))
  {
    if v.slots != [] {
      GrownKeepsMap(v, i);
      PutIsStored(v, i, loc);
      var w := Edit(v, Put(i, loc));
      assert w.first == Min(v.first, i) && w.Last() == Max(v.Last(), i);
    }
  }

  lemma CutKeepsTightIff(v: Vector, op: Op)
    requires Tight(v) && !op.Put?
    ensures Tight(Edit(v, op)) <==> !Loosens(v, op)
  {
    EditIsApply(v, op);
  }

  lemma EditKeepsTightIff(v: Vector, op: Op)
    requires Tight(v)
    ensures Tight(Edit(v, op)) <==> !Loosens(v, op)
  {
    match op
    case Put(i, loc) => PutKeepsTightIff(v, i, loc);
    case _ => CutKeepsTightIff(v, op);
  }

  function AfterOps(ops: seq<Op>): Vector {
    if ops == [] then EMPTY else Edit(AfterOps(ops[..|ops| - 1]), ops[|ops| - 1])
  }

  predicate TightAt(ops: seq<Op>, k: nat)
    requires k <= |ops|
  {
    Tight(AfterOps(ops[..k]))
  }

  predicate LoosensAt(ops: seq<Op>, k: nat)
    requires k < |ops|
  {
    Loosens(AfterOps(ops[..k]), ops[k])
  }

  lemma OneOpFurther(ops: seq<Op>, k: nat)
    requires k < |ops| && TightAt(ops, k)
    ensures TightAt(ops, k + 1) <==> !LoosensAt(ops, k)
  {
    assert ops[..k + 1][..k] == ops[..k];
    EditKeepsTightIff(AfterOps(ops[..k]), ops[k]);
  }

  /**
   * Through any sequence of stores and truncations the reported range is that of the live keys
   * throughout, exactly when no truncation met a hole where it cut.
   */
  lemma {:induction false} TightThroughoutIff(ops: seq<Op>, n: nat)
    requires n <= |ops|
    ensures (forall k :: 0 <= k <= n ==> TightAt(ops, k)) <==> (forall k :: 0 <= k < n ==> !LoosensAt(ops, k))
  {
    if n == 0 {
      assert ops[..0] == [];
    } else {
      TightThroughoutIff(ops, n - 1);
      if TightAt(ops, n - 1) {
        OneOpFurther(ops, n - 1);
      }
    }
  }

  lemma OneOpMore(ops: seq<Op>, op: Op)
    ensures AfterOps(ops + [op]) == Edit(AfterOps(ops), op)
  {
    assert (ops + [op])[..|ops|] == ops;
  }

  const SPOT := Location(1, 64, 20)

  /** Entries 1 and 5, then a cut at 4: the range reported is 1..3, and only 1 is live. */
  lemma RangeEndsInHoles() returns (ops: seq<Op>)
    ensures ops == [Put(1, SPOT), Put(5, SPOT), DropFrom(4)]
    ensures var v := AfterOps(ops); v.first == 1 && v.Last() == 3 && v.Map() == map[1 := SPOT]
  {
    ops := [Put(1, SPOT), Put(5, SPOT), DropFrom(4)];
    TwoFarApart();
    assert ops == [Put(1, SPOT), Put(5, SPOT)] + [DropFrom(4)];
    OneOpMore([Put(1, SPOT), Put(5, SPOT)], DropFrom(4));
  }

  lemma TwoFarApart()
    ensures AfterOps([Put(1, SPOT), Put(5, SPOT)]) == Vector(1, [SPOT, HOLE, HOLE, HOLE, SPOT])
  {
    OneOpMore([], Put(1, SPOT));
    OneOpMore([Put(1, SPOT)], Put(5, SPOT));
    assert [] + [Put(1, SPOT)] == [Put(1, SPOT)] && [Put(1, SPOT)] + [Put(5, SPOT)] == [Put(1, SPOT), Put(5, SPOT)];
  }

  /** The same two, then everything below 3 and from 5 on dropped: a range of two holes, and no entry at all. */
  lemma RangeOfHoles() returns (ops: seq<Op>)
    ensures ops == [Put(1, SPOT), Put(5, SPOT), DropBelow(3), DropFrom(5)]
    ensures var v := AfterOps(ops); v.first == 3 && v.Last() == 4 && v.Map() == map[]
  {
    ops := [Put(1, SPOT), Put(5, SPOT), DropBelow(3), DropFrom(5)];
    TwoFarApart();
    OneOpMore([Put(1, SPOT), Put(5, SPOT)], DropBelow(3));
    OneOpMore([Put(1, SPOT), Put(5, SPOT), DropBelow(3)], DropFrom(5));
    assert [Put(1, SPOT), Put(5, SPOT)] + [DropBelow(3)] == [Put(1, SPOT), Put(5, SPOT), DropBelow(3)];
    assert ops == [Put(1, SPOT), Put(5, SPOT), DropBelow(3)] + [DropFrom(5)];
    assert AfterOps([Put(1, SPOT), Put(5, SPOT), DropBelow(3)]) == Vector(3, [HOLE, HOLE, SPOT]);
  }

  // ---------- the vector in place ----------

  class DenseIndex {
    var firstIndex: nat
    var entries: seq<Location>

    function View(): Vector
      reads this
    {
      Vector(firstIndex, entries)
    }

    function Map(): Index
      reads this
    {
      LiveSlots(firstIndex, entries)
    }

    constructor ()
      ensures View() == EMPTY && Map() == map[]
    {
      firstIndex, entries := 0, [];
    }

    function LastIndex(): (last: nat)
      reads this
      ensures last == View().Last() && forall i :: i in Map() ==> firstIndex <= i <= last
    {
      if entries == [] then 0 else firstIndex + |entries| - 1
    }

    function Get(index: nat): (r: Option<Location>)
      reads this
      ensures r == if index in Map() then Some(Map()[index]) else None
    {
      if entries == [] || index < firstIndex || index > LastIndex() then None
      else
        var e := entries[index - firstIndex];
        if e.segment == 0 then None else Some(e)
    }

    method Put(index: nat, entry: Location)
      modifies this
      ensures View() == Edit(old(View()), Op.Put(index, entry)) && Map() == Stored(old(Map()), index, entry)
    {
      EditIsApply(View(), Op.Put(index, entry));
      if entries == [] {
        firstIndex, entries := index, [entry];
        return;
      }
      if index < firstIndex {
        entries := seq(firstIndex - index, _ => HOLE) + entries;
        firstIndex := index;
      }
      var last := LastIndex();
      if index > last {
        entries := entries + seq(index - last, _ => HOLE);
      }
      entries := entries[index - firstIndex := entry];
    }

    method TruncatePrefix(before: nat)
      modifies this
      ensures View() == Edit(old(View()), DropBelow(before)) && Map() == DroppedBelow(old(Map()), before)
    {
      EditIsApply(View(), DropBelow(before));
      if entries == [] || before <= firstIndex {
        return;
      }
      if before > LastIndex() + 1 {
        Clear();
        return;
      }
      var remove := before - firstIndex;
      if remove >= |entries| {
        Clear();
        return;
      }
      entries, firstIndex := entries[remove..], firstIndex + remove;
    }

    method TruncateSuffix(from: nat)
      modifies this
      ensures View() == Edit(old(View()), DropFrom(from)) && Map() == DroppedFrom(old(Map()), from)
    {
      EditIsApply(View(), DropFrom(from));
      if entries == [] || from > LastIndex() + 1 {
        return;
      }
      if from <= firstIndex {
        Clear();
        return;
      }
      entries := entries[..from - firstIndex];
    }

    method Clear()
      modifies this
      ensures View() == EMPTY && Map() == map[]
    {
      firstIndex, entries := 0, [];
    }
  }
}
