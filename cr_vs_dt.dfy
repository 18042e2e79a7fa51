/**
 The point selector of the "compression ratio vs. decompression throughput"
 plot. A table of entries (name, compression ratio, throughput, marker), where
 the ratio and the throughput may be missing, is filtered into four parallel
 lists (x-values, y-values, labels, markers), one element per plotted point.

 The script's module-level settings (the table, the mode flag and the
 conceptual ranking) are parameters here. Ratios and throughputs are never
 computed on, only copied, so they are `real` values used opaquely.
 */
module CrVsDt {
  import opened Wrappers

  /** One row of the table: name, compression ratio, throughput in GB/s, marker shape. */
  datatype Entry = Entry(name: string, ratio: Option<real>, throughput: Option<real>, marker: string)

  /** A y-value: a measured throughput (numeric mode) or a conceptual rank (conceptual mode). */
  datatype YValue = Measured(gbs: real) | Ranked(level: int)

  /** One plotted point: the i-th elements of the four parallel output lists. */
  datatype Point = Point(x: real, y: YValue, name: string, marker: string)

  // ---------------------------------------------------------------------------
  // Specification
  // ---------------------------------------------------------------------------

  /** The point an entry contributes, or None when the selector skips it. */
  function PointOf(e: Entry, useConceptualY: bool, ranks: map<string, int>): Option<Point>
  {
    if e.ratio.None? then None
    else if useConceptualY then
      if e.name in ranks then Some(Point(e.ratio.value, Ranked(ranks[e.name]), e.name, e.marker)) else None
    else
      if e.throughput.Some? then Some(Point(e.ratio.value, Measured(e.throughput.value), e.name, e.marker)) else None
  }

  predicate Kept(e: Entry, useConceptualY: bool, ranks: map<string, int>)
  {
    PointOf(e, useConceptualY, ranks).Some?
  }

  function Emit(o: Option<Point>): seq<Point>
  {
    match o
    case None => []
    case Some(p) => [p]
  }

  /** The selector's output as a list of points, built in table order. */
  function Select(data: seq<Entry>, useConceptualY: bool, ranks: map<string, int>): (r: seq<Point>)
    ensures |r| <= |data|
  {
    if data == [] then []
    else Select(data[..|data| - 1], useConceptualY, ranks) + Emit(PointOf(data[|data| - 1], useConceptualY, ranks))
  }

  /** The table positions of the entries that contribute a point, in increasing order. */
  function KeptIndices(data: seq<Entry>, useConceptualY: bool, ranks: map<string, int>): (r: seq<nat>)
    ensures forall k :: 0 <= k < |r| ==> r[k] < |data|
    ensures forall a, b :: 0 <= a < b < |r| ==> r[a] < r[b]
    ensures forall j :: 0 <= j < |data| ==> (j in r <==> Kept(data[j], useConceptualY, ranks))
  {
    if data == [] then []
    else
      var n := |data| - 1;
      var prefix := KeptIndices(data[..n], useConceptualY, ranks);
      assert forall j :: 0 <= j < n ==> data[..n][j] == data[j];
      prefix + (if Kept(data[n], useConceptualY, ranks) then [n] else [])
  }

  // ---------------------------------------------------------------------------
  // The selection loop
  // ---------------------------------------------------------------------------

  /**
   Walks the table once, skipping an entry without a ratio, and then, by mode,
   one without a rank or one without a throughput; every other entry appends
   its ratio, y-value, name and marker to the four lists together.
   */
  method BuildPoints(data: seq<Entry>, useConceptualY: bool, ranks: map<string, int>)
    returns (xs: seq<real>, ys: seq<YValue>, labels: seq<string>, markers: seq<string>)
    ensures |xs| == |ys| == |labels| == |markers| == |Select(data, useConceptualY, ranks)|
    ensures |xs| <= |data|
    ensures forall k :: 0 <= k < |xs| ==>
      Select(data, useConceptualY, ranks)[k] == Point(xs[k], ys[k], labels[k], markers[k])
  {
    xs, ys, labels, markers := [], [], [], [];
    for i := 0 to |data|
      invariant |xs| == |ys| == |labels| == |markers| == |Select(data[..i], useConceptualY, ranks)|
      invariant forall k :: 0 <= k < |xs| ==>
        Select(data[..i], useConceptualY, ranks)[k] == Point(xs[k], ys[k], labels[k], markers[k])
    {
      assert data[..i + 1][..i] == data[..i];
      var e := data[i];
      if e.ratio.None? {
        continue;
      }
      var y: YValue;
      if useConceptualY {
        if e.name !in ranks {
          continue;
        }
        y := Ranked(ranks[e.name]);
      } else {
        if e.throughput.None? {
          continue;
        }
        y := Measured(e.throughput.value);
      }
      xs := xs + [e.ratio.value];
      ys := ys + [y];
      labels := labels + [e.name];
      markers := markers + [e.marker];
    }
    assert data[..|data|] == data;
  }

  // ---------------------------------------------------------------------------
  // Properties of the selection
  // ---------------------------------------------------------------------------

  /** The k-th point is the point of the k-th kept entry: the output is exactly the kept entries, in table order. */
  lemma {:induction false} SelectAt(data: seq<Entry>, useConceptualY: bool, ranks: map<string, int>)
    ensures |Select(data, useConceptualY, ranks)| == |KeptIndices(data, useConceptualY, ranks)|
    ensures forall k :: 0 <= k < |Select(data, useConceptualY, ranks)| ==>
      PointOf(data[KeptIndices(data, useConceptualY, ranks)[k]], useConceptualY, ranks)
        == Some(Select(data, useConceptualY, ranks)[k])
  {
    if data != [] {
      var n := |data| - 1;
      var p := data[..n];
      SelectAt(p, useConceptualY, ranks);
      var sel, ki := Select(data, useConceptualY, ranks), KeptIndices(data, useConceptualY, ranks);
      var selP, kiP := Select(p, useConceptualY, ranks), KeptIndices(p, useConceptualY, ranks);
      assert |sel| == |ki|;
      forall k | 0 <= k < |sel|
        ensures PointOf(data[ki[k]], useConceptualY, ranks) == Some(sel[k])
      {
        if k < |selP| {
          assert ki[k] == kiP[k] && sel[k] == selP[k];
          assert data[ki[k]] == p[kiP[k]];
        } else {
          assert ki[k] == n;
        }
      }
    }
  }

  /** Selection distributes over concatenation of tables. */
  lemma {:induction false} SelectAppend(a: seq<Entry>, b: seq<Entry>, useConceptualY: bool, ranks: map<string, int>)
    ensures Select(a + b, useConceptualY, ranks) == Select(a, useConceptualY, ranks) + Select(b, useConceptualY, ranks)
  {
    if b == [] {
      assert a + b == a;
    } else {
      var n := |b| - 1;
      assert (a + b)[..|a + b| - 1] == a + b[..n];
      SelectAppend(a, b[..n], useConceptualY, ranks);
    }
  }

  /** An entry without a compression ratio never contributes, in either mode: removing it changes nothing. */
  lemma RatiolessEntryIgnored(a: seq<Entry>, e: Entry, b: seq<Entry>, useConceptualY: bool, ranks: map<string, int>)
    requires e.ratio.None?
    ensures Select(a + [e] + b, useConceptualY, ranks) == Select(a + b, useConceptualY, ranks)
  {
    assert [e][..0] == [];
    assert Select([e], useConceptualY, ranks) == [];
    SelectAppend(a, [e], useConceptualY, ranks);
    assert Select(a + [e], useConceptualY, ranks) == Select(a, useConceptualY, ranks);
    SelectAppend(a + [e], b, useConceptualY, ranks);
    SelectAppend(a, b, useConceptualY, ranks);
  }

  /**
   Numeric mode: entry j yields a point iff it has both a ratio and a
   throughput, and that point then carries the throughput as its y-value.
   */
  lemma NumericMode(data: seq<Entry>, ranks: map<string, int>, j: nat)
    requires j < |data|
    ensures |Select(data, false, ranks)| == |KeptIndices(data, false, ranks)|
    ensures j in KeptIndices(data, false, ranks) <==> data[j].ratio.Some? && data[j].throughput.Some?
    ensures data[j].ratio.Some? && data[j].throughput.Some? ==>
      exists k :: 0 <= k < |Select(data, false, ranks)| && KeptIndices(data, false, ranks)[k] == j &&
        Select(data, false, ranks)[k] == Point(data[j].ratio.value, Measured(data[j].throughput.value), data[j].name, data[j].marker)
  {
    SelectAt(data, false, ranks);
    var ki := KeptIndices(data, false, ranks);
    if data[j].ratio.Some? && data[j].throughput.Some? {
      var k :| 0 <= k < |ki| && ki[k] == j;
      assert PointOf(data[j], false, ranks) == Some(Select(data, false, ranks)[k]);
    }
  }

  /**
   Conceptual mode: entry j yields a point iff it has a ratio and its name has
   a rank, and that point then carries the rank as its y-value.
   */
  lemma ConceptualMode(data: seq<Entry>, ranks: map<string, int>, j: nat)
    requires j < |data|
    ensures |Select(data, true, ranks)| == |KeptIndices(data, true, ranks)|
    ensures j in KeptIndices(data, true, ranks) <==> data[j].ratio.Some? && data[j].name in ranks
    ensures data[j].ratio.Some? && data[j].name in ranks ==>
      exists k :: 0 <= k < |Select(data, true, ranks)| && KeptIndices(data, true, ranks)[k] == j &&
        Select(data, true, ranks)[k] == Point(data[j].ratio.value, Ranked(ranks[data[j].name]), data[j].name, data[j].marker)
  {
    SelectAt(data, true, ranks);
    var ki := KeptIndices(data, true, ranks);
    if data[j].ratio.Some? && data[j].name in ranks {
      var k :| 0 <= k < |ki| && ki[k] == j;
      assert PointOf(data[j], true, ranks) == Some(Select(data, true, ranks)[k]);
    }
  }

  /** Two tables that differ at most in their throughputs. */
  predicate SameButThroughput(data: seq<Entry>, other: seq<Entry>)
  {
    |data| == |other| &&
    forall i :: 0 <= i < |data| ==> data[i].(throughput := other[i].throughput) == other[i]
  }

  /** Conceptual mode ignores throughput entirely. */
  lemma {:induction false} ConceptualIgnoresThroughput(data: seq<Entry>, other: seq<Entry>, ranks: map<string, int>)
    requires SameButThroughput(data, other)
    ensures Select(data, true, ranks) == Select(other, true, ranks)
  {
    if data != [] {
      var n := |data| - 1;
      assert data[n].(throughput := other[n].throughput) == other[n];
      ConceptualIgnoresThroughput(data[..n], other[..n], ranks);
    }
  }

  /** Numeric mode ignores the conceptual ranking entirely. */
  lemma {:induction false} NumericIgnoresRanks(data: seq<Entry>, ranks: map<string, int>, otherRanks: map<string, int>)
    ensures Select(data, false, ranks) == Select(data, false, otherRanks)
  {
    if data != [] {
      NumericIgnoresRanks(data[..|data| - 1], ranks, otherRanks);
    }
  }

  // ---------------------------------------------------------------------------
  // The script's own table and ranking
  // ---------------------------------------------------------------------------

  const Table: seq<Entry> := [
    Entry("FSST (CPU)", Some(2.71), None, "o"),
    Entry("GSST (GPU, A100)", Some(2.74), Some(191.0), "s")
  ]

  const ConceptualRanks: map<string, int> := map["FSST (CPU)" := 4, "GSST (GPU, A100)" := 5]

  /** With the script's table in numeric mode, only the GSST entry is plotted (FSST has no throughput). */
  lemma TableNumeric()
    ensures Select(Table, false, ConceptualRanks) == [Point(2.74, Measured(191.0), "GSST (GPU, A100)", "s")]
  {
  }

  /** With the script's table in conceptual mode, both entries are plotted in table order with ranks 4 and 5. */
  lemma TableConceptual()
    ensures Select(Table, true, ConceptualRanks) ==
      [Point(2.71, Ranked(4), "FSST (CPU)", "o"), Point(2.74, Ranked(5), "GSST (GPU, A100)", "s")]
  {
  }
}
