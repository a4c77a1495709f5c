/** The counts behind the two charts (js/stats/charts.js): listings per
    neighbourhood and the DPE histogram. A JavaScript object used as a
    counter is modelled as its list of entries in key insertion order. */
module Charts {
  import opened Config
  import opened Listing
  import opened Seqs
  import Format

  datatype Entry = Entry(key: string, count: nat)

  function Keys(t: seq<Entry>): (r: seq<string>)
    ensures |r| == |t| && forall i :: 0 <= i < |t| ==> r[i] == t[i].key
  {
    seq(|t|, i requires 0 <= i < |t| => t[i].key)
  }

  predicate DistinctKeys(t: seq<Entry>) {
    forall i, j :: 0 <= i < j < |t| ==> t[i].key != t[j].key
  }

  /** `acc[k] || 0`. */
  function Lookup(t: seq<Entry>, k: string): nat
    decreases |t|
  {
    if |t| == 0 then 0 else if t[0].key == k then t[0].count else Lookup(t[1..], k)
  }

  /** Sum of all counts (what the pie chart divides by). */
  function Total(t: seq<Entry>): nat
    decreases |t|
  {
    if |t| == 0 then 0 else t[0].count + Total(t[1..])
  }

  /** `acc[k] = (acc[k] || 0) + 1`: an existing key keeps its place and
      gains one; a new key is appended with count 1. */
  function Bump(t: seq<Entry>, k: string): (r: seq<Entry>)
    ensures Keys(r) == Keys(t) + (if k in Keys(t) then [] else [k])
    ensures forall j :: Lookup(r, j) == Lookup(t, j) + (if j == k then 1 else 0)
    ensures Total(r) == Total(t) + 1
    decreases |t|
  {
    if |t| == 0 then [Entry(k, 1)]
    else if t[0].key == k then [Entry(k, t[0].count + 1)] + t[1..]
    else
      var rest := Bump(t[1..], k);
      assert Keys(t) == [t[0].key] + Keys(t[1..]);
      assert Keys([t[0]] + rest) == [t[0].key] + Keys(rest);
      [t[0]] + rest
  }

  /** Bumping never duplicates a key. */
  lemma BumpKeepsDistinct(t: seq<Entry>, k: string)
    requires DistinctKeys(t)
    ensures DistinctKeys(Bump(t, k))
  {
    var r := Bump(t, k);
    forall i, j | 0 <= i < j < |r| ensures r[i].key != r[j].key {
      assert Keys(r)[i] == r[i].key && Keys(r)[j] == r[j].key;
      if j < |t| {
        assert Keys(t)[i] == t[i].key && Keys(t)[j] == t[j].key;
      } else {
        assert Keys(t)[i] == t[i].key;
      }
    }
  }

  /** The counter after counting `values` one by one from `init`. */
  function Tallied(init: seq<Entry>, values: seq<string>): seq<Entry>
    decreases |values|
  {
    if |values| == 0 then init
    else Bump(Tallied(init, values[..|values| - 1]), values[|values| - 1])
  }

  function Occurrences(values: seq<string>, k: string): nat {
    CountIf(values, (v: string) => v == k)
  }

  /** Counting keeps the initial keys first and in order, adds each new
      value once in order of first occurrence, gives every key the initial
      count plus its number of occurrences, and adds one to the total per
      value. */
  lemma TalliedSpec(init: seq<Entry>, values: seq<string>)
    requires DistinctKeys(init)
    ensures var t := Tallied(init, values);
            DistinctKeys(t) &&
            |Keys(t)| >= |init| && Keys(t)[..|init|] == Keys(init) &&
            (forall k :: k in Keys(t) <==> k in Keys(init) || k in values) &&
            (forall k :: Lookup(t, k) == Lookup(init, k) + Occurrences(values, k)) &&
            Total(t) == Total(init) + |values|
  {
    TalliedDistinct(init, values);
    TalliedPrefix(init, values);
    TalliedMembers(init, values);
    TalliedCounts(init, values);
  }

  lemma {:induction false} TalliedDistinct(init: seq<Entry>, values: seq<string>)
    requires DistinctKeys(init)
    ensures DistinctKeys(Tallied(init, values))
    decreases |values|
  {
    if |values| > 0 {
      TalliedDistinct(init, values[..|values| - 1]);
      BumpKeepsDistinct(Tallied(init, values[..|values| - 1]), values[|values| - 1]);
    }
  }

  lemma {:induction false} TalliedPrefix(init: seq<Entry>, values: seq<string>)
    ensures |Keys(Tallied(init, values))| >= |init|
    ensures Keys(Tallied(init, values))[..|init|] == Keys(init)
    decreases |values|
  {
    if |values| > 0 {
      var t0 := Tallied(init, values[..|values| - 1]);
      TalliedPrefix(init, values[..|values| - 1]);
      var x := values[|values| - 1];
      assert Keys(Bump(t0, x))[..|init|] == Keys(t0)[..|init|];
    }
  }

  lemma {:induction false} TalliedMembers(init: seq<Entry>, values: seq<string>)
    ensures forall k :: k in Keys(Tallied(init, values)) <==> k in Keys(init) || k in values
    decreases |values|
  {
    if |values| > 0 {
      var pre := values[..|values| - 1];
      var x := values[|values| - 1];
      var t0 := Tallied(init, pre);
      TalliedMembers(init, pre);
      assert values == pre + [x];
      assert Keys(Tallied(init, values)) == Keys(t0) + (if x in Keys(t0) then [] else [x]);
      forall k ensures k in Keys(Tallied(init, values)) <==> k in Keys(init) || k in values {
        assert k in values <==> k in pre || k == x;
      }
    }
  }

  lemma {:induction false} TalliedCounts(init: seq<Entry>, values: seq<string>)
    ensures var t := Tallied(init, values);
            (forall k :: Lookup(t, k) == Lookup(init, k) + Occurrences(values, k)) &&
            Total(t) == Total(init) + |values|
    decreases |values|
  {
    if |values| > 0 {
      var pre := values[..|values| - 1];
      var x := values[|values| - 1];
      TalliedCounts(init, pre);
      assert values == pre + [x];
      forall k ensures Occurrences(values, k) == Occurrences(pre, k) + (if x == k then 1 else 0) {
        CountIfSnoc(pre, x, (v: string) => v == k);
      }
    }
  }

  function Values(biens: seq<Bien>, prop: Bien -> string): (r: seq<string>)
    ensures |r| == |biens| && forall i :: 0 <= i < |biens| ==> r[i] == prop(biens[i])
  {
    seq(|biens|, i requires 0 <= i < |biens| => prop(biens[i]))
  }

  /** `countByProperty(prop)`: folds the listings into a counter keyed by
      the property's value. */
  method CountByProperty(biens: seq<Bien>, prop: Bien -> string) returns (acc: seq<Entry>)
    ensures acc == Tallied([], Values(biens, prop))
  {
    acc := [];
    var i := 0;
    while i < |biens|
      invariant 0 <= i <= |biens|
      invariant acc == Tallied([], Values(biens[..i], prop))
    {
      var v := Values(biens[..i + 1], prop);
      assert v[..i] == Values(biens[..i], prop);
      acc := Bump(acc, prop(biens[i]));
      i := i + 1;
    }
    assert biens[..i] == biens;
  }

  /** The neighbourhood chart lists each neighbourhood once with its number
      of listings, and the bars add up to the number of listings. */
  lemma QuartierChartSpec(biens: seq<Bien>)
    ensures var t := Tallied([], Values(biens, (b: Bien) => b.quartier));
            DistinctKeys(t) &&
            (forall q :: q in Keys(t) <==> exists i :: 0 <= i < |biens| && biens[i].quartier == q) &&
            (forall q :: Lookup(t, q) == Occurrences(Values(biens, (b: Bien) => b.quartier), q)) &&
            Total(t) == |biens|
  {
    var vs := Values(biens, (b: Bien) => b.quartier);
    TalliedSpec([], vs);
    forall q ensures q in vs <==> exists i :: 0 <= i < |biens| && biens[i].quartier == q {
      if exists i :: 0 <= i < |biens| && biens[i].quartier == q {
        var i :| 0 <= i < |biens| && biens[i].quartier == q;
        assert vs[i] == q;
      }
    }
  }

  /** The histogram's starting counter: A..G at 0. */
  const DPE_ZERO: seq<Entry> :=
    [Entry("A", 0), Entry("B", 0), Entry("C", 0), Entry("D", 0), Entry("E", 0), Entry("F", 0), Entry("G", 0)]

  /** `renderDPEChart()`'s count loop. */
  method DpeHistogram(biens: seq<Bien>) returns (counts: seq<Entry>)
    ensures counts == Tallied(DPE_ZERO, Values(biens, (b: Bien) => b.dpe))
  {
    counts := DPE_ZERO;
    var i := 0;
    while i < |biens|
      invariant 0 <= i <= |biens|
      invariant counts == Tallied(DPE_ZERO, Values(biens[..i], (b: Bien) => b.dpe))
    {
      var v := Values(biens[..i + 1], (b: Bien) => b.dpe);
      assert v[..i] == Values(biens[..i], (b: Bien) => b.dpe);
      counts := Bump(counts, biens[i].dpe);
      i := i + 1;
    }
    assert biens[..i] == biens;
  }

  /** The histogram always starts with A..G in that order; a value outside
      A..G gets a key of its own after them; every key counts its listings,
      and the counts add up to the number of listings. */
  lemma DpeHistogramSpec(biens: seq<Bien>)
    ensures var t := Tallied(DPE_ZERO, Values(biens, (b: Bien) => b.dpe));
            |t| >= 7 && Keys(t)[..7] == DPE_LETTERS &&
            DistinctKeys(t) &&
            (forall d :: d in Keys(t) <==> d in DPE_LETTERS || d in Values(biens, (b: Bien) => b.dpe)) &&
            (forall d :: Lookup(t, d) == Occurrences(Values(biens, (b: Bien) => b.dpe), d)) &&
            Total(t) == |biens|
  {
    DpeZeroFacts();
    TalliedSpec(DPE_ZERO, Values(biens, (b: Bien) => b.dpe));
  }

  lemma DpeZeroFacts()
    ensures Keys(DPE_ZERO) == DPE_LETTERS && DistinctKeys(DPE_ZERO)
    ensures forall d :: Lookup(DPE_ZERO, d) == 0
    ensures Total(DPE_ZERO) == 0
  {
    var z := DPE_ZERO;
    assert Keys(z) == DPE_LETTERS;
    forall i, j | 0 <= i < j < |z| ensures z[i].key != z[j].key {
      assert z[i].key[0] != z[j].key[0];
    }
    assert forall i :: 0 <= i < |z| ==> z[i].count == 0;
    NothingCounted(z);
  }

  lemma {:induction false} NothingCounted(t: seq<Entry>)
    requires forall i :: 0 <= i < |t| ==> t[i].count == 0
    ensures forall d :: Lookup(t, d) == 0
    ensures Total(t) == 0
    decreases |t|
  {
    if |t| > 0 {
      NothingCounted(t[1..]);
    }
  }

  /** The pie slice colours: `labels.map(getDPEColor)`. */
  function SliceColors(t: seq<Entry>): (r: seq<string>)
    ensures |r| == |t|
    ensures forall i :: 0 <= i < |t| && t[i].key in DPE_COLORS ==> r[i] == DPE_COLORS[t[i].key]
    ensures forall i :: 0 <= i < |t| && t[i].key !in DPE_COLORS ==> r[i] == Format.DEFAULT_DPE_COLOR
  {
    seq(|t|, i requires 0 <= i < |t| => Format.DpeColor(t[i].key))
  }
}
