/** The aggregator: per-sector totals kept in an insertion-ordered
    dictionary (the `bySector` object of `summarizeData` and the `map`
    object of `aggregateBySector`), the bar chart built from them, and the
    top sector chosen by a stable descending sort. */
module Aggregation {
  import opened Wrappers
  import opened Records

  /** One key of the dictionary with its value. A JavaScript object lists
      its (non-numeric) keys in insertion order, so the dictionary is a
      sequence of entries. */
  datatype Entry = Entry(sector: string, emissions: real)

  function Keys(e: seq<Entry>): (k: seq<string>)
    ensures |k| == |e| && forall i :: 0 <= i < |e| ==> k[i] == e[i].sector
  {
    if e == [] then [] else [e[0].sector] + Keys(e[1..])
  }

  /** `dict[k] || 0`: the value under `k`, or 0 when `k` is absent. */
  function Get(e: seq<Entry>, k: string): real
  {
    if e == [] then 0.0
    else if e[0].sector == k then e[0].emissions
    else Get(e[1..], k)
  }

  /** Sum of the values of the dictionary. */
  function EntrySum(e: seq<Entry>): real
  {
    if e == [] then 0.0 else e[0].emissions + EntrySum(e[1..])
  }

  /** `dict[k] = (dict[k] || 0) + v`: an existing key keeps its place and
      grows by `v`; a new key is appended with value `v`. */
  function Bump(e: seq<Entry>, k: string, v: real): (r: seq<Entry>)
    ensures Keys(r) == if k in Keys(e) then Keys(e) else Keys(e) + [k]
  {
    if e == [] then [Entry(k, v)]
    else if e[0].sector == k then [Entry(k, e[0].emissions + v)] + e[1..]
    else
      var r := [e[0]] + Bump(e[1..], k, v);
      assert r[1..] == Bump(e[1..], k, v);
      r
  }

  /** After the update only the looked-up value of `k` has changed, by `v`. */
  lemma {:induction false} BumpGet(e: seq<Entry>, k: string, v: real, x: string)
    ensures Get(Bump(e, k, v), x) == Get(e, x) + (if x == k then v else 0.0)
  {
    if e != [] && e[0].sector != k {
      var r := Bump(e, k, v);
      assert r[1..] == Bump(e[1..], k, v);
      BumpGet(e[1..], k, v, x);
    }
  }

  /** The update adds `v` to the sum of the values. */
  lemma {:induction false} BumpSum(e: seq<Entry>, k: string, v: real)
    ensures EntrySum(Bump(e, k, v)) == EntrySum(e) + v
  {
    if e != [] && e[0].sector != k {
      var r := Bump(e, k, v);
      assert r[1..] == Bump(e[1..], k, v);
      BumpSum(e[1..], k, v);
    } else if e != [] {
      var r := Bump(e, k, v);
      assert r[1..] == e[1..];
    }
  }

  /** The dictionary after the `forEach` over `s` has added every record's
      emissions under its sector. */
  function SectorTotals(s: seq<Record>): (r: seq<Entry>)
    ensures Keys(r) == Distinct(SectorColumn(s))
  {
    if s == [] then []
    else
      var n := |s| - 1;
      assert SectorColumn(s) == SectorColumn(s[..n]) + [s[n].sector];
      Bump(SectorTotals(s[..n]), s[n].sector, s[n].emissions)
  }

  /** Looking a sector up in the dictionary gives the sum of that sector's
      records (0 for a sector that does not occur). */
  lemma {:induction false} SectorTotalsGet(s: seq<Record>, x: string)
    ensures Get(SectorTotals(s), x) == SectorSum(s, x)
  {
    if s != [] {
      var n := |s| - 1;
      SectorTotalsGet(s[..n], x);
      BumpGet(SectorTotals(s[..n]), s[n].sector, s[n].emissions, x);
    }
  }

  /** The dictionary's values add up to the total emissions. */
  lemma {:induction false} SectorTotalsSum(s: seq<Record>)
    ensures EntrySum(SectorTotals(s)) == Total(s)
  {
    if s != [] {
      var n := |s| - 1;
      SectorTotalsSum(s[..n]);
      BumpSum(SectorTotals(s[..n]), s[n].sector, s[n].emissions);
    }
  }

  /** In a dictionary without repeated keys every entry is what a lookup
      of its key returns. */
  lemma {:induction false} GetEntry(e: seq<Entry>, i: nat)
    requires NoDuplicates(Keys(e)) && i < |e|
    ensures Get(e, e[i].sector) == e[i].emissions
  {
    if i > 0 {
      assert Keys(e[1..]) == Keys(e)[1..];
      assert Keys(e)[0] != Keys(e)[i];
      GetEntry(e[1..], i - 1);
    }
  }

  /** `aggregateBySector`: one `forEach` pass adding each record into the
      dictionary; the entries come out as `{sector, emissions}` pairs. */
  method AggregateBySector(data: seq<Record>) returns (entries: seq<Entry>)
    ensures entries == SectorTotals(data)
    ensures Keys(entries) == Distinct(SectorColumn(data))
    ensures forall i :: 0 <= i < |entries| ==> entries[i].emissions == SectorSum(data, entries[i].sector)
    ensures EntrySum(entries) == Total(data)
    ensures entries == [] <==> data == []
  {
    entries := [];
    var i := 0;
    while i < |data|
      invariant 0 <= i <= |data|
      invariant entries == SectorTotals(data[..i])
    {
      var d := data[i];
      SectorTotalsStep(data, i);
      entries := Bump(entries, d.sector, d.emissions);
      i := i + 1;
    }
    assert data[..|data|] == data;
    SectorTotalsEntries(data);
  }

  /** One more record of the `forEach` bumps that record's sector. */
  lemma {:induction false} SectorTotalsStep(s: seq<Record>, i: nat)
    requires i < |s|
    ensures SectorTotals(s[..i + 1]) == Bump(SectorTotals(s[..i]), s[i].sector, s[i].emissions)
  {
    assert s[..i + 1][..i] == s[..i];
  }

  /** Every entry of the dictionary holds its sector's total, the entries
      add up to the total emissions, and the dictionary is empty exactly
      when the data is. */
  lemma {:induction false} SectorTotalsEntries(s: seq<Record>)
    ensures forall i :: 0 <= i < |SectorTotals(s)| ==>
      SectorTotals(s)[i].emissions == SectorSum(s, SectorTotals(s)[i].sector)
    ensures SectorTotals(s) == [] <==> s == []
    ensures EntrySum(SectorTotals(s)) == Total(s)
  {
    SectorTotalsSum(s);
    var e := SectorTotals(s);
    forall i | 0 <= i < |e|
      ensures e[i].emissions == SectorSum(s, e[i].sector)
    {
      GetEntry(e, i);
      SectorTotalsGet(s, e[i].sector);
    }
    if s != [] {
      assert s[0].sector in SectorColumn(s);
      DistinctMembership(SectorColumn(s), s[0].sector);
      assert s[0].sector in Keys(e);
    }
  }

  const NoChartData := "No data to display for this view."

  /** What `SectorBarChart` shows: a message when there is nothing to
      chart, otherwise one bar per sector. */
  datatype ChartView = Message(text: string) | Bars(chartData: seq<Entry>)

  /** `SectorBarChart`: the message exactly when the data is empty,
      otherwise the bars of `aggregateBySector`. */
  method SectorBarChart(data: seq<Record>) returns (view: ChartView)
    ensures view == Message(NoChartData) <==> data == []
    ensures view.Bars? <==> data != []
    ensures view.Bars? ==> view.chartData == SectorTotals(data) && |view.chartData| > 0
  {
    var chartData := AggregateBySector(data);
    if |chartData| == 0 {
      view := Message(NoChartData);
    } else {
      view := Bars(chartData);
    }
  }

  /** Inserts `x`, which came before every entry of `sorted` in the input,
      ahead of the first entry whose value is not larger: the place a stable
      sort with comparator `(a, b) => b[1] - a[1]` gives it. */
  function InsertDesc(x: Entry, sorted: seq<Entry>): (r: seq<Entry>)
    ensures |r| == |sorted| + 1
    ensures multiset(r) == multiset(sorted) + multiset{x}
  {
    if sorted == [] || sorted[0].emissions <= x.emissions then [x] + sorted
    else
      assert sorted == [sorted[0]] + sorted[1..];
      [sorted[0]] + InsertDesc(x, sorted[1..])
  }

  /** The stable descending sort of `Object.entries(bySector)`. */
  function SortDesc(e: seq<Entry>): (r: seq<Entry>)
    ensures |r| == |e|
    ensures multiset(r) == multiset(e)
  {
    if e == [] then []
    else
      assert e == [e[0]] + e[1..];
      InsertDesc(e[0], SortDesc(e[1..]))
  }

  predicate Descending(e: seq<Entry>)
  {
    forall i, j :: 0 <= i < j < |e| ==> e[i].emissions >= e[j].emissions
  }

  lemma {:induction false} InsertDescKeepsOrder(x: Entry, sorted: seq<Entry>)
    requires Descending(sorted)
    ensures Descending(InsertDesc(x, sorted))
  {
    if sorted != [] && sorted[0].emissions > x.emissions {
      InsertDescKeepsOrder(x, sorted[1..]);
      var r := InsertDesc(x, sorted[1..]);
      assert r[0] in multiset(sorted[1..]) + multiset{x};
      assert r[0] == x || r[0] in sorted[1..];
    }
  }

  /** The sort orders entries by non-increasing value. */
  lemma {:induction false} SortDescOrders(e: seq<Entry>)
    ensures Descending(SortDesc(e))
  {
    if e != [] {
      SortDescOrders(e[1..]);
      InsertDescKeepsOrder(e[0], SortDesc(e[1..]));
    }
  }

  /** Index of the first entry holding the largest value. */
  function FirstMaxIndex(e: seq<Entry>): (k: nat)
    requires e != []
    ensures k < |e|
    ensures forall j :: 0 <= j < |e| ==> e[j].emissions <= e[k].emissions
    ensures forall j :: 0 <= j < k ==> e[j].emissions < e[k].emissions
  {
    if |e| == 1 then 0
    else
      var m := 1 + FirstMaxIndex(e[1..]);
      if e[0].emissions >= e[m].emissions then 0 else m
  }

  /** The head of the stable descending sort is the first entry with the
      largest value, so ties go to the key inserted first. */
  lemma {:induction false} SortDescHead(e: seq<Entry>)
    requires e != []
    ensures SortDesc(e)[0] == e[FirstMaxIndex(e)]
  {
    if |e| > 1 {
      SortDescHead(e[1..]);
    }
  }

  /** `sorted[0]?.[0]`: the key at the head of the sorted entries, absent
      for an empty dictionary. */
  function TopSector(e: seq<Entry>): (top: Option<string>)
    ensures top.None? <==> e == []
    ensures top.Some? ==> top.value == e[FirstMaxIndex(e)].sector
  {
    if e == [] then None
    else
      SortDescHead(e);
      Some(SortDesc(e)[0].sector)
  }

  /** Every sector of the data has its entry in the dictionary, holding
      that sector's total. */
  lemma {:induction false} SectorEntry(s: seq<Record>, x: string) returns (j: nat)
    requires x in SectorColumn(s)
    ensures j < |SectorTotals(s)| && SectorTotals(s)[j].sector == x
    ensures SectorTotals(s)[j].emissions == SectorSum(s, x)
  {
    var e := SectorTotals(s);
    DistinctMembership(SectorColumn(s), x);
    assert x in Keys(e);
    j :| 0 <= j < |e| && Keys(e)[j] == x;
    GetEntry(e, j);
    SectorTotalsGet(s, x);
  }

  /** `top` is a sector of `s` with the largest total, and of the sectors
      tied with it, the one whose first record comes first. */
  predicate HighestSector(s: seq<Record>, top: string)
  {
    && top in SectorColumn(s)
    && (forall x :: x in SectorColumn(s) ==> SectorSum(s, x) <= SectorSum(s, top))
    && (forall q :: 0 <= q < |s| && SectorSum(s, s[q].sector) == SectorSum(s, top) ==>
          top in SectorColumn(s)[..q + 1])
  }

  /** On the records themselves: the top sector occurs in the data, no
      sector has a larger total, and every sector with the same total
      first occurs no earlier than the top sector does. */
  lemma {:induction false} TopSectorOfData(s: seq<Record>)
    requires s != []
    ensures TopSector(SectorTotals(s)).Some?
    ensures HighestSector(s, TopSector(SectorTotals(s)).value)
  {
    var e := SectorTotals(s);
    assert SectorColumn(s)[0] in SectorColumn(s);
    DistinctMembership(SectorColumn(s), SectorColumn(s)[0]);
    var top := e[FirstMaxIndex(e)].sector;
    TopSectorOccurs(s);
    forall x | x in SectorColumn(s) ensures SectorSum(s, x) <= SectorSum(s, top) {
      TopSectorMaximal(s, x);
    }
    forall q | 0 <= q < |s| && SectorSum(s, s[q].sector) == SectorSum(s, top)
      ensures top in SectorColumn(s)[..q + 1]
    {
      TieBreak(s, q);
    }
  }

  lemma {:induction false} TopSectorOccurs(s: seq<Record>)
    requires SectorTotals(s) != []
    ensures SectorTotals(s)[FirstMaxIndex(SectorTotals(s))].sector in SectorColumn(s)
  {
    var e := SectorTotals(s);
    var k := FirstMaxIndex(e);
    assert Keys(e)[k] in Keys(e);
    DistinctMembership(SectorColumn(s), e[k].sector);
  }

  lemma {:induction false} TopSectorMaximal(s: seq<Record>, x: string)
    requires x in SectorColumn(s)
    ensures SectorTotals(s) != []
    ensures SectorSum(s, x) <= SectorSum(s, SectorTotals(s)[FirstMaxIndex(SectorTotals(s))].sector)
  {
    var e := SectorTotals(s);
    var j := SectorEntry(s, x);
    var k := FirstMaxIndex(e);
    GetEntry(e, k);
    SectorTotalsGet(s, e[k].sector);
  }

  /** A sector tied with the top sector occurs, each time, after the top
      sector has occurred. */
  lemma {:induction false} TieBreak(s: seq<Record>, q: nat)
    requires q < |s|
    requires SectorSum(s, s[q].sector) == SectorSum(s, SectorTotals(s)[FirstMaxIndex(SectorTotals(s))].sector)
    ensures SectorTotals(s)[FirstMaxIndex(SectorTotals(s))].sector in SectorColumn(s)[..q + 1]
  {
    var e := SectorTotals(s);
    var j := SectorEntryAt(s, q);
    TopEntryValue(s);
    TiedNotBefore(e, j);
    TopKey(s);
    ListedEarlierOccursEarlier(SectorColumn(s), FirstMaxIndex(e), j, q);
  }

  /** The entry of the sector of `s[q]`. */
  lemma {:induction false} SectorEntryAt(s: seq<Record>, q: nat) returns (j: nat)
    requires q < |s|
    ensures j < |SectorTotals(s)|
    ensures SectorTotals(s)[j].sector == s[q].sector == SectorColumn(s)[q]
    ensures Distinct(SectorColumn(s))[j] == SectorColumn(s)[q]
    ensures SectorTotals(s)[j].emissions == SectorSum(s, s[q].sector)
  {
    var col := SectorColumn(s);
    assert col[q] in col;
    j := SectorEntry(s, col[q]);
    assert Keys(SectorTotals(s))[j] == col[q];
  }

  /** The entry at the top index holds its sector's total. */
  lemma {:induction false} TopEntryValue(s: seq<Record>)
    requires SectorTotals(s) != []
    ensures var e := SectorTotals(s);
      e[FirstMaxIndex(e)].emissions == SectorSum(s, e[FirstMaxIndex(e)].sector)
  {
    var e := SectorTotals(s);
    GetEntry(e, FirstMaxIndex(e));
    SectorTotalsGet(s, e[FirstMaxIndex(e)].sector);
  }

  /** An entry tied with the first maximal entry does not come before it. */
  lemma {:induction false} TiedNotBefore(e: seq<Entry>, j: nat)
    requires j < |e| && e[j].emissions == e[FirstMaxIndex(e)].emissions
    ensures FirstMaxIndex(e) <= j
  {
  }

  /** The top index lists the top sector among the keys. */
  lemma {:induction false} TopKey(s: seq<Record>)
    requires SectorTotals(s) != []
    ensures Distinct(SectorColumn(s))[FirstMaxIndex(SectorTotals(s))] == SectorTotals(s)[FirstMaxIndex(SectorTotals(s))].sector
  {
    var e := SectorTotals(s);
    assert Keys(e)[FirstMaxIndex(e)] == e[FirstMaxIndex(e)].sector;
  }
}
