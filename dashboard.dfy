/** The dashboard page (`App`): its state, the initial load, the filtered
    reload, the option lists, the KPI total and the live intensity card.
    Fetches are parameters holding their outcome. */
module App {
  import opened Wrappers
  import opened Text
  import opened Records
  import opened FilterEngine
  import opened Aggregation
  import opened Signals

  /** The option list of a filter: "All" first, then each distinct value
      of the column. */
  function Options(column: seq<string>): (r: seq<string>)
    ensures |r| >= 1 && r[0] == "All"
    ensures NoDuplicates(r[1..])
    ensures |r| <= |column| + 1
  {
    var r := ["All"] + Distinct(column);
    assert r[1..] == Distinct(column);
    r
  }

  /** After "All", every value of the column is listed, and nothing else. */
  lemma {:induction false} OptionsListing(column: seq<string>, x: string)
    ensures x in Options(column)[1..] <==> x in column
  {
    assert Options(column)[1..] == Distinct(column);
    DistinctMembership(column, x);
  }

  /** After "All", the values are in the order of their first occurrence:
      an option listed before another occurs in the column before any
      occurrence of the later one. */
  lemma {:induction false} OptionsOrder(column: seq<string>, i: nat, j: nat, q: nat)
    requires 1 <= i < j < |Options(column)| && q < |column| && column[q] == Options(column)[j]
    ensures Options(column)[i] in column[..q]
  {
    var d := Distinct(column);
    assert Options(column)[1..] == d;
    DistinctFirstOccurrenceOrder(column, i - 1, j - 1, q);
  }

  /** The `countries` memo. */
  function Countries(allData: seq<Record>): (r: seq<string>)
    ensures r == Options(CountryColumn(allData))
    ensures forall x :: x in r[1..] <==> exists i :: 0 <= i < |allData| && allData[i].country == x
  {
    var r := Options(CountryColumn(allData));
    forall x ensures x in r[1..] <==> exists i :: 0 <= i < |allData| && allData[i].country == x {
      OptionsListing(CountryColumn(allData), x);
    }
    r
  }

  /** The `sectors` memo. */
  function Sectors(allData: seq<Record>): (r: seq<string>)
    ensures r == Options(SectorColumn(allData))
    ensures forall x :: x in r[1..] <==> exists i :: 0 <= i < |allData| && allData[i].sector == x
  {
    var r := Options(SectorColumn(allData));
    forall x ensures x in r[1..] <==> exists i :: 0 <= i < |allData| && allData[i].sector == x {
      OptionsListing(SectorColumn(allData), x);
    }
    r
  }

  /** The `totalEmissions` memo: 0 for no data, and the sum the bar chart
      spreads over its bars. */
  function TotalEmissions(data: seq<Record>): (t: real)
    ensures data == [] ==> t == 0.0
    ensures t == EntrySum(SectorTotals(data))
  {
    SectorTotalsSum(data);
    Total(data)
  }

  /** The first of the years in the order of `sort()` without a
      comparator, which compares the years' decimal texts. */
  function LexFirst(ys: seq<int>): (m: int)
    requires ys != []
    ensures m in ys
  {
    if |ys| == 1 then ys[0]
    else
      var rest := LexFirst(ys[1..]);
      if LexLess(DecimalText(ys[0]), DecimalText(rest)) then ys[0] else rest
  }

  /** The last of the years in that order. */
  function LexLast(ys: seq<int>): (m: int)
    requires ys != []
    ensures m in ys
  {
    if |ys| == 1 then ys[0]
    else
      var rest := LexLast(ys[1..]);
      if LexLess(DecimalText(rest), DecimalText(ys[0])) then ys[0] else rest
  }

  /** No year's text sorts before the text of `LexFirst`. */
  lemma {:induction false} LexFirstLeast(ys: seq<int>)
    requires ys != []
    ensures forall y :: y in ys ==> !LexLess(DecimalText(y), DecimalText(LexFirst(ys)))
  {
    var m := LexFirst(ys);
    if |ys| == 1 {
      LexLessIrreflexive(DecimalText(ys[0]));
    } else {
      var rest := LexFirst(ys[1..]);
      LexFirstLeast(ys[1..]);
      forall y | y in ys ensures !LexLess(DecimalText(y), DecimalText(m)) {
        if y == ys[0] {
          LexLessIrreflexive(DecimalText(y));
        } else {
          assert y in ys[1..];
          if m == ys[0] && LexLess(DecimalText(y), DecimalText(m)) {
            LexLessTransitive(DecimalText(y), DecimalText(m), DecimalText(rest));
          }
        }
      }
    }
  }

  /** No year's text sorts after the text of `LexLast`. */
  lemma {:induction false} LexLastGreatest(ys: seq<int>)
    requires ys != []
    ensures forall y :: y in ys ==> !LexLess(DecimalText(LexLast(ys)), DecimalText(y))
  {
    var m := LexLast(ys);
    if |ys| == 1 {
      LexLessIrreflexive(DecimalText(ys[0]));
    } else {
      var rest := LexLast(ys[1..]);
      LexLastGreatest(ys[1..]);
      forall y | y in ys ensures !LexLess(DecimalText(m), DecimalText(y)) {
        if y == ys[0] {
          LexLessIrreflexive(DecimalText(y));
        } else {
          assert y in ys[1..];
          if m == ys[0] && LexLess(DecimalText(m), DecimalText(y)) {
            LexLessTransitive(DecimalText(rest), DecimalText(m), DecimalText(y));
          }
        }
      }
    }
  }

  /** For four-digit years the text order is the numeric order, so the
      bounds are the least and the greatest year. */
  lemma {:induction false} FourDigitYearBounds(ys: seq<int>)
    requires ys != []
    requires forall y :: y in ys ==> 1000 <= y <= 9999
    ensures forall y :: y in ys ==> LexFirst(ys) <= y <= LexLast(ys)
  {
    var lo := LexFirst(ys);
    var hi := LexLast(ys);
    LexFirstLeast(ys);
    LexLastGreatest(ys);
    FourDigits(lo);
    FourDigits(hi);
    forall y | y in ys ensures lo <= y <= hi {
      FourDigits(y);
      LexOrderMatchesNumeric(y, lo);
      LexOrderMatchesNumeric(hi, y);
    }
  }

  /** With years of different lengths the text order is not the numeric
      one: 2020 sorts before 999. */
  lemma {:induction false} MixedLengthYearBounds()
    ensures LexFirst([999, 2020]) == 2020
    ensures LexLast([999, 2020]) == 999
  {
    assert DecimalText(999) == "999" by {
      assert Digits(9) == "9";
      assert Digits(99) == "99";
    }
    assert DecimalText(2020) == "2020" by {
      assert Digits(2) == "2";
      assert Digits(20) == "20";
      assert Digits(202) == "202";
    }
    assert LexLess("2020", "999");
    assert LexFirst([999, 2020][1..]) == 2020;
    assert LexLast([999, 2020][1..]) == 2020;
  }

  /** The distinct years of the corpus, as `load` collects them before
      sorting. */
  function Years(rows: seq<Record>): (ys: seq<int>)
    ensures ys != [] <==> rows != []
  {
    var column := YearColumn(rows);
    if rows == [] then []
    else
      assert column[0] in column;
      DistinctMembership(column, column[0]);
      Distinct(column)
  }

  /** A year bound is truthy unless it is "" (`None`) or 0. */
  predicate Truthy(bound: Option<int>)
  {
    bound.Some? && bound.value != 0
  }

  const RealtimeLoadError := "Could not load real-time emissions signal."

  /** What the live card shows. */
  datatype Card = Live(value: Option<int>, index: string) | ErrorShown(text: string) | Loading

  /** The live card: the reading while `realtime` is set, with
      `intensity ?? forecast` and `index || "n/a"`; else the error text when
      there is one; else "Loading...". */
  function LiveCard(realtime: Option<RealtimeFields>, realtimeError: string): (card: Card)
    ensures card.Live? <==> realtime.Some?
    ensures card.ErrorShown? <==> realtime.None? && realtimeError != ""
    ensures card.Live? ==> card.index != ""
    ensures card.ErrorShown? ==> card.text == realtimeError
    // the value is the served intensity, or the forecast when that is null
    ensures realtime.Some? && realtime.value.intensity.Some? ==> card.value == realtime.value.intensity
    ensures realtime.Some? && realtime.value.intensity.None? ==> card.value == realtime.value.forecast
    // the index is shown as served unless it is null or empty
    ensures realtime.Some? && realtime.value.index.Some? && realtime.value.index.value != "" ==>
      card.index == realtime.value.index.value
    ensures realtime.Some? && (realtime.value.index.None? || realtime.value.index.value == "") ==>
      card.index == "n/a"
  {
    match realtime
    case Some(f) =>
      Live(if f.intensity.Some? then f.intensity else f.forecast,
              if f.index.Some? && f.index.value != "" then f.index.value else "n/a")
    case None =>
      if realtimeError != "" then ErrorShown(realtimeError) else Loading
  }

  /** The card shows a served reading with the same number the chat's
      intensity sentence reports for the same response. */
  lemma {:induction false} CardAgreesWithChat(response: Fetch<Option<seq<Period>>>, realtimeError: string)
    requires RealtimeEndpoint(response).Served?
    ensures var card := LiveCard(Some(RealtimeEndpoint(response).fields), realtimeError);
      && card.value == ReadingValue(CurrentPeriod(response.body).value)
      && IntensityNote(response) == IntensitySentence(ValueText(card.value), IndexText(ReadingIndex(CurrentPeriod(response.body).value)))
  {
  }

  /** With four-digit years, the first filtered reload after the initial
      load ("All", "All" and the derived bounds) returns the whole corpus. */
  lemma {:induction false} InitialReloadKeepsCorpus(corpus: seq<Record>)
    requires corpus != []
    requires forall i :: 0 <= i < |corpus| ==> 1000 <= corpus[i].year <= 9999
    ensures var ys := Years(corpus);
      Truthy(Some(LexFirst(ys))) && Truthy(Some(LexLast(ys))) &&
      Select(corpus, Criteria(Some("All"), Some("All"), Some(LexFirst(ys)), Some(LexLast(ys)))) == corpus
  {
    var column := YearColumn(corpus);
    var ys := Years(corpus);
    forall y | y in ys ensures 1000 <= y <= 9999 {
      DistinctMembership(column, y);
    }
    FourDigitYearBounds(ys);
    var c := Criteria(Some("All"), Some("All"), Some(LexFirst(ys)), Some(LexLast(ys)));
    forall x | x in corpus ensures Matches(c, x) {
      var i :| 0 <= i < |corpus| && corpus[i] == x;
      assert column[i] == x.year;
      DistinctMembership(column, x.year);
    }
    WhereAll(corpus, d => Matches(c, d));
  }

  /** With a year of three digits beside four-digit ones the derived bounds
      are inverted and the first filtered reload empties the view. */
  lemma {:induction false} MixedLengthReloadEmpty()
    ensures var corpus := [Record("GB", "Energy", 999, 1.0), Record("GB", "Energy", 2020, 1.0)];
      var ys := Years(corpus);
      ys == [999, 2020] &&
      Select(corpus, Criteria(Some("All"), Some("All"), Some(LexFirst(ys)), Some(LexLast(ys)))) == []
  {
    var corpus := [Record("GB", "Energy", 999, 1.0), Record("GB", "Energy", 2020, 1.0)];
    var column := YearColumn(corpus);
    assert column == [999, 2020];
    assert column[..1] == [999];
    assert Distinct([999]) == [999] by {
      assert [999][..0] == [];
    }
    assert Distinct(column) == [999, 2020];
    MixedLengthYearBounds();
    SelectInvertedRange(corpus, Criteria(Some("All"), Some("All"), Some(2020), Some(999)));
  }

  /** The page state. `startYear`/`endYear` are `None` while they hold
      the initial "". */
  class Dashboard {
    var data: seq<Record>
    var allData: seq<Record>
    var country: string
    var sector: string
    var startYear: Option<int>
    var endYear: Option<int>
    var loading: bool
    var realtime: Option<RealtimeFields>
    var realtimeError: string

    constructor ()
      ensures data == [] && allData == []
      ensures country == "All" && sector == "All"
      ensures startYear == None && endYear == None
      ensures !loading && realtime == None && realtimeError == ""
    {
      data := [];
      allData := [];
      country := "All";
      sector := "All";
      startYear := None;
      endYear := None;
      loading := false;
      realtime := None;
      realtimeError := "";
    }

    /** The criteria a filtered reload sends. */
    function Query(): Criteria
      reads this
    {
      Criteria(Some(country), Some(sector), startYear, endYear)
    }

    /** `load`: fetch the corpus; show it and remember it for the option
      lists; derive the year bounds from its distinct years (left alone for
      an empty corpus); then fetch the realtime reading, or record the
      error text. A failed corpus fetch skips everything but the loading
      flag. */
    method Load(response: Fetch<seq<Record>>, rt: Fetch<RealtimeReply>)
      modifies this
      ensures !loading
      ensures country == old(country) && sector == old(sector)
      ensures response.Failed? ==>
        && data == old(data) && allData == old(allData)
        && startYear == old(startYear) && endYear == old(endYear)
        && realtime == old(realtime) && realtimeError == old(realtimeError)
      ensures response.Received? ==> data == response.body && allData == response.body
      ensures response.Received? && response.body == [] ==>
        startYear == old(startYear) && endYear == old(endYear)
      ensures response.Received? && response.body != [] ==>
        startYear == Some(LexFirst(Years(response.body))) && endYear == Some(LexLast(Years(response.body)))
      ensures response.Received? && rt.Received? && rt.body.Served? ==>
        realtime == Some(rt.body.fields) && realtimeError == old(realtimeError)
      ensures response.Received? && !(rt.Received? && rt.body.Served?) ==>
        realtime == old(realtime) && realtimeError == RealtimeLoadError
    {
      loading := true;
      if response.Received? {
        ShowCorpus(response.body);
        ShowReading(rt);
      }
      loading := false;
    }

    /** The first phase of `load`: show the fetched corpus, keep it for the
      option lists, and take the year bounds from its distinct years, left
      alone when there are none. */
    method ShowCorpus(rows: seq<Record>)
      modifies this
      ensures data == rows && allData == rows
      ensures rows == [] ==> startYear == old(startYear) && endYear == old(endYear)
      ensures rows != [] ==>
        startYear == Some(LexFirst(Years(rows))) && endYear == Some(LexLast(Years(rows)))
      ensures country == old(country) && sector == old(sector) && loading == old(loading)
      ensures realtime == old(realtime) && realtimeError == old(realtimeError)
    {
      // React applies the queued state updates together
      var years := Years(rows);
      var first := if |years| > 0 then Some(LexFirst(years)) else startYear;
      var last := if |years| > 0 then Some(LexLast(years)) else endYear;
      allData, data, startYear, endYear := rows, rows, first, last;
    }

    /** The second phase of `load`: a served reading is shown; a failed
      request records the error text instead. */
    method ShowReading(rt: Fetch<RealtimeReply>)
      modifies this
      ensures rt.Received? && rt.body.Served? ==>
        realtime == Some(rt.body.fields) && realtimeError == old(realtimeError)
      ensures !(rt.Received? && rt.body.Served?) ==>
        realtime == old(realtime) && realtimeError == RealtimeLoadError
      ensures data == old(data) && allData == old(allData)
      ensures country == old(country) && sector == old(sector) && loading == old(loading)
      ensures startYear == old(startYear) && endYear == old(endYear)
    {
      if rt.Received? && rt.body.Served? {
        realtime := Some(rt.body.fields);
      } else {
        realtimeError := RealtimeLoadError;
      }
    }

    /** `loadFiltered`: skipped while either year bound is falsy;
      otherwise the records the server's filter keeps for the current
      criteria replace the view. `server` is the corpus of the server the
      request reaches, or `Failed` when it fails, which leaves the view. */
    method LoadFiltered(server: Fetch<seq<Record>>)
      modifies this
      ensures !(Truthy(old(startYear)) && Truthy(old(endYear))) ==> unchanged(this)
      ensures country == old(country) && sector == old(sector)
      ensures startYear == old(startYear) && endYear == old(endYear)
      ensures allData == old(allData) && realtime == old(realtime) && realtimeError == old(realtimeError)
      ensures Truthy(startYear) && Truthy(endYear) ==>
        && !loading
        && (server.Failed? ==> data == old(data))
        && (server.Received? ==> data == Select(server.body, Query()))
    {
      if !(Truthy(startYear) && Truthy(endYear)) {
        return;
      }
      loading := true;
      match server {
        case Failed =>
        case Received(corpus) =>
          var rows := FilterEmissions(corpus, Query());
          data := rows;
      }
      loading := false;
    }
  }
}
