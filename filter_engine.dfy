/** The server's filter engine (`filterEmissions`): up to three filters
    applied one after the other to the corpus. */
module FilterEngine {
  import opened Wrappers
  import opened Records

  /** The query parameters of `/api/data`. A parameter that is absent or
      the empty string is `None`; year bounds are already parsed. */
  datatype Criteria = Criteria(
    country: Option<string>,
    sector: Option<string>,
    startYear: Option<int>,
    endYear: Option<int>)

  /** A country or sector parameter constrains the result only when it is
      truthy and is not the sentinel "All". */
  predicate Constrains(p: Option<string>)
  {
    p.Some? && p.value != "" && p.value != "All"
  }

  /** The year range applies only when both bounds are given. */
  predicate HasYearRange(c: Criteria)
  {
    c.startYear.Some? && c.endYear.Some?
  }

  /** The compound predicate: a record satisfies every active constraint. */
  predicate Matches(c: Criteria, d: Record)
  {
    (Constrains(c.country) ==> d.country == c.country.value) &&
    (Constrains(c.sector) ==> d.sector == c.sector.value) &&
    (HasYearRange(c) ==> c.startYear.value <= d.year <= c.endYear.value)
  }

  /** `Array.prototype.filter`: the records satisfying `p`, in their order. */
  function Where(s: seq<Record>, p: Record -> bool): (r: seq<Record>)
    ensures |r| <= |s|
  {
    if s == [] then []
    else if p(s[0]) then [s[0]] + Where(s[1..], p)
    else Where(s[1..], p)
  }

  /** What `filterEmissions` returns: the records of `s` that match `c`. */
  function Select(s: seq<Record>, c: Criteria): seq<Record>
  {
    Where(s, d => Matches(c, d))
  }

  /** `filterEmissions`: starts from the whole corpus and narrows it by
      country, then by sector, then by the year range, each step only when
      its parameters are active. */
  method FilterEmissions(emissions: seq<Record>, c: Criteria) returns (filtered: seq<Record>)
    ensures filtered == Select(emissions, c)
  {
    // `kept` is the conjunction of the filters applied so far
    ghost var kept := (d: Record) => true;
    filtered := emissions;
    WhereAll(emissions, kept);

    if Constrains(c.country) {
      var country := c.country.value;
      var byCountry := (d: Record) => d.country == country;
      ghost var next := (d: Record) => kept(d) && byCountry(d);
      WhereWhere(emissions, kept, byCountry, next);
      filtered := Where(filtered, byCountry);
      kept := next;
    }

    if Constrains(c.sector) {
      var sector := c.sector.value;
      var bySector := (d: Record) => d.sector == sector;
      ghost var next := (d: Record) => kept(d) && bySector(d);
      WhereWhere(emissions, kept, bySector, next);
      filtered := Where(filtered, bySector);
      kept := next;
    }

    if c.startYear.Some? && c.endYear.Some? {
      var s, e := c.startYear.value, c.endYear.value;
      var inRange := (d: Record) => d.year >= s && d.year <= e;
      ghost var next := (d: Record) => kept(d) && inRange(d);
      WhereWhere(emissions, kept, inRange, next);
      filtered := Where(filtered, inRange);
      kept := next;
    }

    WhereSame(emissions, kept, d => Matches(c, d));
  }

  /** A record is in the result exactly when it is in the input and passes. */
  lemma {:induction false} WhereMembership(s: seq<Record>, p: Record -> bool, x: Record)
    ensures x in Where(s, p) <==> x in s && p(x)
  {
    if s != [] {
      WhereMembership(s[1..], p, x);
      assert s == [s[0]] + s[1..];
    }
  }

  /** Filtering keeps everything when every element passes. */
  lemma {:induction false} WhereAll(s: seq<Record>, p: Record -> bool)
    requires forall x :: x in s ==> p(x)
    ensures Where(s, p) == s
  {
    if s != [] {
      WhereAll(s[1..], p);
    }
  }

  /** Filtering keeps nothing when no element passes. */
  lemma {:induction false} WhereNone(s: seq<Record>, p: Record -> bool)
    requires forall x :: x in s ==> !p(x)
    ensures Where(s, p) == []
  {
    if s != [] {
      WhereNone(s[1..], p);
    }
  }

  /** Two predicates that agree on `s` select the same records. */
  lemma {:induction false} WhereSame(s: seq<Record>, p: Record -> bool, q: Record -> bool)
    requires forall x :: x in s ==> p(x) == q(x)
    ensures Where(s, p) == Where(s, q)
  {
    if s != [] {
      WhereSame(s[1..], p, q);
    }
  }

  /** Two filters in sequence select what their conjunction selects. */
  lemma {:induction false} WhereWhere(s: seq<Record>, p: Record -> bool, q: Record -> bool, pq: Record -> bool)
    requires forall x :: pq(x) == (p(x) && q(x))
    ensures Where(Where(s, p), q) == Where(s, pq)
  {
    if s != [] {
      WhereWhere(s[1..], p, q, pq);
    }
  }

  /** The positions of `s` at which `p` holds, in increasing order. */
  function Positions(s: seq<Record>, p: Record -> bool): (idx: seq<nat>)
    ensures |idx| == |Where(s, p)|
  {
    if s == [] then []
    else if p(s[0]) then [0] + Shift(Positions(s[1..], p))
    else Shift(Positions(s[1..], p))
  }

  /** Every position moved one place to the right. */
  function Shift(idx: seq<nat>): (r: seq<nat>)
    ensures |r| == |idx| && forall k :: 0 <= k < |idx| ==> r[k] == idx[k] + 1
  {
    if idx == [] then [] else [idx[0] + 1] + Shift(idx[1..])
  }

  lemma {:induction false} ShiftMembership(idx: seq<nat>, i: nat)
    ensures i + 1 in Shift(idx) <==> i in idx
    ensures 0 !in Shift(idx)
  {
    if idx != [] {
      ShiftMembership(idx[1..], i);
      assert Shift(idx) == [idx[0] + 1] + Shift(idx[1..]);
      assert idx == [idx[0]] + idx[1..];
    }
  }

  /** The k-th kept record is the record at the k-th position. */
  lemma {:induction false} PositionsPick(s: seq<Record>, p: Record -> bool, k: nat)
    requires k < |Positions(s, p)|
    ensures Positions(s, p)[k] < |s| && Where(s, p)[k] == s[Positions(s, p)[k]]
  {
    var rest := Positions(s[1..], p);
    if p(s[0]) {
      if k > 0 {
        PositionsPick(s[1..], p, k - 1);
      }
    } else {
      PositionsPick(s[1..], p, k);
    }
  }

  /** Positions are strictly increasing: the filter does not reorder. */
  lemma {:induction false} PositionsIncreasing(s: seq<Record>, p: Record -> bool, k: nat, l: nat)
    requires k < l < |Positions(s, p)|
    ensures Positions(s, p)[k] < Positions(s, p)[l]
  {
    if p(s[0]) {
      if k > 0 {
        PositionsIncreasing(s[1..], p, k - 1, l - 1);
      }
    } else {
      PositionsIncreasing(s[1..], p, k, l);
    }
  }

  /** A position is listed exactly when `p` holds there. */
  lemma {:induction false} PositionsExact(s: seq<Record>, p: Record -> bool, i: nat)
    requires i < |s|
    ensures i in Positions(s, p) <==> p(s[i])
  {
    var rest := Positions(s[1..], p);
    if i == 0 {
      ShiftMembership(rest, 0);
    } else {
      PositionsExact(s[1..], p, i - 1);
      ShiftMembership(rest, i - 1);
      assert s[i] == s[1..][i - 1];
    }
  }

  /** Filtering neither drops nor merges duplicates: a kept record occurs
      as often as in the input. */
  lemma {:induction false} WhereMultiplicity(s: seq<Record>, p: Record -> bool, x: Record)
    ensures multiset(Where(s, p))[x] == if p(x) then multiset(s)[x] else 0
  {
    if s != [] {
      WhereMultiplicity(s[1..], p, x);
      assert s == [s[0]] + s[1..];
    }
  }

  /** `filterEmissions` returns an order-preserving subsequence of the
      corpus holding exactly the positions whose record matches every
      active constraint. */
  lemma {:induction false} SelectIsOrderPreservingSubsequence(s: seq<Record>, c: Criteria)
    ensures var idx := Positions(s, d => Matches(c, d));
      && |idx| == |Select(s, c)|
      && (forall k :: 0 <= k < |idx| ==> idx[k] < |s| && Select(s, c)[k] == s[idx[k]])
      && (forall k, l :: 0 <= k < l < |idx| ==> idx[k] < idx[l])
      && (forall i :: 0 <= i < |s| ==> (i in idx <==> Matches(c, s[i])))
  {
    var p := d => Matches(c, d);
    forall k | 0 <= k < |Positions(s, p)| {
      PositionsPick(s, p, k);
    }
    forall k, l | 0 <= k < l < |Positions(s, p)| {
      PositionsIncreasing(s, p, k, l);
    }
    forall i | 0 <= i < |s| {
      PositionsExact(s, p, i);
    }
  }

  /** Duplicates are kept: a matching record occurs in the result as often
      as in the corpus, a non-matching one not at all. */
  lemma {:induction false} SelectKeepsDuplicates(s: seq<Record>, c: Criteria, x: Record)
    ensures multiset(Select(s, c))[x] == if Matches(c, x) then multiset(s)[x] else 0
  {
    WhereMultiplicity(s, d => Matches(c, d), x);
  }

  /** With country and sector absent, empty or "All", and at most one year
      bound, the corpus is returned unchanged. */
  lemma {:induction false} SelectUnconstrained(s: seq<Record>, c: Criteria)
    requires !Constrains(c.country) && !Constrains(c.sector) && !HasYearRange(c)
    ensures Select(s, c) == s
  {
    WhereAll(s, d => Matches(c, d));
  }

  /** The bounds are not reordered: a start year after the end year
      selects nothing. */
  lemma {:induction false} SelectInvertedRange(s: seq<Record>, c: Criteria)
    requires HasYearRange(c) && c.startYear.value > c.endYear.value
    ensures Select(s, c) == []
  {
    var p := d => Matches(c, d);
    forall x | x in s ensures !p(x) {
    }
    WhereNone(s, p);
  }

  /** Filtering twice with the same criteria is filtering once. */
  lemma {:induction false} SelectIdempotent(s: seq<Record>, c: Criteria)
    ensures Select(Select(s, c), c) == Select(s, c)
  {
    var p := d => Matches(c, d);
    forall x | x in Select(s, c) ensures p(x) {
      WhereMembership(s, p, x);
    }
    WhereAll(Select(s, c), p);
  }
}
