/** Date-indexed series, the pandas Series and DataFrames the backtester works on, and
    the few pandas operations on them that the engine relies on: label slicing
    (`.loc[a : b]`), concatenation (`pd.concat`), assignment to a label (`s[d] = v`) and
    sorting by date (`sort_index`). Dates are day numbers. */
module TimeSeries {

  type Date = int
  type Asset = string

  /** One entry of a balance series. */
  datatype Point = Point(date: Date, value: real)

  /** One row of the price table: a price per asset column. */
  datatype PriceRow = PriceRow(date: Date, prices: map<Asset, real>)

  ghost predicate StrictlyIncreasing(rows: seq<PriceRow>)
  {
    forall i, j :: 0 <= i < j < |rows| ==> rows[i].date < rows[j].date
  }

  ghost predicate SortedByDate(s: seq<Point>)
  {
    forall i, j :: 0 <= i < j < |s| ==> s[i].date <= s[j].date
  }

  ghost predicate StrictlySortedByDate(s: seq<Point>)
  {
    forall i, j :: 0 <= i < j < |s| ==> s[i].date < s[j].date
  }

  /** Every entry is dated from lo to hi, both included. */
  ghost predicate DatedWithin(s: seq<Point>, lo: Date, hi: Date)
  {
    forall i :: 0 <= i < |s| ==> lo <= s[i].date <= hi
  }

  ghost predicate HasDate(s: seq<Point>, d: Date)
  {
    exists i :: 0 <= i < |s| && s[i].date == d
  }

  /** `frame.loc[start : to]` on a frame with a sorted date index: the rows dated from
      start to to, both ends included, in their original order. */
  function Window(rows: seq<PriceRow>, start: Date, to: Date): (w: seq<PriceRow>)
    ensures |w| <= |rows|
    ensures forall i :: 0 <= i < |w| ==> start <= w[i].date <= to
  {
    if |rows| == 0 then []
    else
      var rest := Window(rows[1..], start, to);
      if start <= rows[0].date <= to then [rows[0]] + rest else rest
  }

  /** The window keeps exactly the rows dated from start to to. */
  lemma {:induction false} WindowMembers(rows: seq<PriceRow>, start: Date, to: Date)
    ensures forall row :: row in Window(rows, start, to) <==> row in rows && start <= row.date <= to
    decreases |rows|
  {
    if |rows| > 0 {
      WindowMembers(rows[1..], start, to);
      assert rows == [rows[0]] + rows[1..];
    }
  }

  /** The window of rows in strict date order is in strict date order. */
  lemma {:induction false} WindowIncreasing(rows: seq<PriceRow>, start: Date, to: Date)
    requires StrictlyIncreasing(rows)
    ensures StrictlyIncreasing(Window(rows, start, to))
    decreases |rows|
  {
    if |rows| > 0 {
      var rest := Window(rows[1..], start, to);
      WindowIncreasing(rows[1..], start, to);
      WindowMembers(rows[1..], start, to);
      if start <= rows[0].date <= to {
        var w := [rows[0]] + rest;
        forall i, j | 0 <= i < j < |w|
          ensures w[i].date < w[j].date
        {
          if i == 0 {
            assert w[j] in rest;
            assert w[j] in rows[1..];
          }
        }
      }
    }
  }

  /** `pd.concat` of a list of series: their entries one after another. */
  function Concat(segments: seq<seq<Point>>): (c: seq<Point>)
    ensures forall i :: 0 <= i < |segments| ==> forall p :: p in segments[i] ==> p in c
    ensures forall p :: p in c ==> exists i :: 0 <= i < |segments| && p in segments[i]
  {
    if |segments| == 0 then []
    else segments[0] + Concat(segments[1..])
  }

  /** Non-empty series, each in date order, each ending no later than the next one
      begins. */
  ghost predicate InOrder(segments: seq<seq<Point>>)
  {
    && (forall i :: 0 <= i < |segments| ==> |segments[i]| > 0 && SortedByDate(segments[i]))
    && (forall i :: 0 < i < |segments| ==> Last(segments[i - 1]).date <= segments[i][0].date)
  }

  function Last(s: seq<Point>): Point
    requires |s| > 0
  {
    s[|s| - 1]
  }

  /** Two series in date order, the first ending no later than the second begins. */
  lemma AppendSorted(a: seq<Point>, b: seq<Point>)
    requires SortedByDate(a) && SortedByDate(b)
    requires |a| > 0 && |b| > 0 ==> Last(a).date <= b[0].date
    ensures SortedByDate(a + b)
  {
    var c := a + b;
    forall i, j | 0 <= i < j < |c|
      ensures c[i].date <= c[j].date
    {
      if i < |a| <= j {
        assert c[i].date <= Last(a).date;
        assert b[0].date <= c[j].date;
      }
    }
  }

  /** Concatenating series that are in order gives a series in date order, starting
      with the first entry of the first series. */
  lemma {:induction false} ConcatSorted(segments: seq<seq<Point>>)
    requires InOrder(segments)
    ensures SortedByDate(Concat(segments))
    ensures |segments| > 0 ==> |Concat(segments)| > 0 && Concat(segments)[0] == segments[0][0]
    decreases |segments|
  {
    if |segments| > 0 {
      var rest := segments[1..];
      assert InOrder(rest) by {
        forall i | 0 < i < |rest|
          ensures Last(rest[i - 1]).date <= rest[i][0].date
        {
          assert rest[i - 1] == segments[i] && rest[i] == segments[i + 1];
        }
      }
      ConcatSorted(rest);
      AppendSorted(segments[0], Concat(rest));
    }
  }

  /** `s[d] = v`: every entry labelled d takes the value v; when there is none, a new
      entry is added at the end. */
  function SetAt(s: seq<Point>, d: Date, v: real): (r: seq<Point>)
    ensures HasDate(r, d)
    ensures forall i :: 0 <= i < |r| && r[i].date == d ==> r[i].value == v
    ensures forall i :: 0 <= i < |s| && s[i].date != d ==> s[i] in r
    ensures forall i :: 0 <= i < |r| && r[i].date != d ==> r[i] in s
    ensures HasDate(s, d) ==> |r| == |s| && forall i :: 0 <= i < |s| ==> r[i].date == s[i].date
    ensures !HasDate(s, d) ==> r == s + [Point(d, v)]
  {
    if exists i :: 0 <= i < |s| && s[i].date == d then
      var r := seq(|s|, i requires 0 <= i < |s| => if s[i].date == d then Point(d, v) else s[i]);
      assert forall i :: 0 <= i < |s| && s[i].date != d ==> r[i] == s[i];
      assert HasDate(r, d) by {
        var k :| 0 <= k < |s| && s[k].date == d;
        assert r[k].date == d;
      }
      r
    else
      var r := s + [Point(d, v)];
      assert r[|s|].date == d;
      r
  }

  /** Puts p into a date-sorted series after every entry dated no later than p. */
  function Insert(s: seq<Point>, p: Point): (r: seq<Point>)
    requires SortedByDate(s)
    ensures SortedByDate(r)
    ensures |r| == |s| + 1
    ensures forall x :: x in r <==> x in s || x == p
    decreases |s|
  {
    if |s| == 0 || s[|s| - 1].date <= p.date then s + [p]
    else
      var init, last := s[..|s| - 1], s[|s| - 1];
      assert s == init + [last];
      var t := Insert(init, p);
      InsertedNoLaterThan(init, p, t, last);
      t + [last]
  }

  /** Everything Insert(init, p) holds is dated no later than last, when init is and p
      is. */
  lemma InsertedNoLaterThan(init: seq<Point>, p: Point, t: seq<Point>, last: Point)
    requires forall x :: x in t ==> x in init || x == p
    requires forall i :: 0 <= i < |init| ==> init[i].date <= last.date
    requires p.date <= last.date
    ensures forall i :: 0 <= i < |t| ==> t[i].date <= last.date
  {
    forall i | 0 <= i < |t|
      ensures t[i].date <= last.date
    {
      assert t[i] in t;
      if t[i] != p {
        var j :| 0 <= j < |init| && init[j] == t[i];
      }
    }
  }

  /** Insert adds exactly one entry, p, and keeps every other one. */
  lemma {:induction false} InsertPermutes(s: seq<Point>, p: Point)
    requires SortedByDate(s)
    ensures multiset(Insert(s, p)) == multiset(s) + multiset{p}
    decreases |s|
  {
    if !(|s| == 0 || s[|s| - 1].date <= p.date) {
      var init, last := s[..|s| - 1], s[|s| - 1];
      assert s == init + [last];
      InsertPermutes(init, p);
    }
  }

  /** `sort_index()`: the same entries, ordered by date. */
  function SortByDate(s: seq<Point>): (r: seq<Point>)
    ensures SortedByDate(r)
    ensures |r| == |s|
    ensures forall x :: x in r <==> x in s
    decreases |s|
  {
    if |s| == 0 then []
    else
      var init, last := s[..|s| - 1], s[|s| - 1];
      assert s == init + [last];
      Insert(SortByDate(init), last)
  }

  /** Sorting only reorders: every entry is kept as many times as it occurs. */
  lemma {:induction false} SortPermutes(s: seq<Point>)
    ensures multiset(SortByDate(s)) == multiset(s)
    decreases |s|
  {
    if |s| > 0 {
      var init, last := s[..|s| - 1], s[|s| - 1];
      assert s == init + [last];
      SortPermutes(init);
      InsertPermutes(SortByDate(init), last);
    }
  }

  /** Sorting s with one more entry at the end inserts that entry into sorted s. */
  lemma SortAppend(s: seq<Point>, p: Point)
    ensures SortByDate(s + [p]) == Insert(SortByDate(s), p)
  {
    assert (s + [p])[..|s|] == s;
  }

  /** Sorting a series that is already in date order changes nothing. */
  lemma {:induction false} SortOfSorted(s: seq<Point>)
    requires SortedByDate(s)
    ensures SortByDate(s) == s
    decreases |s|
  {
    if |s| > 0 {
      var init, last := s[..|s| - 1], s[|s| - 1];
      assert SortedByDate(init);
      SortOfSorted(init);
      assert SortByDate(s) == Insert(init, last);
      assert |init| == 0 || init[|init| - 1].date <= last.date;
      assert s == init + [last];
    }
  }

  /** An entry dated before everything in a sorted series is inserted at the front. */
  lemma {:induction false} InsertEarliest(s: seq<Point>, p: Point)
    requires SortedByDate(s)
    requires forall i :: 0 <= i < |s| ==> p.date < s[i].date
    ensures Insert(s, p) == [p] + s
    decreases |s|
  {
    if |s| > 0 {
      var init := s[..|s| - 1];
      InsertEarliest(init, p);
      assert s == init + [s[|s| - 1]];
    }
  }

  /** Setting v at date d of a date-ordered series dated d or later, then sorting,
      gives a date-ordered series that starts with Point(d, v) and holds every entry of
      the series not dated d, and nothing else. */
  lemma SetEarliestAndSort(c: seq<Point>, d: Date, v: real)
    requires SortedByDate(c)
    requires forall i :: 0 <= i < |c| ==> d <= c[i].date
    ensures SortedByDate(SortByDate(SetAt(c, d, v)))
    ensures |SortByDate(SetAt(c, d, v))| > 0 && SortByDate(SetAt(c, d, v))[0] == Point(d, v)
    ensures forall x :: x in SortByDate(SetAt(c, d, v)) && x.date != d ==> x in c
    ensures forall x :: x in c && x.date != d ==> x in SortByDate(SetAt(c, d, v))
    ensures forall x :: x in SortByDate(SetAt(c, d, v)) && x.date == d ==> x == Point(d, v)
  {
    var sa := SetAt(c, d, v);
    forall x | x in SortByDate(sa) && x.date == d
      ensures x == Point(d, v)
    {
      var i :| 0 <= i < |sa| && sa[i] == x;
    }
    if HasDate(c, d) {
      SetExistingEarliest(c, d, v);
    } else {
      SetMissingEarliest(c, d, v);
    }
    SetAtKeepsOthers(c, d, v);
  }

  /** The entries of SetAt(c, d, v) not dated d are those of c. */
  lemma SetAtKeepsOthers(c: seq<Point>, d: Date, v: real)
    ensures forall x :: x in SetAt(c, d, v) && x.date != d ==> x in c
    ensures forall x :: x in c && x.date != d ==> x in SetAt(c, d, v)
  {
    var sa := SetAt(c, d, v);
    forall x | x in sa && x.date != d
      ensures x in c
    {
      var i :| 0 <= i < |sa| && sa[i] == x;
    }
    forall x | x in c && x.date != d
      ensures x in sa
    {
      var i :| 0 <= i < |c| && c[i] == x;
    }
  }

  /** When c already has an entry dated d, which is its earliest date, SetAt keeps
      the order and Point(d, v) comes first. */
  lemma SetExistingEarliest(c: seq<Point>, d: Date, v: real)
    requires SortedByDate(c) && HasDate(c, d)
    requires forall i :: 0 <= i < |c| ==> d <= c[i].date
    ensures SortByDate(SetAt(c, d, v)) == SetAt(c, d, v)
    ensures |SetAt(c, d, v)| > 0 && SetAt(c, d, v)[0] == Point(d, v)
  {
    var sa := SetAt(c, d, v);
    assert SortedByDate(sa);
    SortOfSorted(sa);
    var k :| 0 <= k < |c| && c[k].date == d;
    assert c[0].date <= c[k].date;
    assert sa[0].date == d;
  }

  /** When c has no entry dated d and starts later, the new entry goes to the front. */
  lemma SetMissingEarliest(c: seq<Point>, d: Date, v: real)
    requires SortedByDate(c) && !HasDate(c, d)
    requires forall i :: 0 <= i < |c| ==> d <= c[i].date
    ensures SortByDate(SetAt(c, d, v)) == [Point(d, v)] + c
  {
    var p := Point(d, v);
    SortAppend(c, p);
    SortOfSorted(c);
    InsertEarliest(c, p);
  }
}
