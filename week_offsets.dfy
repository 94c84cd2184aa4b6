/**
 * Which weeks of the remote calendar a watcher has to fetch.  Calendar days are ordinals, day 0
 * being Thursday 1970-01-01; parsing a `YYYY-MM-DD` text is a parameter that fails on malformed
 * input, as `strptime` raises.  Week offsets count seven-day blocks from an origin day: the
 * source counts them from today, while its own comment means calendar weeks counted from the
 * Monday of the current week; both are instances of the same computation here.
 */
module WeekOffsets {
  import opened Wrappers

  /** Every text in `dates` parses. */
  predicate AllParse(dates: seq<string>, parseDate: string -> Option<int>)
  {
    forall k :: 0 <= k < |dates| ==> parseDate(dates[k]).Some?
  }

  /** Python's `date.weekday()`: 0 for Monday up to 6 for Sunday. */
  function Weekday(day: int): (r: int)
    ensures 0 <= r < 7
  {
    (day + 3) % 7
  }

  /** The Monday of the calendar week holding `day`. */
  function MondayOf(day: int): (m: int)
    ensures m <= day < m + 7 && Weekday(m) == 0
  {
    day - Weekday(day)
  }

  /** The offsets, counted in seven-day blocks from `origin`, of the parsed dates that are
      today or later. */
  function OffsetSet(dates: seq<string>, today: int, origin: int, parseDate: string -> Option<int>): set<int>
    requires AllParse(dates, parseDate)
  {
    set k | 0 <= k < |dates| && parseDate(dates[k]).value >= today :: (parseDate(dates[k]).value - origin) / 7
  }

  /** A set with a member `x` has a least element. */
  lemma {:induction false} MinExists(s: set<int>, x: int)
    requires x in s
    ensures exists m :: m in s && forall y :: y in s ==> m <= y
    decreases |s|
  {
    if exists z :: z in s && z < x {
      var z :| z in s && z < x;
      var rest := s - {x};
      assert z in rest;
      MinExists(rest, z);
      var m :| m in rest && forall y :: y in rest ==> m <= y;
      forall y | y in s ensures m <= y {
        if y != x { assert y in rest; }
      }
    } else {
      assert forall y :: y in s ==> x <= y;
    }
  }

  /** The least element of a set that has one. */
  function MinOf(s: set<int>): (m: int)
    requires exists x :: x in s
    ensures m in s && forall y :: y in s ==> m <= y
  {
    var x :| x in s;
    MinExists(s, x);
    var m :| m in s && forall y :: y in s ==> m <= y;
    m
  }

  predicate StrictlyAscending(r: seq<int>)
  {
    forall i, j :: 0 <= i < j < |r| ==> r[i] < r[j]
  }

  /** `sorted(s)` for a set of integers: its elements, each once, in ascending order. */
  function SortedElements(s: set<int>): (r: seq<int>)
    ensures StrictlyAscending(r)
    ensures forall x :: x in r <==> x in s
    ensures |r| == |s|
    decreases |s|
  {
    if forall x :: x !in s then
      assert s == {};
      []
    else
      var m := MinOf(s);
      var tail := SortedElements(s - {m});
      assert forall x :: x in tail ==> m < x;
      [m] + tail
  }

  /** `calculate_week_offsets_for_dates`: `None` when some target date does not parse (the
      source raises), otherwise the distinct offsets of the dates not in the past, ascending.
      The source counts from `origin == today`. */
  function WeekOffsetsOf(dates: seq<string>, today: int, origin: int, parseDate: string -> Option<int>): Option<seq<int>>
  {
    if AllParse(dates, parseDate) then Some(SortedElements(OffsetSet(dates, today, origin, parseDate))) else None
  }

  /** `calculate_week_offsets_for_dates`, as the loop the source runs: each date is parsed, its
      floor-divided distance from today taken, and past dates skipped. */
  method CalculateWeekOffsets(targetDates: seq<string>, today: int, origin: int, parseDate: string -> Option<int>)
    returns (r: Option<seq<int>>)
    ensures r == WeekOffsetsOf(targetDates, today, origin, parseDate)
  {
    var weekOffsets: set<int> := {};
    var i := 0;
    while i < |targetDates|
      invariant 0 <= i <= |targetDates|
      invariant AllParse(targetDates[..i], parseDate)
      invariant weekOffsets == OffsetSet(targetDates[..i], today, origin, parseDate)
    {
      var parsed := parseDate(targetDates[i]);
      if parsed.None? {
        return None;
      }
      var targetDate := parsed.value;
      var daysDiff := targetDate - today;
      var weekOffset := (targetDate - origin) / 7;
      var prefix := targetDates[..i + 1];
      assert prefix[..i] == targetDates[..i] && prefix[i] == targetDates[i];
      if daysDiff >= 0 {
        weekOffsets := weekOffsets + {weekOffset};
      }
      OffsetSetSnoc(targetDates[..i], targetDates[i], today, origin, parseDate);
      assert targetDates[..i] + [targetDates[i]] == prefix;
      i := i + 1;
    }
    assert targetDates[..i] == targetDates;
    r := Some(SortedElements(weekOffsets));
  }

  /** Appending one date adds its offset when it is not in the past, and nothing otherwise. */
  lemma OffsetSetSnoc(dates: seq<string>, d: string, today: int, origin: int, parseDate: string -> Option<int>)
    requires AllParse(dates, parseDate) && parseDate(d).Some?
    ensures AllParse(dates + [d], parseDate)
    ensures OffsetSet(dates + [d], today, origin, parseDate) ==
      OffsetSet(dates, today, origin, parseDate) +
      (if parseDate(d).value >= today then {(parseDate(d).value - origin) / 7} else {})
  {
    var ds := dates + [d];
    assert forall k :: 0 <= k < |dates| ==> ds[k] == dates[k];
    assert ds[|dates|] == d;
  }

  /** The distance in days from the origin, floor-divided by seven, is the offset of the
      seven-day block holding the day. */
  lemma BlockOfDistance(d: int, origin: int, w: int)
    ensures (d - origin) / 7 == w <==> origin + 7 * w <= d < origin + 7 * w + 7
  {
  }

  /** The computation fails exactly when some target date does not parse.  Otherwise the
      result lists exactly the blocks that hold a target date not in the past, each once, in
      ascending order: `w` is listed iff some target date `d >= today` falls in the seven days
      starting `7 * w` days after the origin. */
  lemma {:induction false} WeekOffsetsSpec(dates: seq<string>, today: int, origin: int, parseDate: string -> Option<int>, w: int)
    ensures WeekOffsetsOf(dates, today, origin, parseDate).None? <==>
      exists k :: 0 <= k < |dates| && parseDate(dates[k]).None?
    ensures WeekOffsetsOf(dates, today, origin, parseDate).Some? ==>
      var r := WeekOffsetsOf(dates, today, origin, parseDate).value;
      StrictlyAscending(r) &&
      (w in r <==> exists k :: 0 <= k < |dates| && today <= parseDate(dates[k]).value &&
                               origin + 7 * w <= parseDate(dates[k]).value < origin + 7 * w + 7)
  {
    if AllParse(dates, parseDate) {
      var r := WeekOffsetsOf(dates, today, origin, parseDate).value;
      var s := OffsetSet(dates, today, origin, parseDate);
      if w in r {
        assert w in s;
        var k :| 0 <= k < |dates| && parseDate(dates[k]).value >= today && w == (parseDate(dates[k]).value - origin) / 7;
        BlockOfDistance(parseDate(dates[k]).value, origin, w);
      }
      if exists k :: 0 <= k < |dates| && today <= parseDate(dates[k]).value &&
                     origin + 7 * w <= parseDate(dates[k]).value < origin + 7 * w + 7 {
        var k :| 0 <= k < |dates| && today <= parseDate(dates[k]).value &&
                 origin + 7 * w <= parseDate(dates[k]).value < origin + 7 * w + 7;
        BlockOfDistance(parseDate(dates[k]).value, origin, w);
        assert w in s;
      }
    }
  }

  /** Counted from an origin not after today, every offset is non-negative, and there is none
      when all target dates are in the past. */
  lemma WeekOffsetsBounds(dates: seq<string>, today: int, origin: int, parseDate: string -> Option<int>)
    requires AllParse(dates, parseDate) && origin <= today
    ensures forall w :: w in WeekOffsetsOf(dates, today, origin, parseDate).value ==> w >= 0
    ensures (forall k :: 0 <= k < |dates| ==> parseDate(dates[k]).value < today) ==>
      WeekOffsetsOf(dates, today, origin, parseDate) == Some([])
  {
    var s := OffsetSet(dates, today, origin, parseDate);
    if forall k :: 0 <= k < |dates| ==> parseDate(dates[k]).value < today {
      assert s == {};
    }
  }

  /** Counted from the Monday of the current week, offset `w` is the calendar week (Monday to
      Sunday) `w` weeks after the current one. */
  lemma CalendarWeekOfOffset(d: int, today: int, w: int)
    ensures (d - MondayOf(today)) / 7 == w <==> MondayOf(d) == MondayOf(today) + 7 * w
  {
    var m := MondayOf(today);
    BlockOfDistance(d, m, w);
    var md := MondayOf(d);
    assert Weekday(m + 7 * w) == 0;
    if m + 7 * w <= d < m + 7 * w + 7 {
      assert md == m + 7 * w;
    }
  }

  /** As written, a Monday checked on the Sunday before gets offset 0, the week of today,
      although it lies in the next calendar week: day 3 is a Sunday and day 4 the next Monday. */
  lemma NextMondayCheckedOnSunday()
    ensures Weekday(3) == 6 && Weekday(4) == 0
    ensures WeekOffsetsOf(["1970-01-05"], 3, 3, (s: string) => Some(4)) == Some([0])
    ensures MondayOf(4) == MondayOf(3) + 7
    ensures WeekOffsetsOf(["1970-01-05"], 3, MondayOf(3), (s: string) => Some(4)) == Some([1])
  {
    var p := (s: string) => Some(4);
    var ds := ["1970-01-05"];
    assert ds[0] == "1970-01-05" && |ds| == 1;
    assert AllParse(ds, p);
    assert OffsetSet(ds, 3, 3, p) == {0};
    assert OffsetSet(ds, 3, MondayOf(3), p) == {1};
    SortedSingleton(0);
    SortedSingleton(1);
  }

  lemma SortedSingleton(x: int)
    ensures SortedElements({x}) == [x]
  {
    var r := SortedElements({x});
    assert |r| == 1 && x in r;
  }
}
