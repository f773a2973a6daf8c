/** The summary the `home` view of `conditions/views.py` computes from the
    forecast hours: the hours from now on, how many of them are ok, the
    percentage, and the first and last ok times. Rendering is not modelled. */
module Views {
  import opened Wrappers
  import opened Snorkel

  /** `[x for x in xs if p(x)]`. */
  function Filter<T>(xs: seq<T>, p: T -> bool): (r: seq<T>)
    ensures |r| <= |xs|
    ensures forall x :: x in r ==> x in xs && p(x)
    decreases |xs|
  {
    if xs == [] then []
    else
      var n := |xs| - 1;
      Filter(xs[..n], p) + (if p(xs[n]) then [xs[n]] else [])
  }

  /** Filtering distributes over concatenation, so it keeps the order of
      the input. */
  lemma {:induction false} FilterAppend<T>(a: seq<T>, b: seq<T>, p: T -> bool)
    ensures Filter(a + b, p) == Filter(a, p) + Filter(b, p)
    decreases |b|
  {
    if b == [] {
      assert a + b == a;
    } else {
      var n := |b| - 1;
      var ab := a + b;
      assert ab[..|ab| - 1] == a + b[..n];
      assert ab[|ab| - 1] == b[n];
      FilterAppend(a, b[..n], p);
      var last := if p(b[n]) then [b[n]] else [];
      calc {
        Filter(ab, p);
        Filter(a + b[..n], p) + last;
        (Filter(a, p) + Filter(b[..n], p)) + last;
        Filter(a, p) + (Filter(b[..n], p) + last);
      }
    }
  }

  /** Every element of the input that satisfies `p` is kept. */
  lemma {:induction false} FilterKeeps<T>(xs: seq<T>, p: T -> bool, x: T)
    ensures x in Filter(xs, p) <==> x in xs && p(x)
    decreases |xs|
  {
    if xs != [] {
      var n := |xs| - 1;
      FilterKeeps(xs[..n], p, x);
      if x in xs && p(x) && x != xs[n] {
        var i :| 0 <= i < |xs| && xs[i] == x;
        assert xs[..n][i] == x;
      }
    }
  }

  /** Filtering twice is filtering once by both conditions. */
  lemma {:induction false} FilterFilter<T>(xs: seq<T>, p: T -> bool, q: T -> bool, pq: T -> bool)
    requires forall x :: pq(x) == (p(x) && q(x))
    ensures Filter(Filter(xs, p), q) == Filter(xs, pq)
    decreases |xs|
  {
    if xs != [] {
      var n := |xs| - 1;
      FilterFilter(xs[..n], p, q, pq);
      FilterAppend(Filter(xs[..n], p), if p(xs[n]) then [xs[n]] else [], q);
    }
  }

  /** The first element kept is the first element of the input that
      satisfies the condition. */
  lemma {:induction false} FilterFirst<T>(xs: seq<T>, p: T -> bool)
    requires Filter(xs, p) != []
    ensures exists i :: (0 <= i < |xs| && p(xs[i]) && Filter(xs, p)[0] == xs[i] &&
      forall j :: 0 <= j < i ==> !p(xs[j]))
    decreases |xs|
  {
    var n := |xs| - 1;
    var init := xs[..n];
    if Filter(init, p) != [] {
      FilterFirst(init, p);
      var i :| 0 <= i < n && p(init[i]) && Filter(init, p)[0] == init[i] &&
        forall j :: 0 <= j < i ==> !p(init[j]);
      assert xs[i] == init[i];
      forall j | 0 <= j < i
        ensures !p(xs[j])
      {
        assert xs[j] == init[j];
      }
    } else {
      forall j | 0 <= j < n
        ensures !p(xs[j])
      {
        assert xs[j] == init[j];
        FilterKeeps(init, p, xs[j]);
      }
      assert Filter(xs, p)[0] == xs[n];
    }
  }

  /** The last element kept is the last element of the input that satisfies
      the condition. */
  lemma {:induction false} FilterLast<T>(xs: seq<T>, p: T -> bool)
    requires Filter(xs, p) != []
    ensures var r := Filter(xs, p);
      exists i :: (0 <= i < |xs| && p(xs[i]) && r[|r| - 1] == xs[i] &&
        forall j :: i < j < |xs| ==> !p(xs[j]))
    decreases |xs|
  {
    var n := |xs| - 1;
    var init := xs[..n];
    if !p(xs[n]) {
      FilterLast(init, p);
      var r := Filter(init, p);
      var i :| 0 <= i < n && p(init[i]) && r[|r| - 1] == init[i] &&
        forall j :: i < j < n ==> !p(init[j]);
      assert xs[i] == init[i];
      forall j | i < j < |xs|
        ensures !p(xs[j])
      {
        if j < n {
          assert xs[j] == init[j];
        }
      }
    }
  }

  /** The view's summary. */
  datatype Summary = Summary(
    hours: seq<Hour>,
    totalHours: nat,
    okCount: nat,
    percentOk: int,
    earliestOk: Option<int>,
    latestOk: Option<int>)

  function Upcoming(allHours: seq<Hour>, now: int): seq<Hour> {
    Filter(allHours, (h: Hour) => h.time >= now)
  }

  function OkHours(hours: seq<Hour>): seq<Hour> {
    Filter(hours, (h: Hour) => h.ok)
  }

  /** Python's `round` of `num / den * 100` on exact numbers: to the nearest
      integer, halves to the even neighbour. */
  function RoundPercent(num: nat, den: nat): (p: int)
    requires den > 0
    ensures RoundedHalfEven(100 * num, den, p)
  {
    var a := 100 * num;
    var q := a / den;
    var rem := a % den;
    var p := if 2 * rem > den || (2 * rem == den && q % 2 == 1) then q + 1 else q;
    RoundingCorrect(a, den, q, rem, p);
    p
  }

  /** Rounding up exactly when the remainder is past one half, or is one
      half and the quotient is odd, rounds half to even. */
  lemma RoundingCorrect(a: int, d: int, q: int, rem: int, p: int)
    requires d > 0 && a == q * d + rem && 0 <= rem < d
    requires p == if 2 * rem > d || (2 * rem == d && q % 2 == 1) then q + 1 else q
    ensures RoundedHalfEven(a, d, p)
  {
    if p == q + 1 {
      MulSucc(q, d);
      assert a - p * d == rem - d;
    } else {
      assert a - p * d == rem;
    }
  }

  /** `p` is `a / d` rounded to the nearest integer, halves to even: the
      error `a - p * d` is at most half of `d` either way, and a tie goes to
      an even `p`. */
  predicate RoundedHalfEven(a: int, d: int, p: int) {
    var e := a - p * d;
    && -d <= 2 * e <= d
    && (2 * e == d ==> p % 2 == 0)
    && (2 * e == -d ==> p % 2 == 0)
  }

  lemma MulSucc(q: int, d: int)
    ensures (q + 1) * d == q * d + d
  {
  }

  lemma MulLe(a: int, b: int, t: int)
    requires a <= b && t >= 0
    ensures a * t <= b * t
  {
    assert b * t - a * t == (b - a) * t;
  }

  /** `home`'s summary of the forecast hours at time `now`. */
  function Summarize(allHours: seq<Hour>, now: int): Summary {
    var hours := Upcoming(allHours, now);
    var okHours := OkHours(hours);
    var total := |hours|;
    Summary(
      hours, total, |okHours|,
      if total > 0 then RoundPercent(|okHours|, total) else 0,
      if okHours != [] then Some(okHours[0].time) else None,
      if okHours != [] then Some(okHours[|okHours| - 1].time) else None)
  }

  /** The shown hours are exactly the hours from `now` on, in their order. */
  lemma UpcomingHours(a: seq<Hour>, b: seq<Hour>, now: int, h: Hour)
    ensures h in Summarize(a, now).hours <==> h in a && h.time >= now
    ensures Summarize(a + b, now).hours == Summarize(a, now).hours + Summarize(b, now).hours
  {
    FilterKeeps(a, (h: Hour) => h.time >= now, h);
    FilterAppend(a, b, (h: Hour) => h.time >= now);
  }

  /** The counts: no more ok hours than hours, and the ok hours are exactly
      the ok hours shown. */
  lemma Counts(allHours: seq<Hour>, now: int, h: Hour)
    ensures var s := Summarize(allHours, now);
      0 <= s.okCount <= s.totalHours && s.totalHours == |s.hours|
    ensures h in OkHours(Summarize(allHours, now).hours) <==> h in allHours && h.time >= now && h.ok
  {
    var hours := Upcoming(allHours, now);
    FilterKeeps(hours, (h: Hour) => h.ok, h);
    FilterKeeps(allHours, (h: Hour) => h.time >= now, h);
  }

  /** The percentage is 0 without hours; otherwise it is the exact
      percentage rounded half to even, so it lies in [0, 100], it is 100
      when every hour is ok, and it is 0 exactly when at most one hour in
      two hundred is. */
  lemma PercentBounds(allHours: seq<Hour>, now: int)
    ensures var s := Summarize(allHours, now);
      && (s.totalHours == 0 ==> s.percentOk == 0)
      && (s.totalHours > 0 ==> RoundedHalfEven(100 * s.okCount, s.totalHours, s.percentOk))
      && 0 <= s.percentOk <= 100
      && (s.totalHours > 0 ==> (s.percentOk == 0 <==> 200 * s.okCount <= s.totalHours))
      && (s.totalHours > 0 && s.okCount == s.totalHours ==> s.percentOk == 100)
  {
    var s := Summarize(allHours, now);
    assert s.okCount <= s.totalHours;
    if s.totalHours > 0 {
      PercentRange(s.okCount, s.totalHours, s.percentOk);
    }
  }

  /** The bounds of `100 * n / t` rounded half to even, for `n <= t`. */
  lemma PercentRange(n: int, t: int, p: int)
    requires 0 <= n <= t && 0 < t
    requires RoundedHalfEven(100 * n, t, p)
    ensures 0 <= p <= 100
    ensures p == 0 <==> 200 * n <= t
    ensures n == t ==> p == 100
  {
    var e := 100 * n - p * t;
    if p <= -1 {
      MulLe(p, -1, t);
      assert false;
    }
    if p >= 101 {
      MulLe(101, p, t);
      assert false;
    }
    if p == 1 && 200 * n <= t {
      assert false;
    }
    if p >= 2 && 200 * n <= t {
      MulLe(2, p, t);
      assert false;
    }
    if n == t {
      assert e == (100 - p) * t;
      if p <= 99 {
        MulLe(1, 100 - p, t);
        assert false;
      }
    }
  }

  /** The first and last ok times are absent exactly when no shown hour is
      ok; otherwise they are the times of the first and the last hour of the
      input, in its order, that is from `now` on and ok. */
  lemma EarliestAndLatest(allHours: seq<Hour>, now: int)
    ensures var s := Summarize(allHours, now);
      && (s.earliestOk.None? <==> forall h :: h in allHours && h.time >= now ==> !h.ok)
      && (s.latestOk.None? <==> s.earliestOk.None?)
      && (s.earliestOk.Some? ==>
            exists i :: (0 <= i < |allHours| && allHours[i].time >= now && allHours[i].ok &&
              s.earliestOk.value == allHours[i].time &&
              forall j :: 0 <= j < i ==> !(allHours[j].time >= now && allHours[j].ok)))
      && (s.latestOk.Some? ==>
            exists i :: (0 <= i < |allHours| && allHours[i].time >= now && allHours[i].ok &&
              s.latestOk.value == allHours[i].time &&
              forall j :: i < j < |allHours| ==> !(allHours[j].time >= now && allHours[j].ok)))
  {
    var okHours := OkHours(Upcoming(allHours, now));
    forall h | h in allHours && h.time >= now && h.ok
      ensures okHours != []
    {
      Counts(allHours, now, h);
    }
    if okHours != [] {
      var shownOk := (h: Hour) => h.time >= now && h.ok;
      FilterFilter(allHours, (h: Hour) => h.time >= now, (h: Hour) => h.ok, shownOk);
      FilterFirst(allHours, shownOk);
      FilterLast(allHours, shownOk);
    }
  }
}
