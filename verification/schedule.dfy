/** The update schedule: a bounded list of times, filled from the directives of a schedule file. */
module Schedule {
  import opened Basics

  /** What insertion returns for a time that has passed: the greatest 64-bit index. */
  const PASSED := 0xFFFF_FFFF_FFFF_FFFF

  // ---------------------------------------------------------------------------------------------
  // The list as the smallest of a set
  // ---------------------------------------------------------------------------------------------

  ghost predicate Increasing(s: seq<int>) {
    forall i, j :: 0 <= i < j < |s| ==> s[i] < s[j]
  }

  /** A list of at most max times, all of them after `after`, each once and in order. */
  ghost predicate Valid(s: seq<int>, max: nat, after: int) {
    Increasing(s) && |s| <= max && forall x :: x in s ==> x > after
  }

  /** s holds the max smallest of the times in all that lie after `after`. */
  ghost predicate Smallest(s: seq<int>, all: iset<int>, max: nat, after: int) {
    Valid(s, max, after) && (forall x :: x in s ==> x in all)
    && forall t :: t in all && t > after && t !in s ==> |s| == max && forall x :: x in s ==> x < t
  }

  lemma {:induction false} NextIsThere(s: seq<int>, s': seq<int>, all: iset<int>, max: nat, after: int, n: nat)
    requires Smallest(s, all, max, after) && Smallest(s', all, max, after)
    requires n < |s| && n <= |s'| && s[..n] == s'[..n]
    ensures n < |s'| && s'[n] <= s[n]
  {
    var t := s[n];
    assert t in s;
    assert forall j :: 0 <= j < n ==> s'[j] == s'[..n][j] == s[..n][j] == s[j];
    if t in s' {
      var k :| 0 <= k < |s'| && s'[k] == t;
    } else {
      assert |s'| == max;
      assert s'[n] in s';
    }
  }

  /** The set determines the list. */
  lemma {:induction false} SmallestIsUnique(s: seq<int>, s': seq<int>, all: iset<int>, max: nat, after: int, n: nat)
    requires Smallest(s, all, max, after) && Smallest(s', all, max, after)
    requires n <= |s| && n <= |s'| && s[..n] == s'[..n]
    ensures s == s'
    decreases |s| - n
  {
    if n < |s| {
      NextIsThere(s, s', all, max, after, n);
      NextIsThere(s', s, all, max, after, n);
      assert s[..n + 1] == s[..n] + [s[n]] == s'[..n] + [s'[n]] == s'[..n + 1];
      SmallestIsUnique(s, s', all, max, after, n + 1);
    } else if n < |s'| {
      NextIsThere(s', s, all, max, after, n);
    } else {
      assert s == s[..n] && s' == s'[..n];
    }
  }

  // ---------------------------------------------------------------------------------------------
  // Insertion and removal
  // ---------------------------------------------------------------------------------------------

  /** The times before index p are before t, the others are not. */
  ghost predicate SplitAt(s: seq<int>, t: int, p: nat) {
    p <= |s| && (forall i :: 0 <= i < p ==> s[i] < t) && (forall i :: p <= i < |s| ==> s[i] >= t)
  }

  /** Where a sorted list splits into times before t and the others. */
  function PartitionPoint(s: seq<int>, t: int): (r: nat)
    ensures r <= |s|
    ensures Increasing(s) ==> SplitAt(s, t, r)
  {
    if s == [] then 0
    else
      var n := |s| - 1;
      var p := PartitionPoint(s[..n], t);
      SplitMore(s, t, p);
      if p == n && s[n] < t then n + 1 else p
  }

  lemma {:induction false} SplitMore(s: seq<int>, t: int, p: nat)
    requires |s| > 0 && p <= |s| - 1
    ensures Increasing(s) && (Increasing(s[..|s| - 1]) ==> SplitAt(s[..|s| - 1], t, p)) ==>
              SplitAt(s, t, if p == |s| - 1 && s[|s| - 1] < t then |s| else p)
  {
    var n := |s| - 1;
    if Increasing(s) {
      assert forall i :: 0 <= i < n ==> s[..n][i] == s[i];
      assert Increasing(s[..n]);
      if SplitAt(s[..n], t, p) && p < n {
        assert s[..n][p] == s[p] && s[p] < s[n];
      }
    }
  }

  /** s with t put in at pos. */
  function Joined(s: seq<int>, pos: nat, t: int): (r: seq<int>)
    requires pos <= |s|
    ensures |r| == |s| + 1
    ensures forall i :: 0 <= i < |r| ==> r[i] == if i < pos then s[i] else if i == pos then t else s[i - 1]
  {
    s[..pos] + [t] + s[pos..]
  }

  /** The list and the index after inserting t. */
  function Inserted(s: seq<int>, t: int, max: nat, after: int): (r: (seq<int>, nat)) {
    var pos := PartitionPoint(s, t);
    if t <= after then (s, PASSED)
    else if pos < |s| && s[pos] == t then (s, pos)
    else if pos >= max then (s, max)
    else
      var longer := Joined(s, pos, t);
      (if |longer| > max then longer[..|longer| - 1] else longer, pos)
  }

  function Removed(s: seq<int>, t: int): (r: seq<int>)
    ensures Increasing(s) ==> forall x :: x in r <==> x in s && x != t
    ensures Increasing(s) ==> Increasing(r) && |r| <= |s|
  {
    var pos := PartitionPoint(s, t);
    if pos < |s| && s[pos] == t then s[..pos] + s[pos + 1..] else s
  }

  /** A list that holds everything and one time more. */
  lemma {:induction false} InsertsAt(s: seq<int>, t: int)
    requires Increasing(s) && t !in s
    ensures var pos := PartitionPoint(s, t);
            var longer := Joined(s, pos, t);
            Increasing(longer) && longer[pos] == t && |longer| == |s| + 1
            && forall x :: x in longer <==> x in s || x == t
  {
    var pos := PartitionPoint(s, t);
    hide PartitionPoint;
    var longer := Joined(s, pos, t);
    forall i | pos <= i < |s|
      ensures s[i] > t
    {
      assert s[i] in s;
    }
    JoinedIncreasing(s, pos, t);
    hide Increasing;
    forall x | x in s
      ensures x in longer
    {
      var k :| 0 <= k < |s| && s[k] == x;
      assert longer[if k < pos then k else k + 1] == x;
    }
    assert longer[pos] == t;
  }

  lemma {:induction false} JoinedIncreasing(s: seq<int>, pos: nat, t: int)
    requires Increasing(s) && pos <= |s| && (forall i :: 0 <= i < pos ==> s[i] < t)
             && forall i :: pos <= i < |s| ==> s[i] > t
    ensures Increasing(Joined(s, pos, t))
  {
    var r := Joined(s, pos, t);
    hide Joined;
    forall i, j | 0 <= i < j < |r|
      ensures r[i] < r[j]
    {}
  }

  /** Dropping the last of an increasing list leaves all that are less. */
  lemma {:induction false} DropLast(s: seq<int>)
    requires Increasing(s) && |s| > 0
    ensures var r := s[..|s| - 1];
            Increasing(r) && s[|s| - 1] !in r && (forall x :: x in s <==> x in r || x == s[|s| - 1])
            && forall x :: x in r ==> x < s[|s| - 1]
  {
    var n := |s| - 1;
    forall x | x in s
      ensures x in s[..n] || x == s[n]
    {
      var k :| 0 <= k < |s| && s[k] == x;
      assert k < n ==> s[..n][k] == x;
    }
  }

  lemma {:induction false} PointOf(s: seq<int>, t: int)
    requires Increasing(s) && t in s
    ensures var pos := PartitionPoint(s, t); pos < |s| && s[pos] == t
  {
    var k :| 0 <= k < |s| && s[k] == t;
  }

  /** A new time that fits is in the list afterwards; a time pushed off the end is after all that remain. */
  lemma {:induction false} NewTime(s: seq<int>, t: int, max: nat, after: int)
    requires Valid(s, max, after) && t > after && t !in s && PartitionPoint(s, t) < max
    ensures var (r, idx) := Inserted(s, t, max, after);
            Valid(r, max, after) && idx == PartitionPoint(s, t) && idx < |r| && r[idx] == t
            && (forall x :: x in r ==> x in s || x == t) && (|s| == max ==> |r| == max && t < s[|s| - 1])
            && forall x :: x in s && x !in r ==> |r| == max && forall y :: y in r ==> y < x
  {
    var pos := PartitionPoint(s, t);
    var longer := Joined(s, pos, t);
    InsertsAt(s, t);
    assert !(pos < |s| && s[pos] == t);
    hide PartitionPoint, Joined;
    if |longer| > max {
      DropLast(longer);
      assert Inserted(s, t, max, after).0 == longer[..|longer| - 1];
    } else {
      assert Inserted(s, t, max, after).0 == longer;
    }
  }

  /** The other cases leave the list alone. */
  lemma {:induction false} OldTime(s: seq<int>, t: int, max: nat, after: int)
    requires Valid(s, max, after) && (t <= after || t in s || PartitionPoint(s, t) >= max)
    ensures var (r, idx) := Inserted(s, t, max, after);
            r == s
            && (t <= after ==> idx == PASSED)
            && (t > after && t in s ==> idx == PartitionPoint(s, t) && idx < |s| && s[idx] == t)
            && (t > after && t !in s ==> idx == max == |s| && forall x :: x in s ==> x < t)
  {
    if t in s {
      PointOf(s, t);
    }
  }

  /** Insertion keeps the max smallest of all times offered so far. */
  lemma {:induction false} InsertKeeps(s: seq<int>, all: iset<int>, t: int, max: nat, after: int)
    requires Smallest(s, all, max, after)
    ensures Smallest(Inserted(s, t, max, after).0, all + iset{t}, max, after)
  {
    hide Increasing, PartitionPoint, Inserted;
    if t <= after || t in s || PartitionPoint(s, t) >= max {
      OldTime(s, t, max, after);
    } else {
      NewTime(s, t, max, after);
      var r := Inserted(s, t, max, after).0;
      forall u | u in all + iset{t} && u > after && u !in r
        ensures |r| == max && forall x :: x in r ==> x < u
      {
        assert t in r;
        if u !in s {
          assert s[|s| - 1] in s;
        }
      }
    }
  }

  /** The index tells whether the time is in the list. */
  lemma {:induction false} InsertedIndex(s: seq<int>, t: int, max: nat, after: int)
    requires Valid(s, max, after) && max <= PASSED
    ensures var (r, idx) := Inserted(s, t, max, after);
            Valid(r, max, after)
            && (idx < max <==> t > after && PartitionPoint(s, t) < max)
            && (idx < max ==> idx < |r| && r[idx] == t && idx == PartitionPoint(s, t))
            && (idx >= max ==> r == s && (t <= after || (|s| == max && forall x :: x in s ==> x < t)))
  {
    hide PartitionPoint, Inserted;
    if t <= after || t in s || PartitionPoint(s, t) >= max {
      OldTime(s, t, max, after);
    } else {
      NewTime(s, t, max, after);
    }
  }

  // ---------------------------------------------------------------------------------------------
  // Repetition
  // ---------------------------------------------------------------------------------------------

  /** Where the loop over a repeated time stands: about to take the time after t, or done. */
  datatype Loop = Running(t: int, sched: seq<int>) | Done(sched: seq<int>)

  /** One iteration. */
  function Turn(l: Loop, delta: int, until: Option<int>, max: nat, after: int): Loop
    requires l.Running?
  {
    var t := l.t + delta;
    if until.Some? && t > until.value then Done(l.sched)
    else
      var (s, idx) := Inserted(l.sched, t, max, after);
      if idx >= max then Done(s) else Running(t, s)
  }

  /** The loop after at most n iterations. */
  function Iterate(s: seq<int>, anchor: int, delta: int, until: Option<int>, max: nat, after: int, n: nat): Loop {
    if n == 0 then Running(anchor, s)
    else
      var l := Iterate(s, anchor, delta, until, max, after, n - 1);
      if l.Done? then l else Turn(l, delta, until, max, after)
  }

  /** The time after k steps. */
  function TimeAt(anchor: int, delta: int, k: nat): int {
    if k == 0 then anchor else TimeAt(anchor, delta, k - 1) + delta
  }

  lemma {:induction false} TimesGrow(anchor: int, delta: int, j: nat, k: nat)
    requires delta >= 0 && j <= k
    ensures TimeAt(anchor, delta, j) <= TimeAt(anchor, delta, k)
    ensures delta > 0 && j < k ==> TimeAt(anchor, delta, j) < TimeAt(anchor, delta, k)
  {
    if j < k {
      TimesGrow(anchor, delta, j, k - 1);
    }
  }

  /** While the loop runs with a positive step, each time is in the list, further back than the one before. */
  lemma {:induction false} RunningIndex(s: seq<int>, anchor: int, delta: int, until: Option<int>, max: nat,
                                        after: int, n: nat)
    requires Valid(s, max, after) && max <= PASSED && delta > 0
    requires Iterate(s, anchor, delta, until, max, after, n).Running?
    ensures var l := Iterate(s, anchor, delta, until, max, after, n);
            l.t == TimeAt(anchor, delta, n) && Valid(l.sched, max, after) && n <= max
            && (n > 0 ==> exists i :: n - 1 <= i < |l.sched| && l.sched[i] == l.t)
  {
    hide Inserted, PartitionPoint;
    if n > 0 {
      RunningIndex(s, anchor, delta, until, max, after, n - 1);
      var l := Iterate(s, anchor, delta, until, max, after, n - 1);
      var t := l.t + delta;
      InsertedIndex(l.sched, t, max, after);
      var (r, idx) := Inserted(l.sched, t, max, after);
      assert r[idx] == t && idx == PartitionPoint(l.sched, t);
      if n > 1 {
        var i :| n - 2 <= i < |l.sched| && l.sched[i] == l.t;
        assert l.sched[i] < t;
        assert idx > i;
      }
    }
  }

  /** With a positive step the loop ends, within one iteration more than the list has room for. */
  lemma {:induction false} LoopEnds(s: seq<int>, anchor: int, delta: int, until: Option<int>, max: nat, after: int)
    requires Valid(s, max, after) && max <= PASSED && delta > 0
    ensures Iterate(s, anchor, delta, until, max, after, max + 1).Done?
  {
    hide Iterate;
    if Iterate(s, anchor, delta, until, max, after, max + 1).Running? {
      RunningIndex(s, anchor, delta, until, max, after, max + 1);
    }
  }

  /** A step of zero comes back to the anchor: it goes on forever when the anchor lies ahead, no end comes
      before it, and fewer than max times are earlier. */
  ghost predicate GoesOnForever(s: seq<int>, anchor: int, delta: int, until: Option<int>, max: nat, after: int) {
    delta == 0 && anchor > after && (until.None? || anchor <= until.value) && PartitionPoint(s, anchor) < max
  }

  lemma {:induction false} ZeroRuns(s: seq<int>, anchor: int, until: Option<int>, max: nat, after: int, n: nat)
    requires Valid(s, max, after) && max <= PASSED && GoesOnForever(s, anchor, 0, until, max, after)
    ensures var l := Iterate(s, anchor, 0, until, max, after, n);
            l.Running? && l.t == anchor && Valid(l.sched, max, after) && PartitionPoint(l.sched, anchor) < max
  {
    hide PartitionPoint, Inserted;
    if n > 0 {
      ZeroRuns(s, anchor, until, max, after, n - 1);
      var l := Iterate(s, anchor, 0, until, max, after, n - 1);
      InsertedIndex(l.sched, anchor, max, after);
      var r := Inserted(l.sched, anchor, max, after).0;
      PointOf(r, anchor);
    }
  }

  lemma {:induction false} ZeroStops(s: seq<int>, anchor: int, until: Option<int>, max: nat, after: int)
    requires Valid(s, max, after) && max <= PASSED && !GoesOnForever(s, anchor, 0, until, max, after)
    ensures Iterate(s, anchor, 0, until, max, after, 1).Done?
  {
    hide Inserted, PartitionPoint, Increasing;
    InsertedIndex(s, anchor, max, after);
    assert Iterate(s, anchor, 0, until, max, after, 0) == Running(anchor, s);
  }

  /** The loop never ends exactly when it goes on forever. */
  lemma {:induction false} EndlessIff(s: seq<int>, anchor: int, delta: nat, until: Option<int>, max: nat, after: int)
    requires Valid(s, max, after) && max <= PASSED
    ensures (forall n :: Iterate(s, anchor, delta, until, max, after, n).Running?)
            <==> GoesOnForever(s, anchor, delta, until, max, after)
    ensures !GoesOnForever(s, anchor, delta, until, max, after) ==>
            Iterate(s, anchor, delta, until, max, after, max + 1).Done?
  {
    hide Iterate, Inserted, PartitionPoint, Increasing;
    if GoesOnForever(s, anchor, delta, until, max, after) {
      forall n
        ensures Iterate(s, anchor, delta, until, max, after, n).Running?
      {
        ZeroRuns(s, anchor, until, max, after, n);
      }
    } else if delta > 0 {
      LoopEnds(s, anchor, delta, until, max, after);
    } else {
      ZeroStops(s, anchor, until, max, after);
      StaysDone(s, anchor, delta, until, max, after, 1, max + 1);
    }
  }

  lemma {:induction false} StaysDone(s: seq<int>, anchor: int, delta: int, until: Option<int>, max: nat, after: int,
                                     n: nat, m: nat)
    requires n <= m && Iterate(s, anchor, delta, until, max, after, n).Done?
    ensures Iterate(s, anchor, delta, until, max, after, m) == Iterate(s, anchor, delta, until, max, after, n)
  {
    hide Turn;
    if n < m {
      StaysDone(s, anchor, delta, until, max, after, n, m - 1);
    }
  }

  // ---------------------------------------------------------------------------------------------
  // Directives
  // ---------------------------------------------------------------------------------------------

  const DAY := 86400
  const MINUTE := 60

  /** A time as written: resolved already, or the next given weekday, at a given or the anchor's time of day. */
  datatype When = At(time: int) | Next(weekday: int, timeOfDay: Option<int>)

  /** A line of the schedule file; Junk is one that does not parse. */
  datatype Directive = Once(when: When) | Every(delta: nat, until: Option<When>) | Skip(when: When) | Junk

  /** The day of the week, Monday first; day 0 was a Thursday. */
  function Weekday(day: int): (d: int)
    ensures 0 <= d < 7
  {
    (day + 3) % 7
  }

  /** How many days ahead the next such weekday is. */
  function DaysAhead(today: int, target: int): int
    requires 0 <= today < 7 && 0 <= target < 7
  {
    var d := (target + 7 - today) % 7;
    if d == 0 then 7 else d
  }

  function Resolve(w: When, anchor: int): int {
    match w
    case At(t) => t
    case Next(weekday, timeOfDay) =>
      var day := anchor / DAY;
      var time := if timeOfDay.Some? then timeOfDay.value else anchor % DAY / MINUTE * MINUTE;
      (day + DaysAhead(Weekday(day), weekday % 7)) * DAY + time
  }

  /** "next" means the first such day after the anchor's own. */
  lemma {:induction false} NextIsFirst(weekday: int, timeOfDay: Option<int>, anchor: int, day: int)
    requires 0 <= weekday < 7 && (timeOfDay.Some? ==> 0 <= timeOfDay.value < DAY)
    ensures var t := Resolve(Next(weekday, timeOfDay), anchor);
            t > anchor && Weekday(t / DAY) == weekday && anchor / DAY < t / DAY <= anchor / DAY + 7
            && (anchor / DAY < day < t / DAY ==> Weekday(day) != weekday)
            && t % DAY == if timeOfDay.Some? then timeOfDay.value else anchor % DAY / MINUTE * MINUTE
  {
    var today := anchor / DAY;
    var time := if timeOfDay.Some? then timeOfDay.value else anchor % DAY / MINUTE * MINUTE;
    assert 0 <= time < DAY;
    var d := DaysAhead(Weekday(today), weekday);
    AheadIsFirst(today, weekday, day - today);
    hide DaysAhead, Weekday;
    var t := (today + d) * DAY + time;
    assert t / DAY == today + d && t % DAY == time;
  }

  lemma {:induction false} AheadIsFirst(today: int, weekday: int, k: int)
    requires 0 <= weekday < 7
    ensures var d := DaysAhead(Weekday(today), weekday);
            1 <= d <= 7 && Weekday(today + d) == weekday && (0 < k < d ==> Weekday(today + k) != weekday)
  {
    var r := Weekday(today);
    var q := (today + 3) / 7;
    assert today == 7 * q + r - 3;
  }

  // ---------------------------------------------------------------------------------------------
  // What the directives offer
  // ---------------------------------------------------------------------------------------------

  ghost predicate Within(t: int, until: Option<int>) {
    until.None? || t <= until.value
  }

  /** The times a repetition offers up to its n-th. */
  ghost function FirstTimes(anchor: int, delta: nat, n: nat): iset<int> {
    iset k: nat | 1 <= k <= n :: TimeAt(anchor, delta, k)
  }

  /** The times a repetition offers: the progression from the anchor up to its end; nothing if its first
      time has passed. */
  ghost function Progression(anchor: int, delta: nat, until: Option<int>, after: int): iset<int> {
    iset k: nat | 1 <= k && anchor + delta > after && Within(TimeAt(anchor, delta, k), until)
         :: TimeAt(anchor, delta, k)
  }

  lemma {:induction false} RunningOffers(s: seq<int>, all: iset<int>, anchor: int, delta: nat, until: Option<int>,
                                         max: nat, after: int, n: nat)
    requires Smallest(s, all, max, after) && max <= PASSED
    requires Iterate(s, anchor, delta, until, max, after, n).Running?
    ensures var l := Iterate(s, anchor, delta, until, max, after, n);
            l.t == TimeAt(anchor, delta, n) && Smallest(l.sched, all + FirstTimes(anchor, delta, n), max, after)
            && (n > 0 ==> anchor + delta > after && Within(l.t, until))
  {
    hide Inserted, PartitionPoint, Increasing;
    if n == 0 {
      assert all + FirstTimes(anchor, delta, 0) == all;
    } else {
      RunningOffers(s, all, anchor, delta, until, max, after, n - 1);
      var l := Iterate(s, anchor, delta, until, max, after, n - 1);
      var t := TimeAt(anchor, delta, n);
      assert t == l.t + delta;
      InsertKeeps(l.sched, all + FirstTimes(anchor, delta, n - 1), t, max, after);
      InsertedIndex(l.sched, t, max, after);
      assert all + FirstTimes(anchor, delta, n - 1) + iset{t} == all + FirstTimes(anchor, delta, n);
    }
  }

  /** When the loop ends, all the times it did not get to are ended, or too late for a full list. */
  lemma {:induction false} EndOffers(s: seq<int>, all: iset<int>, anchor: int, delta: nat, until: Option<int>,
                                     max: nat, after: int, n: nat)
    requires Smallest(s, all, max, after) && max <= PASSED
    requires Iterate(s, anchor, delta, until, max, after, n).Running?
             && Iterate(s, anchor, delta, until, max, after, n + 1).Done?
    ensures Smallest(Iterate(s, anchor, delta, until, max, after, n + 1).sched,
                     all + Progression(anchor, delta, until, after), max, after)
  {
    hide Inserted, PartitionPoint, Increasing;
    RunningOffers(s, all, anchor, delta, until, max, after, n);
    var l := Iterate(s, anchor, delta, until, max, after, n);
    var t := TimeAt(anchor, delta, n + 1);
    InsertedIndex(l.sched, t, max, after);
    var r := Iterate(s, anchor, delta, until, max, after, n + 1).sched;
    assert r == l.sched;
    EarlierAreWithin(anchor, delta, until, n, after);
    forall u | u in all + Progression(anchor, delta, until, after) && u > after && u !in r
      ensures |r| == max && forall x :: x in r ==> x < u
    {
      if u !in all + FirstTimes(anchor, delta, n) {
        var k: nat :| 1 <= k && Within(TimeAt(anchor, delta, k), until) && TimeAt(anchor, delta, k) == u;
        assert k > n;
        TimesGrow(anchor, delta, n + 1, k);
        FirstIsNext(anchor, delta, n);
      }
    }
  }

  lemma {:induction false} FirstIsNext(anchor: int, delta: nat, n: nat)
    ensures TimeAt(anchor, delta, n + 1) >= anchor + delta
  {
    TimesGrow(anchor, delta, 1, n + 1);
    assert TimeAt(anchor, delta, 1) == TimeAt(anchor, delta, 0) + delta;
  }

  lemma {:induction false} EarlierAreWithin(anchor: int, delta: nat, until: Option<int>, n: nat, after: int)
    requires n > 0 ==> anchor + delta > after && Within(TimeAt(anchor, delta, n), until)
    ensures FirstTimes(anchor, delta, n) <= Progression(anchor, delta, until, after)
  {
    forall k: nat | 1 <= k <= n
      ensures TimeAt(anchor, delta, k) in Progression(anchor, delta, until, after)
    {
      TimesGrow(anchor, delta, k, n);
    }
  }

  /** A repetition that ends leaves the max smallest of what was offered before and its whole progression. */
  lemma {:induction false} EveryKeeps(s: seq<int>, all: iset<int>, anchor: int, delta: nat, until: Option<int>,
                                      max: nat, after: int, n: nat)
    requires Smallest(s, all, max, after) && max <= PASSED && Iterate(s, anchor, delta, until, max, after, n).Done?
    ensures Smallest(Iterate(s, anchor, delta, until, max, after, n).sched,
                     all + Progression(anchor, delta, until, after), max, after)
  {
    hide Turn, Smallest, Progression;
    if Iterate(s, anchor, delta, until, max, after, n - 1).Done? {
      EveryKeeps(s, all, anchor, delta, until, max, after, n - 1);
    } else {
      EndOffers(s, all, anchor, delta, until, max, after, n - 1);
    }
  }

  // ---------------------------------------------------------------------------------------------
  // A whole file
  // ---------------------------------------------------------------------------------------------

  datatype State = State(sched: seq<int>, anchor: int)

  function UntilOf(until: Option<When>, anchor: int): Option<int> {
    if until.Some? then Some(Resolve(until.value, anchor)) else None
  }

  /** The state after a directive that ends. */
  function Followed(st: State, d: Directive, max: nat, after: int): State {
    match d
    case Once(w) => State(Inserted(st.sched, Resolve(w, st.anchor), max, after).0, Resolve(w, st.anchor))
    case Every(delta, until) =>
      State(Iterate(st.sched, st.anchor, delta, UntilOf(until, st.anchor), max, after, max + 1).sched, st.anchor)
    case Skip(w) => State(Removed(st.sched, Resolve(w, st.anchor)), st.anchor)
    case Junk => st
  }

  ghost predicate Endless(st: State, d: Directive, max: nat, after: int) {
    d.Every? && GoesOnForever(st.sched, st.anchor, d.delta, UntilOf(d.until, st.anchor), max, after)
  }

  function StateAfter(ds: seq<Directive>, anchor: int, max: nat, after: int, n: nat): State
    requires n <= |ds|
  {
    if n == 0 then State([], anchor) else Followed(StateAfter(ds, anchor, max, after, n - 1), ds[n - 1], max, after)
  }

  /** None of the first n directives loops forever. */
  ghost predicate AllEnd(ds: seq<Directive>, anchor: int, max: nat, after: int, n: nat)
    requires n <= |ds|
  {
    forall k :: 0 <= k < n ==> !Endless(StateAfter(ds, anchor, max, after, k), ds[k], max, after)
  }

  ghost function OfferedBy(d: Directive, anchor: int, after: int): iset<int> {
    match d
    case Once(w) => iset{Resolve(w, anchor)}
    case Every(delta, until) => Progression(anchor, delta, UntilOf(until, anchor), after)
    case _ => iset{}
  }

  ghost function AllOffered(ds: seq<Directive>, anchor: int, max: nat, after: int, n: nat): iset<int>
    requires n <= |ds|
  {
    if n == 0 then iset{}
    else
      AllOffered(ds, anchor, max, after, n - 1)
      + OfferedBy(ds[n - 1], StateAfter(ds, anchor, max, after, n - 1).anchor, after)
  }

  lemma {:induction false} DirectiveKeeps(st: State, all: iset<int>, d: Directive, max: nat, after: int)
    requires Smallest(st.sched, all, max, after) && max <= PASSED && !Endless(st, d, max, after) && !d.Skip?
    ensures Smallest(Followed(st, d, max, after).sched, all + OfferedBy(d, st.anchor, after), max, after)
  {
    hide Inserted, Iterate, Progression, GoesOnForever, Increasing, PartitionPoint;
    match d
    case Once(w) => InsertKeeps(st.sched, all, Resolve(w, st.anchor), max, after);
    case Every(delta, until) =>
      EndlessIff(st.sched, st.anchor, delta, UntilOf(until, st.anchor), max, after);
      EveryKeeps(st.sched, all, st.anchor, delta, UntilOf(until, st.anchor), max, after, max + 1);
    case Junk => assert all + iset{} == all;
    case Skip(_) =>
  }

  /** Without skip directives the schedule is the max smallest of all the times the file offers. */
  lemma {:induction false} ScheduleIsSmallest(ds: seq<Directive>, anchor: int, max: nat, after: int, n: nat)
    requires n <= |ds| && max <= PASSED && AllEnd(ds, anchor, max, after, n)
    requires forall k :: 0 <= k < n ==> !ds[k].Skip?
    ensures Smallest(StateAfter(ds, anchor, max, after, n).sched, AllOffered(ds, anchor, max, after, n), max, after)
  {
    hide Smallest, Followed, Endless, OfferedBy;
    if n == 0 {
      NothingOffered(max, after);
    } else {
      ScheduleIsSmallest(ds, anchor, max, after, n - 1);
      var st := StateAfter(ds, anchor, max, after, n - 1);
      DirectiveKeeps(st, AllOffered(ds, anchor, max, after, n - 1), ds[n - 1], max, after);
    }
  }

  lemma {:induction false} NothingOffered(max: nat, after: int)
    ensures Smallest([], iset{}, max, after)
  {}

  ghost function Among(s: seq<int>): iset<int> {
    iset x | x in s
  }

  /** A list is the smallest of its own times. */
  lemma {:induction false} SmallestOfItself(s: seq<int>, max: nat, after: int)
    requires Valid(s, max, after)
    ensures Smallest(s, Among(s), max, after)
  {}

  lemma {:induction false} FollowedValid(st: State, d: Directive, max: nat, after: int)
    requires Valid(st.sched, max, after) && max <= PASSED && !Endless(st, d, max, after)
    ensures Valid(Followed(st, d, max, after).sched, max, after)
  {
    hide Inserted, Iterate, Endless, Increasing, Resolve, Removed;
    if d.Skip? {
      RemovedValid(st.sched, Resolve(d.when, st.anchor), max, after);
    } else {
      SmallestOfItself(st.sched, max, after);
      DirectiveKeeps(st, Among(st.sched), d, max, after);
    }
  }

  lemma {:induction false} RemovedValid(s: seq<int>, t: int, max: nat, after: int)
    requires Valid(s, max, after)
    ensures Valid(Removed(s, t), max, after) && forall x :: x in Removed(s, t) <==> x in s && x != t
  {}

  /** With any directives, skips included, the schedule is in order, of at most max times, all ahead. */
  lemma {:induction false} ScheduleIsValid(ds: seq<Directive>, anchor: int, max: nat, after: int, n: nat)
    requires n <= |ds| && max <= PASSED && AllEnd(ds, anchor, max, after, n)
    ensures Valid(StateAfter(ds, anchor, max, after, n).sched, max, after)
  {
    hide Valid, Followed, Endless;
    if n == 0 {
      NothingOffered(max, after);
    } else {
      ScheduleIsValid(ds, anchor, max, after, n - 1);
      FollowedValid(StateAfter(ds, anchor, max, after, n - 1), ds[n - 1], max, after);
    }
  }

  /** Skipping t loses nothing if t is not in the list, or if every time offered that lies ahead is. */
  ghost predicate Harmless(s: seq<int>, all: iset<int>, t: int, after: int) {
    t !in s || forall u :: u in all && u > after ==> u in s
  }

  lemma {:induction false} RemovedLength(s: seq<int>, t: int)
    requires Increasing(s)
    ensures |Removed(s, t)| == if t in s then |s| - 1 else |s|
  {
    if t in s {
      PointOf(s, t);
    }
  }

  /** A skip leaves the max smallest of the other times exactly when it is harmless: it does not bring back
      what had not fitted. */
  lemma {:induction false} SkipKeepsIff(s: seq<int>, all: iset<int>, t: int, max: nat, after: int)
    requires Smallest(s, all, max, after)
    ensures Smallest(Removed(s, t), all - iset{t}, max, after) <==> Harmless(s, all, t, after)
  {
    RemovedValid(s, t, max, after);
    RemovedLength(s, t);
    hide Removed, Increasing;
    if Smallest(Removed(s, t), all - iset{t}, max, after) && t in s {
      forall u | u in all && u > after
        ensures u in s
      {
        assert u == t || u in all - iset{t};
      }
    }
  }

  /** What has been offered and not been skipped since. */
  ghost function Wanted(ds: seq<Directive>, anchor: int, max: nat, after: int, n: nat): iset<int>
    requires n <= |ds|
  {
    if n == 0 then iset{}
    else
      var st := StateAfter(ds, anchor, max, after, n - 1);
      var all := Wanted(ds, anchor, max, after, n - 1);
      if ds[n - 1].Skip? then all - iset{Resolve(ds[n - 1].when, st.anchor)}
      else all + OfferedBy(ds[n - 1], st.anchor, after)
  }

  /** No skip among the first n directives loses anything. */
  ghost predicate SkipsHarmless(ds: seq<Directive>, anchor: int, max: nat, after: int, n: nat)
    requires n <= |ds|
  {
    forall k :: 0 <= k < n && ds[k].Skip? ==>
      var st := StateAfter(ds, anchor, max, after, k);
      Harmless(st.sched, Wanted(ds, anchor, max, after, k), Resolve(ds[k].when, st.anchor), after)
  }

  lemma {:induction false} DirectiveKeepsWanted(ds: seq<Directive>, anchor: int, max: nat, after: int, n: nat)
    requires n < |ds| && max <= PASSED && AllEnd(ds, anchor, max, after, n + 1)
    requires Smallest(StateAfter(ds, anchor, max, after, n).sched, Wanted(ds, anchor, max, after, n), max, after)
    ensures Smallest(StateAfter(ds, anchor, max, after, n + 1).sched, Wanted(ds, anchor, max, after, n + 1), max, after)
            <==> ds[n].Skip? ==>
                   var st := StateAfter(ds, anchor, max, after, n);
                   Harmless(st.sched, Wanted(ds, anchor, max, after, n), Resolve(ds[n].when, st.anchor), after)
  {
    hide Smallest, Harmless, Endless, OfferedBy, Removed, Inserted, Iterate, Resolve;
    var st, all := StateAfter(ds, anchor, max, after, n), Wanted(ds, anchor, max, after, n);
    if ds[n].Skip? {
      SkipKeepsIff(st.sched, all, Resolve(ds[n].when, st.anchor), max, after);
    } else {
      DirectiveKeeps(st, all, ds[n], max, after);
    }
  }

  /** The schedule is, after every directive, the max smallest of all that was offered and not skipped
      since, exactly when no skip loses anything. */
  lemma {:induction false} ScheduleWithSkips(ds: seq<Directive>, anchor: int, max: nat, after: int, n: nat)
    requires n <= |ds| && max <= PASSED && AllEnd(ds, anchor, max, after, n)
    ensures (forall m :: 0 <= m <= n ==>
               Smallest(StateAfter(ds, anchor, max, after, m).sched, Wanted(ds, anchor, max, after, m), max, after))
            <==> SkipsHarmless(ds, anchor, max, after, n)
  {
    hide Smallest, Harmless, Endless, Followed, StateAfter, Wanted, Resolve;
    if n == 0 {
      NothingWanted(ds, anchor, max, after);
    } else {
      ScheduleWithSkips(ds, anchor, max, after, n - 1);
      if SkipsHarmless(ds, anchor, max, after, n - 1) {
        assert Smallest(StateAfter(ds, anchor, max, after, n - 1).sched, Wanted(ds, anchor, max, after, n - 1), max,
                        after);
        DirectiveKeepsWanted(ds, anchor, max, after, n - 1);
      }
    }
  }

  /** The wanted times the list still goes by after n directives: a skip that is not harmless leaves it only the
      times in it. */
  ghost function Known(ds: seq<Directive>, anchor: int, max: nat, after: int, n: nat): iset<int>
    requires n <= |ds|
  {
    if n == 0 then iset{}
    else
      var st := StateAfter(ds, anchor, max, after, n - 1);
      var all := Known(ds, anchor, max, after, n - 1);
      if ds[n - 1].Skip? then
        var t := Resolve(ds[n - 1].when, st.anchor);
        if Harmless(st.sched, all, t, after) then all - iset{t} else Among(Removed(st.sched, t))
      else all + OfferedBy(ds[n - 1], st.anchor, after)
  }

  /** Whatever is skipped, the schedule is the max smallest of the times known; those are wanted. */
  lemma {:induction false} ScheduleOfKnown(ds: seq<Directive>, anchor: int, max: nat, after: int, n: nat)
    requires n <= |ds| && max <= PASSED && AllEnd(ds, anchor, max, after, n)
    ensures Smallest(StateAfter(ds, anchor, max, after, n).sched, Known(ds, anchor, max, after, n), max, after)
    ensures Known(ds, anchor, max, after, n) <= Wanted(ds, anchor, max, after, n)
  {
    if n == 0 {
      NothingOffered(max, after);
    } else {
      var st, all := StateAfter(ds, anchor, max, after, n - 1), Known(ds, anchor, max, after, n - 1);
      ScheduleOfKnown(ds, anchor, max, after, n - 1);
      if ds[n - 1].Skip? {
        var t := Resolve(ds[n - 1].when, st.anchor);
        SkipKeepsIff(st.sched, all, t, max, after);
        RemovedValid(st.sched, t, max, after);
        SmallestOfItself(Removed(st.sched, t), max, after);
      } else {
        DirectiveKeeps(st, all, ds[n - 1], max, after);
      }
      hide Endless, OfferedBy, Removed, Inserted, Iterate, Resolve, Harmless, Valid, AllEnd;
    }
  }

  /** In the end, the schedule is the max smallest of all wanted times exactly if every wanted time that is no
      longer known, unless it has passed, comes after a full list. */
  lemma {:induction false} FinalIsSmallestIff(ds: seq<Directive>, anchor: int, max: nat, after: int, n: nat)
    requires n <= |ds| && max <= PASSED && AllEnd(ds, anchor, max, after, n)
    ensures var s, all := StateAfter(ds, anchor, max, after, n).sched, Wanted(ds, anchor, max, after, n);
            Smallest(s, all, max, after)
            <==> forall t :: t in all && t !in Known(ds, anchor, max, after, n) && t > after ==>
                   |s| == max && forall x :: x in s ==> x < t
  {
    ScheduleOfKnown(ds, anchor, max, after, n);
    hide StateAfter, Wanted, Known, AllEnd, Valid;
  }

  /** Without skips everything offered is wanted. */
  lemma {:induction false} OfferedIsWanted(ds: seq<Directive>, anchor: int, max: nat, after: int, n: nat)
    requires n <= |ds| && forall k :: 0 <= k < n ==> !ds[k].Skip?
    ensures Wanted(ds, anchor, max, after, n) == AllOffered(ds, anchor, max, after, n)
    ensures SkipsHarmless(ds, anchor, max, after, n)
  {
    hide OfferedBy, Followed, Harmless;
    if n > 0 {
      OfferedIsWanted(ds, anchor, max, after, n - 1);
    }
  }

  lemma {:induction false} NothingWanted(ds: seq<Directive>, anchor: int, max: nat, after: int)
    ensures Smallest(StateAfter(ds, anchor, max, after, 0).sched, Wanted(ds, anchor, max, after, 0), max, after)
  {
    NothingOffered(max, after);
  }

  /** A skip does not bring back what did not fit: with room for one time, offering two and skipping the
      earlier leaves nothing. */
  lemma {:induction false} SkipLeavesGap()
    ensures var ds := [Once(At(5)), Once(At(10)), Skip(At(5))];
            StateAfter(ds, 0, 1, 0, 3).sched == [] && 10 in AllOffered(ds, 0, 1, 0, 3)
  {
    var ds := [Once(At(5)), Once(At(10)), Skip(At(5))];
    assert StateAfter(ds, 0, 1, 0, 0) == State([], 0);
    assert PartitionPoint([], 5) == 0 && Joined([], 0, 5) == [5];
    assert StateAfter(ds, 0, 1, 0, 1) == State([5], 5);
    assert PartitionPoint([5], 10) == 1;
    assert StateAfter(ds, 0, 1, 0, 2) == State([5], 10);
    assert PartitionPoint([5], 5) == 0;
    assert StateAfter(ds, 0, 1, 0, 3).sched == [];
    assert 10 in AllOffered(ds, 0, 1, 0, 2);
  }

  // ---------------------------------------------------------------------------------------------
  // Reading
  // ---------------------------------------------------------------------------------------------

  /** Reads a schedule: a list of at most max times after `after`, and the anchor relative times refer to. */
  class Reader {
    var sched: seq<int>
    var anchor: int
    const max: nat
    const after: int

    constructor (anchor: int, max: nat, after: int)
      ensures this.sched == [] && this.anchor == anchor && this.max == max && this.after == after
    {
      this.sched, this.anchor, this.max, this.after := [], anchor, max, after;
    }

    /** Inserts a time, unless it has passed, is there already, or does not fit; returns where. */
    method InsertUpdate(t: int) returns (idx: nat)
      modifies this`sched
      ensures (sched, idx) == Inserted(old(sched), t, max, after)
    {
      if t <= after {
        return PASSED;
      }
      var pos := PartitionPoint(sched, t);
      if pos < |sched| && sched[pos] == t {
        return pos;
      }
      if pos >= max {
        return max;
      }
      sched := sched[..pos] + [t] + sched[pos..];
      if |sched| > max {
        sched := sched[..|sched| - 1];
      }
      idx := pos;
    }

    method DeleteUpdate(t: int)
      modifies this`sched
      ensures sched == Removed(old(sched), t)
    {
      var pos := PartitionPoint(sched, t);
      if pos < |sched| && sched[pos] == t {
        sched := sched[..pos] + sched[pos + 1..];
      }
    }

    /** Inserts times at an interval from the anchor. The answer is false when this never ends; a loop that
        has not ended after max + 1 turns never does. */
    method ParseEvery(delta: nat, until: Option<When>) returns (ended: bool)
      requires Valid(sched, max, after) && max <= PASSED
      modifies this`sched
      ensures ended <==> !GoesOnForever(old(sched), anchor, delta, UntilOf(until, anchor), max, after)
      ensures sched == Iterate(old(sched), anchor, delta, UntilOf(until, anchor), max, after, max + 1).sched
    {
      hide Inserted, GoesOnForever, Valid, Resolve;
      var u := UntilOf(until, anchor);
      var t := anchor;
      ghost var s0 := sched;
      EndlessIff(s0, anchor, delta, u, max, after);
      for n := 0 to max + 1
        invariant Iterate(s0, anchor, delta, u, max, after, n) == Running(t, sched)
      {
        t := t + delta;
        if u.Some? && t > u.value {
          StaysDone(s0, anchor, delta, u, max, after, n + 1, max + 1);
          return true;
        }
        var idx := InsertUpdate(t);
        if idx >= max {
          StaysDone(s0, anchor, delta, u, max, after, n + 1, max + 1);
          return true;
        }
      }
      return false;
    }

    method ParseLine(d: Directive) returns (ended: bool)
      requires Valid(sched, max, after) && max <= PASSED
      modifies this
      ensures ended <==> !Endless(old(State(sched, anchor)), d, max, after)
      ensures State(sched, anchor) == Followed(old(State(sched, anchor)), d, max, after)
    {
      ended := true;
      match d
      case Skip(w) => DeleteUpdate(Resolve(w, anchor));
      case Every(delta, until) => ended := ParseEvery(delta, until);
      case Once(w) =>
        anchor := Resolve(w, anchor);
        var idx := InsertUpdate(anchor);
      case Junk =>
    }

    /** Reads a whole file, or answers false at the first directive that loops forever. */
    method Read(ds: seq<Directive>) returns (ended: bool, result: seq<int>)
      requires sched == [] && max <= PASSED
      modifies this
      ensures ended <==> AllEnd(ds, old(anchor), max, after, |ds|)
      ensures ended ==> result == StateAfter(ds, old(anchor), max, after, |ds|).sched && Valid(result, max, after)
      ensures ended && SkipsHarmless(ds, old(anchor), max, after, |ds|) ==>
                Smallest(result, Wanted(ds, old(anchor), max, after, |ds|), max, after)
      ensures ended ==> Smallest(result, Known(ds, old(anchor), max, after, |ds|), max, after)
    {
      hide Valid, Smallest, Followed, Endless, Harmless, Wanted, Known;
      ghost var a := anchor;
      for i := 0 to |ds|
        invariant State(sched, anchor) == StateAfter(ds, a, max, after, i) && AllEnd(ds, a, max, after, i)
      {
        ScheduleIsValid(ds, a, max, after, i);
        var ok := ParseLine(ds[i]);
        if !ok {
          return false, sched;
        }
      }
      ScheduleIsValid(ds, a, max, after, |ds|);
      ValidLength(sched, max, after);
      ended, result := true, Truncated(sched, max);
      ScheduleWithSkips(ds, a, max, after, |ds|);
      ScheduleOfKnown(ds, a, max, after, |ds|);
    }
  }

  function Truncated(s: seq<int>, max: nat): seq<int> {
    if |s| > max then s[..max] else s
  }

  lemma {:induction false} ValidLength(s: seq<int>, max: nat, after: int)
    requires Valid(s, max, after)
    ensures |s| <= max
  {}
}
