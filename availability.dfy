/**
 * Schedule utilities: the "HH:MM" <-> minutes conversions, conflict
 * detection between weekly schedules, the schedule filters, the week view
 * and its statistics.
 *
 * Dates are integer day numbers counted from 1970-01-01, which was a
 * Thursday; `Weekday` plays the part of `Date.prototype.getDay`.
 */
module Availability {
  import opened Wrappers
  import opened Seqs
  import opened JsStrings
  import opened Entities

  // ---------------------------------------------------------------------------
  // HH:MM <-> minutes

  /**
   * `timeToMinutes`: split on ':', convert the first two pieces with
   * Number() and combine them. None stands for NaN, which is what a missing
   * minutes piece or a piece Number() rejects produces.
   */
  function TimeToMinutes(time: string): Option<int>
  {
    HoursAndMinutes(Split(time, ':'))
  }

  /** `hours * 60 + minutes` over the pieces; pieces past the second are ignored. */
  function HoursAndMinutes(parts: seq<string>): Option<int>
  {
    if |parts| < 2 then None
    else
      var hours := JsNumber(parts[0]);
      var minutes := JsNumber(parts[1]);
      if hours.Some? && minutes.Some? then Some(hours.value * 60 + minutes.value) else None
  }

  /** JavaScript's `a % b` for `b > 0`: the remainder takes the sign of `a`. */
  function JsRem(a: int, b: int): (r: int)
    requires b > 0
    ensures a >= 0 ==> 0 <= r < b && r == a % b
    ensures a < 0 ==> -b < r <= 0
    ensures exists q: int :: a == q * b + r
  {
    if a >= 0 then
      assert a == (a / b) * b + a % b;
      a % b
    else
      assert a == (-((-a) / b)) * b + -((-a) % b);
      -((-a) % b)
  }

  /**
   * `minutesToTime`: floored hours and the JavaScript remainder, each
   * rendered in decimal and padded on the left to two characters.
   */
  function MinutesToTime(minutes: int): (r: string)
    ensures 0 <= minutes < 6000 ==> |r| == 5 && r[2] == ':'
  {
    var hours := minutes / 60;
    var mins := JsRem(minutes, 60);
    PadStart2(IntToString(hours)) + ":" + PadStart2(IntToString(mins))
  }

  /** JavaScript subtraction where None is NaN. */
  function Minus(a: Option<int>, b: Option<int>): Option<int>
  {
    if a.Some? && b.Some? then Some(a.value - b.value) else None
  }

  /** `calculateDuration`: end minutes minus start minutes, NaN if either is NaN. */
  function CalculateDuration(startTime: string, endTime: string): Option<int>
  {
    Minus(TimeToMinutes(endTime), TimeToMinutes(startTime))
  }

  lemma PadStart2Digits(s: string)
    requires AllDigits(s)
    ensures AllDigits(PadStart2(s)) && ':' !in PadStart2(s)
  {
    var p := PadStart2(s);
    assert forall k :: 0 <= k < |p| ==> IsDigit(p[k]);
  }

  /** A non-negative count renders as padded hours, ':' and padded minutes. */
  lemma MinutesToTimeParts(m: nat)
    ensures MinutesToTime(m) == PadStart2(NatToString(m / 60)) + ":" + PadStart2(NatToString(m % 60))
  {
  }

  /** Reading back two numerals joined by ':'. */
  lemma ReadTime(a: string, b: string, h: nat, mm: nat)
    requires ':' !in a && ':' !in b && JsNumber(a) == Some(h) && JsNumber(b) == Some(mm)
    ensures TimeToMinutes(a + ":" + b) == Some(h * 60 + mm)
  {
    SplitAt(a, b, ':');
    SplitHead(b, ':');
    assert a + ":" + b == a + [':'] + b;
    assert Split(a + ":" + b, ':') == [a, b];
  }

  lemma ReadPaddedTime(h: nat, mm: nat)
    ensures TimeToMinutes(PadStart2(NatToString(h)) + ":" + PadStart2(NatToString(mm))) == Some(h * 60 + mm)
  {
    PadStart2Digits(NatToString(h));
    PadStart2Digits(NatToString(mm));
    PaddedNumeralValue(h);
    PaddedNumeralValue(mm);
    ReadTime(PadStart2(NatToString(h)), PadStart2(NatToString(mm)), h, mm);
  }

  /** Reading back a rendered non-negative minute count gives the count. */
  lemma MinutesToTimeRoundTrip(m: nat)
    ensures TimeToMinutes(MinutesToTime(m)) == Some(m)
  {
    MinutesToTimeParts(m);
    ReadPaddedTime(m / 60, m % 60);
  }

  /**
   * The duration between two rendered minute counts is their difference;
   * it is negative when the end comes first.
   */
  lemma DurationOfRenderedTimes(start: nat, end: nat)
    ensures CalculateDuration(MinutesToTime(start), MinutesToTime(end)) == Some(end - start)
  {
    MinutesToTimeRoundTrip(start);
    MinutesToTimeRoundTrip(end);
    DurationOfReadTimes(MinutesToTime(start), MinutesToTime(end), start, end);
  }

  lemma DurationOfReadTimes(startTime: string, endTime: string, start: int, end: int)
    requires TimeToMinutes(startTime) == Some(start) && TimeToMinutes(endTime) == Some(end)
    ensures CalculateDuration(startTime, endTime) == Some(end - start)
  {
  }

  // ---------------------------------------------------------------------------
  // Conflict detection

  /** JavaScript's `<` on numbers where None is NaN: false whenever NaN is involved. */
  predicate Less(a: Option<int>, b: Option<int>)
  {
    a.Some? && b.Some? && a.value < b.value
  }

  /** What conflict detection looks at in a schedule: its day and its minutes. */
  datatype Span = Span(day: int, start: Option<int>, end: Option<int>)

  function SpanOf(s: Schedule): Span
  {
    Span(s.dayOfWeek, TimeToMinutes(s.startTime), TimeToMinutes(s.endTime))
  }

  /** Same day, and the half-open ranges [start, end) intersect. */
  predicate Overlap(a: Span, b: Span)
  {
    a.day == b.day && Less(a.start, b.end) && Less(b.start, a.end)
  }

  /**
   * Conflict groups hold positions in the schedule list: `group.includes`
   * compares objects by identity, and positions tell apart two list entries
   * with equal contents.
   */
  function Extend(g: seq<nat>, x: nat): (r: seq<nat>)
  {
    if x in g then g else g + [x]
  }

  function Touches(i: nat, j: nat): seq<nat> -> bool
  {
    (g: seq<nat>) => i in g || j in g
  }

  /**
   * Record the conflicting pair (i, j): extend the first group holding
   * either of them with whichever is missing, or open a new group [i, j].
   */
  function AddPair(groups: seq<seq<nat>>, i: nat, j: nat): (r: seq<seq<nat>>)
    ensures |r| >= |groups| && r != []
  {
    match FindIndex(groups, Touches(i, j))
    case None => groups + [[i, j]]
    case Some(k) => groups[k := Extend(Extend(groups[k], i), j)]
  }

  function PairStep(spans: seq<Span>, i: nat, j: nat, groups: seq<seq<nat>>): seq<seq<nat>>
    requires i < |spans| && j < |spans|
  {
    if Overlap(spans[i], spans[j]) then AddPair(groups, i, j) else groups
  }

  /** The inner loop of `detectScheduleConflicts`, from `j` on. */
  function Inner(spans: seq<Span>, i: nat, j: nat, groups: seq<seq<nat>>): seq<seq<nat>>
    requires i < |spans|
    decreases |spans| - j
  {
    if j >= |spans| then groups else Inner(spans, i, j + 1, PairStep(spans, i, j, groups))
  }

  lemma InnerStep(spans: seq<Span>, i: nat, j: nat, groups: seq<seq<nat>>)
    requires i < |spans| && j < |spans|
    ensures Inner(spans, i, j, groups) == Inner(spans, i, j + 1, PairStep(spans, i, j, groups))
  {
  }

  lemma InnerDone(spans: seq<Span>, i: nat, j: nat, groups: seq<seq<nat>>)
    requires i < |spans| && j >= |spans|
    ensures Inner(spans, i, j, groups) == groups
  {
  }

  /** The outer loop of `detectScheduleConflicts`, from `i` on. */
  function Outer(spans: seq<Span>, i: nat, groups: seq<seq<nat>>): seq<seq<nat>>
    decreases |spans| - i
  {
    if i >= |spans| then groups else Outer(spans, i + 1, Inner(spans, i, i + 1, groups))
  }

  lemma OuterStep(spans: seq<Span>, i: nat, groups: seq<seq<nat>>)
    requires i < |spans|
    ensures Outer(spans, i, groups) == Outer(spans, i + 1, Inner(spans, i, i + 1, groups))
  {
  }

  lemma OuterDone(spans: seq<Span>, i: nat, groups: seq<seq<nat>>)
    requires i >= |spans|
    ensures Outer(spans, i, groups) == groups
  {
  }

  /** The groups `detectScheduleConflicts` builds, as positions. */
  function ConflictGroups(spans: seq<Span>): seq<seq<nat>>
  {
    Outer(spans, 0, [])
  }

  ghost predicate InRange(groups: seq<seq<nat>>, n: nat)
  {
    forall k, m :: 0 <= k < |groups| && 0 <= m < |groups[k]| ==> groups[k][m] < n
  }

  /**
   * A group has two or more distinct members, all positions of `spans`, and
   * each member overlaps some other member of the group.
   */
  ghost predicate GroupSound(spans: seq<Span>, g: seq<nat>)
  {
    && |g| >= 2
    && NoDuplicates(g)
    && (forall m :: 0 <= m < |g| ==> g[m] < |spans|)
    && (forall m :: 0 <= m < |g| ==> HasPartner(spans, g, m))
  }

  /** The member at `m` overlaps the member at some other position of `g`. */
  ghost predicate HasPartner(spans: seq<Span>, g: seq<nat>, m: nat)
    requires m < |g| && forall k :: 0 <= k < |g| ==> g[k] < |spans|
  {
    exists p :: 0 <= p < |g| && p != m && Overlap(spans[g[m]], spans[g[p]])
  }

  ghost predicate Sound(spans: seq<Span>, groups: seq<seq<nat>>)
  {
    forall k :: 0 <= k < |groups| ==> GroupSound(spans, groups[k])
  }

  lemma SoundInRange(spans: seq<Span>, groups: seq<seq<nat>>)
    requires Sound(spans, groups)
    ensures InRange(groups, |spans|)
  {
    forall k, m | 0 <= k < |groups| && 0 <= m < |groups[k]| ensures groups[k][m] < |spans| {
      assert GroupSound(spans, groups[k]);
    }
  }

  lemma OverlapSymmetric(a: Span, b: Span)
    ensures Overlap(a, b) == Overlap(b, a)
  {
  }

  lemma PairGroupSound(spans: seq<Span>, i: nat, j: nat)
    requires i < |spans| && j < |spans| && i != j && Overlap(spans[i], spans[j])
    ensures GroupSound(spans, [i, j])
  {
    OverlapSymmetric(spans[i], spans[j]);
    var g := [i, j];
    assert Overlap(spans[g[0]], spans[g[1]]) && Overlap(spans[g[1]], spans[g[0]]);
    assert HasPartner(spans, g, 0) && HasPartner(spans, g, 1);
  }

  lemma ExtendKeeps(g: seq<nat>, x: nat)
    requires NoDuplicates(g)
    ensures NoDuplicates(Extend(g, x)) && x in Extend(g, x)
  {
    if x !in g {
      var r := g + [x];
      forall a, b | 0 <= a < b < |r| ensures r[a] != r[b] {
        if b < |g| {
          assert r[a] == g[a] && r[b] == g[b];
        } else {
          assert r[a] == g[a];
        }
      }
    }
  }

  /**
   * Adding `x` to a sound group keeps it sound when `x` is already there or
   * overlaps a member `y`.
   */
  lemma ExtendSound(spans: seq<Span>, g: seq<nat>, x: nat, y: nat)
    requires GroupSound(spans, g) && x < |spans| && y in g
    requires x in g || Overlap(spans[x], spans[y])
    ensures GroupSound(spans, Extend(g, x))
  {
    ExtendKeeps(g, x);
    if x !in g {
      var r := g + [x];
      var q :| 0 <= q < |g| && g[q] == y;
      forall m | 0 <= m < |r| ensures r[m] < |spans| {
        if m < |g| {
          assert r[m] == g[m];
        }
      }
      forall m | 0 <= m < |r| ensures HasPartner(spans, r, m) {
        if m < |g| {
          assert r[m] == g[m];
          assert HasPartner(spans, g, m);
          var p :| 0 <= p < |g| && p != m && Overlap(spans[g[m]], spans[g[p]]);
          assert r[p] == g[p];
        } else {
          assert r[q] == y && r[m] == x;
        }
      }
    }
  }

  /** Adding the overlapping pair (i, j) to a sound group holding one of them keeps it sound. */
  lemma ExtendGroupSound(spans: seq<Span>, g: seq<nat>, i: nat, j: nat)
    requires GroupSound(spans, g) && (i in g || j in g)
    requires i < |spans| && j < |spans| && Overlap(spans[i], spans[j])
    ensures GroupSound(spans, Extend(Extend(g, i), j))
  {
    OverlapSymmetric(spans[i], spans[j]);
    if i in g {
      ExtendSound(spans, g, i, i);
      ExtendSound(spans, g, j, i);
    } else {
      ExtendSound(spans, g, i, j);
      assert j in Extend(g, i);
      ExtendSound(spans, Extend(g, i), j, j);
    }
  }

  lemma AddPairSound(spans: seq<Span>, groups: seq<seq<nat>>, i: nat, j: nat)
    requires Sound(spans, groups)
    requires i < |spans| && j < |spans| && i != j && Overlap(spans[i], spans[j])
    ensures Sound(spans, AddPair(groups, i, j))
  {
    match FindIndex(groups, Touches(i, j))
    case None =>
      PairGroupSound(spans, i, j);
    case Some(q) =>
      assert Touches(i, j)(groups[q]);
      ExtendGroupSound(spans, groups[q], i, j);
  }

  lemma {:induction false} InnerSound(spans: seq<Span>, i: nat, j: nat, groups: seq<seq<nat>>)
    requires i < |spans| && i < j && Sound(spans, groups)
    ensures Sound(spans, Inner(spans, i, j, groups))
    decreases |spans| - j
  {
    if j < |spans| {
      if Overlap(spans[i], spans[j]) {
        AddPairSound(spans, groups, i, j);
      }
      InnerSound(spans, i, j + 1, PairStep(spans, i, j, groups));
    }
  }

  lemma {:induction false} OuterSound(spans: seq<Span>, i: nat, groups: seq<seq<nat>>)
    requires Sound(spans, groups)
    ensures Sound(spans, Outer(spans, i, groups))
    decreases |spans| - i
  {
    if i < |spans| {
      InnerSound(spans, i, i + 1, groups);
      OuterSound(spans, i + 1, Inner(spans, i, i + 1, groups));
    }
  }

  /** Groups have at least two distinct members, each overlapping another one. */
  lemma ConflictGroupsSound(spans: seq<Span>)
    ensures Sound(spans, ConflictGroups(spans))
  {
    OuterSound(spans, 0, []);
  }

  lemma {:induction false} InnerNonEmpty(spans: seq<Span>, i: nat, j: nat, groups: seq<seq<nat>>)
    requires i < |spans|
    ensures Inner(spans, i, j, groups) != [] <==>
              (groups != [] || exists b :: j <= b < |spans| && Overlap(spans[i], spans[b]))
    decreases |spans| - j
  {
    if j < |spans| {
      InnerNonEmpty(spans, i, j + 1, PairStep(spans, i, j, groups));
      if exists b :: j <= b < |spans| && Overlap(spans[i], spans[b]) {
        var b :| j <= b < |spans| && Overlap(spans[i], spans[b]);
        if b > j && !Overlap(spans[i], spans[j]) {
          assert j + 1 <= b;
        }
      }
    }
  }

  lemma {:induction false} OuterNonEmpty(spans: seq<Span>, i: nat, groups: seq<seq<nat>>)
    ensures Outer(spans, i, groups) != [] <==>
              (groups != [] || exists a, b :: i <= a < b < |spans| && Overlap(spans[a], spans[b]))
    decreases |spans| - i
  {
    if i < |spans| {
      var g := Inner(spans, i, i + 1, groups);
      InnerNonEmpty(spans, i, i + 1, groups);
      OuterNonEmpty(spans, i + 1, g);
      if exists a, b :: i <= a < b < |spans| && Overlap(spans[a], spans[b]) {
        var a, b :| i <= a < b < |spans| && Overlap(spans[a], spans[b]);
        if a == i {
          assert g != [];
        } else {
          assert i + 1 <= a;
        }
      }
    }
  }

  /** Some group exists exactly when some pair i < j overlaps. */
  lemma ConflictGroupsNonEmptyIff(spans: seq<Span>)
    ensures ConflictGroups(spans) != [] <==> exists a, b :: 0 <= a < b < |spans| && Overlap(spans[a], spans[b])
  {
    OuterNonEmpty(spans, 0, []);
  }

  /** Ranges that only touch, one ending when the other starts, do not conflict. */
  lemma BackToBackNoConflict(a: Schedule, b: Schedule)
    requires TimeToMinutes(a.endTime) == TimeToMinutes(b.startTime)
    ensures !Overlap(SpanOf(a), SpanOf(b)) && !Overlap(SpanOf(b), SpanOf(a))
  {
  }

  /** Doctor and location play no part in whether two schedules conflict. */
  lemma ConflictIgnoresDoctorAndLocation(a: Schedule, b: Schedule, doctorId: string, locationId: string)
    ensures SpanOf(a.(doctorId := doctorId, locationId := locationId)) == SpanOf(a)
    ensures Overlap(SpanOf(a.(doctorId := doctorId, locationId := locationId)), SpanOf(b)) == Overlap(SpanOf(a), SpanOf(b))
  {
  }

  /**
   * Groups need not be disjoint: with ranges [0,10), [29,40), [19,30) and
   * [9,20) at positions 0, 2, 3 and 4 of one day (position 1 is on another
   * day), position 3 ends up in both groups.
   */
  lemma GroupsMayShareMembers()
    ensures ConflictGroups([Span(1, Some(0), Some(10)), Span(2, Some(0), Some(10)), Span(1, Some(29), Some(40)),
                            Span(1, Some(19), Some(30)), Span(1, Some(9), Some(20))])
            == [[0, 4, 3], [2, 3]]
  {
    var spans := [Span(1, Some(0), Some(10)), Span(2, Some(0), Some(10)), Span(1, Some(29), Some(40)),
                  Span(1, Some(19), Some(30)), Span(1, Some(9), Some(20))];
    var g0 := Inner(spans, 0, 1, []);
    assert g0 == [[0, 4]];
    var g1 := Inner(spans, 1, 2, g0);
    assert g1 == g0;
    var g2 := Inner(spans, 2, 3, g1);
    assert g2 == [[0, 4], [2, 3]];
    assert FindIndex(g2, Touches(3, 4)) == Some(0);
    assert 3 !in [0, 4] && Extend([0, 4], 3) == [0, 4, 3] && Extend([0, 4, 3], 4) == [0, 4, 3];
    assert AddPair(g2, 3, 4) == [[0, 4, 3], [2, 3]];
    var g3 := Inner(spans, 3, 4, g2);
    assert g3 == [[0, 4, 3], [2, 3]];
  }

  /** The positions of each group, replaced by the schedules they stand for. */
  function Pick(ss: seq<Schedule>, g: seq<nat>): (r: seq<Schedule>)
    requires forall m :: 0 <= m < |g| ==> g[m] < |ss|
    ensures |r| == |g| && forall m :: 0 <= m < |g| ==> r[m] == ss[g[m]]
  {
    if g == [] then [] else [ss[g[0]]] + Pick(ss, g[1..])
  }

  function Members(ss: seq<Schedule>, groups: seq<seq<nat>>): (r: seq<seq<Schedule>>)
    requires InRange(groups, |ss|)
    ensures |r| == |groups| && forall k :: 0 <= k < |groups| ==> r[k] == Pick(ss, groups[k])
  {
    if groups == [] then [] else [Pick(ss, groups[0])] + Members(ss, groups[1..])
  }

  /** What the report of `detectScheduleConflicts` rests on. */
  lemma ConflictReport(schedules: seq<Schedule>)
    ensures Sound(Map(schedules, SpanOf), ConflictGroups(Map(schedules, SpanOf)))
    ensures InRange(ConflictGroups(Map(schedules, SpanOf)), |schedules|)
    ensures ConflictGroups(Map(schedules, SpanOf)) != [] <==>
              exists a, b :: 0 <= a < b < |schedules| && Overlap(SpanOf(schedules[a]), SpanOf(schedules[b]))
    ensures forall k :: 0 <= k < |ConflictGroups(Map(schedules, SpanOf))| ==> |ConflictGroups(Map(schedules, SpanOf))[k]| >= 2
  {
    var spans := Map(schedules, SpanOf);
    ConflictGroupsSound(spans);
    SoundInRange(spans, ConflictGroups(spans));
    ConflictGroupsNonEmptyIff(spans);
    var groups := ConflictGroups(spans);
    forall k | 0 <= k < |groups| ensures |groups[k]| >= 2 {
      assert GroupSound(spans, groups[k]);
    }
  }

  /** The report in terms of the schedules themselves. */
  lemma ReportedConflicts(schedules: seq<Schedule>, groups: seq<seq<nat>>, conflicts: seq<seq<Schedule>>)
    requires groups == ConflictGroups(Map(schedules, SpanOf)) && InRange(groups, |schedules|)
    requires conflicts == Members(schedules, groups)
    ensures conflicts != [] <==> exists a, b :: 0 <= a < b < |schedules| && Overlap(SpanOf(schedules[a]), SpanOf(schedules[b]))
    ensures forall k :: 0 <= k < |conflicts| ==> |conflicts[k]| >= 2
  {
    ConflictReport(schedules);
  }

  /**
   * The block run for an overlapping pair: find the first group holding
   * either schedule and push the missing ones, or push a new group.
   */
  method RecordConflict(groups: seq<seq<nat>>, i: nat, j: nat) returns (updated: seq<seq<nat>>)
    ensures updated == AddPair(groups, i, j)
  {
    var found := FindIndex(groups, Touches(i, j));
    if found.Some? {
      var k := found.value;
      var group := groups[k];
      if i !in group {
        group := group + [i];
      }
      if j !in group {
        group := group + [j];
      }
      updated := groups[k := group];
    } else {
      updated := groups + [[i, j]];
    }
  }

  /**
   * `detectScheduleConflicts`: every pair i < j of schedules on the same day
   * whose ranges overlap is recorded with AddPair.
   */
  method DetectScheduleConflicts(schedules: seq<Schedule>) returns (hasConflicts: bool, conflicts: seq<seq<Schedule>>)
    ensures Sound(Map(schedules, SpanOf), ConflictGroups(Map(schedules, SpanOf)))
    ensures InRange(ConflictGroups(Map(schedules, SpanOf)), |schedules|)
    ensures conflicts == Members(schedules, ConflictGroups(Map(schedules, SpanOf)))
    ensures hasConflicts <==> conflicts != []
    ensures hasConflicts <==> exists a, b :: 0 <= a < b < |schedules| && Overlap(SpanOf(schedules[a]), SpanOf(schedules[b]))
    ensures forall k :: 0 <= k < |conflicts| ==> |conflicts[k]| >= 2
  {
    var groups := CollectGroups(schedules);
    ConflictReport(schedules);
    conflicts := Members(schedules, groups);
    ReportedConflicts(schedules, groups, conflicts);
    hasConflicts := |conflicts| > 0;
  }

  /** The outer loop of `detectScheduleConflicts`: every schedule against every later one. */
  method CollectGroups(schedules: seq<Schedule>) returns (groups: seq<seq<nat>>)
    ensures groups == ConflictGroups(Map(schedules, SpanOf))
  {
    ghost var spans := Map(schedules, SpanOf);
    SpansOfMap(schedules);
    groups := [];
    var i := 0;
    while i < |schedules|
      invariant 0 <= i <= |schedules|
      invariant Outer(spans, i, groups) == ConflictGroups(spans)
    {
      OuterStep(spans, i, groups);
      groups := ScanPartners(schedules, spans, i, groups);
      i := i + 1;
    }
    OuterDone(spans, i, groups);
  }

  /**
   * `spans` are the spans of `schedules`, position by position. Stated by
   * recursion so that it is unfolded only where SpanAt is called.
   */
  ghost predicate SpansOf(spans: seq<Span>, schedules: seq<Schedule>)
    decreases |spans|
  {
    |spans| == |schedules| &&
    (spans == [] || (spans[0] == SpanOf(schedules[0]) && SpansOf(spans[1..], schedules[1..])))
  }

  lemma {:induction false} SpansOfMap(schedules: seq<Schedule>)
    ensures SpansOf(Map(schedules, SpanOf), schedules)
    decreases |schedules|
  {
    if schedules != [] {
      var spans := Map(schedules, SpanOf);
      assert spans[1..] == Map(schedules[1..], SpanOf);
      SpansOfMap(schedules[1..]);
    }
  }

  lemma {:induction false} SpanAt(spans: seq<Span>, schedules: seq<Schedule>, k: nat)
    requires SpansOf(spans, schedules) && k < |spans|
    ensures |spans| == |schedules| && spans[k] == SpanOf(schedules[k])
    decreases k
  {
    if k > 0 {
      SpanAt(spans[1..], schedules[1..], k - 1);
    }
  }

  /** The inner loop of `detectScheduleConflicts`: schedule i against every later one. */
  method ScanPartners(schedules: seq<Schedule>, ghost spans: seq<Span>, i: nat, groups: seq<seq<nat>>) returns (updated: seq<seq<nat>>)
    requires SpansOf(spans, schedules) && i < |schedules|
    ensures updated == Inner(spans, i, i + 1, groups)
  {
    SpanAt(spans, schedules, i);
    updated := groups;
    var j := i + 1;
    while j < |schedules|
      invariant i + 1 <= j <= |schedules|
      invariant Inner(spans, i, j, updated) == Inner(spans, i, i + 1, groups)
    {
      InnerStep(spans, i, j, updated);
      updated := CheckPair(schedules, spans, i, j, updated);
      j := j + 1;
    }
    InnerDone(spans, i, j, updated);
  }

  /** One pass of the inner loop: record the pair when the two schedules overlap. */
  method CheckPair(schedules: seq<Schedule>, ghost spans: seq<Span>, i: nat, j: nat, groups: seq<seq<nat>>) returns (updated: seq<seq<nat>>)
    requires SpansOf(spans, schedules) && i < |schedules| && j < |schedules|
    ensures updated == PairStep(spans, i, j, groups)
  {
    var schedule1 := schedules[i];
    var schedule2 := schedules[j];
    SpanAt(spans, schedules, i);
    SpanAt(spans, schedules, j);
    updated := groups;
    if schedule1.dayOfWeek == schedule2.dayOfWeek {
      var start1 := TimeToMinutes(schedule1.startTime);
      var end1 := TimeToMinutes(schedule1.endTime);
      var start2 := TimeToMinutes(schedule2.startTime);
      var end2 := TimeToMinutes(schedule2.endTime);
      if Less(start1, end2) && Less(start2, end1) {
        updated := RecordConflict(groups, i, j);
      }
    }
  }

  // ---------------------------------------------------------------------------
  // Filters

  function OfDoctor(doctorId: string): Detailed -> bool
  {
    (s: Detailed) => s.schedule.doctorId == doctorId
  }

  function AtLocation(locationId: string): Detailed -> bool
  {
    (s: Detailed) => s.schedule.locationId == locationId
  }

  function InSpecialization(specialization: string): Detailed -> bool
  {
    (s: Detailed) => s.doctor.specialization == specialization
  }

  /** `filterSchedulesByDoctor`: an empty id keeps everything. */
  function FilterSchedulesByDoctor(schedules: seq<Detailed>, doctorId: string): (r: seq<Detailed>)
    ensures doctorId == "" ==> r == schedules
    ensures doctorId != "" ==> KeepsExactly(r, schedules, OfDoctor(doctorId))
  {
    if doctorId == "" then schedules
    else
      FilterKeepsExactly(schedules, OfDoctor(doctorId));
      Filter(schedules, OfDoctor(doctorId))
  }

  /** `filterSchedulesByLocation`: an empty id keeps everything. */
  function FilterSchedulesByLocation(schedules: seq<Detailed>, locationId: string): (r: seq<Detailed>)
    ensures locationId == "" ==> r == schedules
    ensures locationId != "" ==> KeepsExactly(r, schedules, AtLocation(locationId))
  {
    if locationId == "" then schedules
    else
      FilterKeepsExactly(schedules, AtLocation(locationId));
      Filter(schedules, AtLocation(locationId))
  }

  /** `filterSchedulesBySpecialization`: an empty name keeps everything. */
  function FilterSchedulesBySpecialization(schedules: seq<Detailed>, specialization: string): (r: seq<Detailed>)
    ensures specialization == "" ==> r == schedules
    ensures specialization != "" ==> KeepsExactly(r, schedules, InSpecialization(specialization))
  {
    if specialization == "" then schedules
    else
      FilterKeepsExactly(schedules, InSpecialization(specialization));
      Filter(schedules, InSpecialization(specialization))
  }

  /** The optional filters of `applyFilters`; None is an absent property. */
  datatype ScheduleFilters = ScheduleFilters(
    doctorId: Option<string>,
    locationId: Option<string>,
    specialization: Option<string>,
    onlyActive: Option<bool>)

  /** A string property is truthy when present and non-empty. */
  predicate Given(o: Option<string>)
  {
    o.Some? && o.value != ""
  }

  /**
   * What a schedule must satisfy once the first `n` steps of `applyFilters`
   * have run; `Stage(f, 4)` is the whole filter.
   */
  function Stage(f: ScheduleFilters, n: nat): Detailed -> bool
  {
    (s: Detailed) =>
      && (n >= 1 && Given(f.doctorId) ==> s.schedule.doctorId == f.doctorId.value)
      && (n >= 2 && Given(f.locationId) ==> s.schedule.locationId == f.locationId.value)
      && (n >= 3 && Given(f.specialization) ==> s.doctor.specialization == f.specialization.value)
      && (n >= 4 && f.onlyActive == Some(true) ==> s.schedule.isActive && s.doctor.isActive)
  }

  function ActiveWithActiveDoctor(): Detailed -> bool
  {
    (s: Detailed) => s.schedule.isActive && s.doctor.isActive
  }

  /**
   * `applyFilters`: each given filter narrows the running result in turn.
   * The result is the order-preserving sublist of the schedules that pass
   * every given filter.
   */
  method ApplyFilters(schedules: seq<Detailed>, filters: ScheduleFilters) returns (filtered: seq<Detailed>)
    ensures KeepsExactly(filtered, schedules, Stage(filters, 4))
  {
    filtered := schedules;
    FilterAll(schedules, Stage(filters, 0));
    if Given(filters.doctorId) {
      filtered := FilterSchedulesByDoctor(filtered, filters.doctorId.value);
      FilterFilter(schedules, Stage(filters, 0), OfDoctor(filters.doctorId.value), Stage(filters, 1));
    } else {
      FilterCongruent(schedules, Stage(filters, 0), Stage(filters, 1));
    }
    assert filtered == Filter(schedules, Stage(filters, 1));
    if Given(filters.locationId) {
      filtered := FilterSchedulesByLocation(filtered, filters.locationId.value);
      FilterFilter(schedules, Stage(filters, 1), AtLocation(filters.locationId.value), Stage(filters, 2));
    } else {
      FilterCongruent(schedules, Stage(filters, 1), Stage(filters, 2));
    }
    assert filtered == Filter(schedules, Stage(filters, 2));
    if Given(filters.specialization) {
      filtered := FilterSchedulesBySpecialization(filtered, filters.specialization.value);
      FilterFilter(schedules, Stage(filters, 2), InSpecialization(filters.specialization.value), Stage(filters, 3));
    } else {
      FilterCongruent(schedules, Stage(filters, 2), Stage(filters, 3));
    }
    assert filtered == Filter(schedules, Stage(filters, 3));
    if filters.onlyActive == Some(true) {
      filtered := Filter(filtered, ActiveWithActiveDoctor());
      FilterFilter(schedules, Stage(filters, 3), ActiveWithActiveDoctor(), Stage(filters, 4));
    } else {
      FilterCongruent(schedules, Stage(filters, 3), Stage(filters, 4));
    }
    FilterKeepsExactly(schedules, Stage(filters, 4));
  }

  // ---------------------------------------------------------------------------
  // Weeks

  /** `getDay()` of a day number: 0 is Sunday; day 0 (1970-01-01) was a Thursday. */
  function Weekday(d: int): (w: int)
    ensures 0 <= w < 7
  {
    (d + 4) % 7
  }

  /** Sunday is moved from 0 to 7, so that Monday is 1. */
  function Adjusted(w: int): int
  {
    if w == 0 then 7 else w
  }

  function OnWeekday(w: int): Detailed -> bool
  {
    (s: Detailed) => s.schedule.isActive && s.schedule.dayOfWeek == w
  }

  datatype Day = Day(date: int, schedules: seq<Detailed>)

  datatype WeekView = WeekView(weekStart: int, weekEnd: int, days: seq<Day>)

  lemma WeekdayShift(d: int, i: int)
    requires 0 <= i
    ensures Weekday(d + i) == (Weekday(d) + i) % 7
  {
    var q := (d + 4) / 7;
    assert d + 4 == 7 * q + Weekday(d);
    assert d + i + 4 == 7 * q + (Weekday(d) + i);
  }

  /** The seven days of a week starting anywhere fall on seven different weekdays. */
  lemma WeekHasEveryWeekday(weekStart: int)
    ensures forall d1, d2 :: weekStart <= d1 < d2 < weekStart + 7 ==> Adjusted(Weekday(d1)) != Adjusted(Weekday(d2))
    ensures forall d :: weekStart <= d < weekStart + 7 ==> 1 <= Adjusted(Weekday(d)) <= 7
  {
    forall d1, d2 | weekStart <= d1 < d2 < weekStart + 7
      ensures Adjusted(Weekday(d1)) != Adjusted(Weekday(d2))
    {
      WeekdayShift(weekStart, d1 - weekStart);
      WeekdayShift(weekStart, d2 - weekStart);
    }
  }

  /** `getWeekStart`: the Monday on or before `date`. */
  function GetWeekStart(date: int): (r: int)
    ensures Weekday(r) == 1
    ensures date - 6 <= r <= date
    ensures forall m :: date - 6 <= m <= date && Weekday(m) == 1 ==> m == r
  {
    var day := Weekday(date);
    var r := date - day + (if day == 0 then -6 else 1);
    WeekStartIsMonday(date);
    forall m | date - 6 <= m <= date && Weekday(m) == 1 ensures m == r {
      MondaysWithinAWeek(m, r);
    }
    r
  }

  lemma WeekStartIsMonday(date: int)
    ensures var day := Weekday(date);
            Weekday(date - day + (if day == 0 then -6 else 1)) == 1
  {
    var day := Weekday(date);
    var q := (date + 4) / 7;
    assert date + 4 == 7 * q + day;
    var r := date - day + (if day == 0 then -6 else 1);
    assert r + 4 == 7 * (q - (if day == 0 then 1 else 0)) + 1;
  }

  /** Two Mondays less than a week apart are the same day. */
  lemma MondaysWithinAWeek(m: int, r: int)
    requires Weekday(m) == 1 && Weekday(r) == 1 && r - 6 <= m <= r + 6
    ensures m == r
  {
    var p := (m + 4) / 7;
    var q := (r + 4) / 7;
    assert m + 4 == 7 * p + 1 && r + 4 == 7 * q + 1;
    assert m - r == 7 * (p - q);
  }

  /** `getNextWeek`: seven days later. */
  function GetNextWeek(weekStart: int): int
  {
    weekStart + 7
  }

  /** `getPreviousWeek`: seven days earlier. */
  function GetPreviousWeek(weekStart: int): int
  {
    weekStart - 7
  }

  /** Next and previous week undo each other and keep the weekday. */
  lemma WeekNavigation(w: int)
    ensures GetPreviousWeek(GetNextWeek(w)) == w && GetNextWeek(GetPreviousWeek(w)) == w
    ensures Weekday(GetNextWeek(w)) == Weekday(w) && Weekday(GetPreviousWeek(w)) == Weekday(w)
    ensures GetWeekStart(GetNextWeek(w)) == GetNextWeek(GetWeekStart(w))
  {
    WeekdayShift(w, 7);
    WeekdayShift(w - 7, 7);
    var s := GetWeekStart(w);
    WeekdayShift(s, 7);
  }

  /** The week start of a Monday is that Monday, so `getWeekStart` is idempotent. */
  lemma WeekStartIdempotent(date: int)
    ensures GetWeekStart(GetWeekStart(date)) == GetWeekStart(date)
  {
  }

  /**
   * The day-selection part of `generateWeekView`: seven days from
   * `weekStart`, each holding the active schedules for its weekday, where
   * Sunday is looked up as 7.
   */
  method GenerateWeekView(schedules: seq<Detailed>, weekStart: int) returns (view: WeekView)
    ensures view.weekStart == weekStart && view.weekEnd == weekStart + 6
    ensures |view.days| == 7
    ensures forall i :: 0 <= i < 7 ==> view.days[i].date == weekStart + i
    ensures forall i :: 0 <= i < 7 ==>
              KeepsExactly(view.days[i].schedules, schedules, OnWeekday(Adjusted(Weekday(weekStart + i))))
    ensures forall i, k :: 0 <= i < 7 && 0 <= k < |view.days[i].schedules| ==>
              view.days[i].schedules[k].schedule.isActive && 1 <= view.days[i].schedules[k].schedule.dayOfWeek <= 7
  {
    var days: seq<Day> := [];
    var i := 0;
    while i < 7
      invariant 0 <= i <= 7 && |days| == i
      invariant forall d :: 0 <= d < i ==> days[d].date == weekStart + d
      invariant forall d :: 0 <= d < i ==>
                  KeepsExactly(days[d].schedules, schedules, OnWeekday(Adjusted(Weekday(weekStart + d))))
    {
      var currentDate := weekStart + i;
      var dayOfWeek := Weekday(currentDate);
      var adjustedDayOfWeek := if dayOfWeek == 0 then 7 else dayOfWeek;
      var daySchedules := Filter(schedules, OnWeekday(adjustedDayOfWeek));
      FilterKeepsExactly(schedules, OnWeekday(adjustedDayOfWeek));
      days := days + [Day(currentDate, daySchedules)];
      i := i + 1;
    }
    view := WeekView(weekStart, weekStart + 6, days);
  }

  /** A schedule with dayOfWeek 0, Sunday in the source's numbering, never shows up in a week view. */
  lemma SundayZeroNeverShown(schedules: seq<Detailed>, weekStart: int, i: int)
    requires 0 <= i < 7
    ensures forall k :: 0 <= k < |schedules| && schedules[k].schedule.dayOfWeek == 0 ==>
              !OnWeekday(Adjusted(Weekday(weekStart + i)))(schedules[k])
  {
  }

  // ---------------------------------------------------------------------------
  // Week statistics

  datatype WeekStats = WeekStats(
    totalSchedules: nat,
    activeSchedules: nat,
    doctorCount: nat,
    locationCount: nat,
    specializationCount: nat)

  /** `days.flatMap(day => day.schedules)`. */
  function AllSchedules(days: seq<Day>): seq<Detailed>
  {
    if days == [] then [] else days[0].schedules + AllSchedules(days[1..])
  }

  /** The reduce that adds up the day list lengths. */
  function TotalSchedules(days: seq<Day>): (n: nat)
    ensures n == |AllSchedules(days)|
  {
    if days == [] then 0 else |days[0].schedules| + TotalSchedules(days[1..])
  }

  function IsActive(): Detailed -> bool
  {
    (s: Detailed) => s.schedule.isActive
  }

  /** The reduce that adds up the active schedules of each day. */
  function ActiveSchedules(days: seq<Day>): (n: nat)
    ensures n <= TotalSchedules(days)
    ensures n == TotalSchedules(days) <==>
              forall i, k :: 0 <= i < |days| && 0 <= k < |days[i].schedules| ==> days[i].schedules[k].schedule.isActive
    ensures n == Count(AllSchedules(days), IsActive())
  {
    if days == [] then 0
    else
      var rest := ActiveSchedules(days[1..]);
      CountConcat(days[0].schedules, AllSchedules(days[1..]), IsActive());
      assert forall i, k :: 1 <= i < |days| && 0 <= k < |days[i].schedules| ==>
               days[i].schedules[k] == days[1..][i - 1].schedules[k];
      Count(days[0].schedules, IsActive()) + rest
  }

  /** The values `f` takes on the week's schedules: `new Set(schedules.map(f))`. */
  ghost function ValuesOn(days: seq<Day>, f: Detailed -> string): set<string>
  {
    set s | s in AllSchedules(days) :: f(s)
  }

  /** Size of the set of values `f` takes on the week's schedules. */
  function Distinct(days: seq<Day>, f: Detailed -> string): (n: nat)
    ensures n <= TotalSchedules(days)
    ensures n == 0 <==> TotalSchedules(days) == 0
    ensures n == |ValuesOn(days, f)|
  {
    var values := Map(AllSchedules(days), f);
    var d := Dedup(values);
    assert values != [] ==> values[0] in d;
    NoDuplicatesCard(d);
    assert (set x | x in d) == ValuesOn(days, f) by {
      forall x | x in d ensures exists s :: s in AllSchedules(days) && x == f(s) {
        var k :| 0 <= k < |values| && values[k] == x;
        assert AllSchedules(days)[k] in AllSchedules(days);
      }
      forall s | s in AllSchedules(days) ensures f(s) in d {
        var k :| 0 <= k < |AllSchedules(days)| && AllSchedules(days)[k] == s;
        assert values[k] == f(s);
      }
    }
    |d|
  }

  function DoctorIdOf(s: Detailed): string { s.schedule.doctorId }
  function LocationIdOf(s: Detailed): string { s.schedule.locationId }
  function SpecializationOf(s: Detailed): string { s.doctor.specialization }

  /** The integer counts of `getWeekAvailabilityStats`. */
  function GetWeekAvailabilityStats(view: WeekView): (st: WeekStats)
    ensures st.totalSchedules == |AllSchedules(view.days)|
    ensures st.activeSchedules <= st.totalSchedules
    ensures st.activeSchedules == Count(AllSchedules(view.days), IsActive())
    ensures st.doctorCount <= st.totalSchedules && st.locationCount <= st.totalSchedules
    ensures st.specializationCount <= st.totalSchedules
    ensures st.doctorCount == 0 <==> st.totalSchedules == 0
    ensures st.doctorCount == |ValuesOn(view.days, DoctorIdOf)|
    ensures st.locationCount == |ValuesOn(view.days, LocationIdOf)|
    ensures st.specializationCount == |ValuesOn(view.days, SpecializationOf)|
  {
    WeekStats(
      TotalSchedules(view.days),
      ActiveSchedules(view.days),
      Distinct(view.days, DoctorIdOf),
      Distinct(view.days, LocationIdOf),
      Distinct(view.days, SpecializationOf))
  }

  /** In a generated week view every schedule is active, so the two counts agree. */
  lemma GeneratedWeekAllActive(view: WeekView)
    requires forall i, k :: 0 <= i < |view.days| && 0 <= k < |view.days[i].schedules| ==>
               view.days[i].schedules[k].schedule.isActive
    ensures GetWeekAvailabilityStats(view).activeSchedules == GetWeekAvailabilityStats(view).totalSchedules
  {
  }
}
