/**
 * Phase due dates: a deadline at least a week away is split over the nine
 * phases in proportion to fixed weights; every date is a timestamp in
 * milliseconds and the current time is a parameter.
 */
module Scheduler {
  import opened Options
  import opened Catalog

  /** Milliseconds in a day: 1000 * 60 * 60 * 24. */
  const DayMs: int := 86_400_000

  /** A deadline fewer whole days away than this gets no dates at all. */
  const MinimumDays: int := 7

  /** Whole days from `now` to `deadline`, rounded down; negative once the deadline has passed. */
  function TotalDays(deadline: int, now: int): (days: int)
    ensures days * DayMs <= deadline - now < (days + 1) * DayMs
  {
    (deadline - now) / DayMs
  }

  /** Lower-cases ASCII letters and leaves every other character alone. */
  function LowerChar(c: char): char {
    if 'A' <= c <= 'Z' then (c as int + 32) as char else c
  }

  function Lower(s: string): string {
    seq(|s|, i requires 0 <= i < |s| => LowerChar(s[i]))
  }

  /** The relaxed intensity is the word "chill" in any letter case. */
  predicate IsChill(intensity: Option<string>): (chill: bool)
    ensures chill ==> intensity.Some? && |intensity.value| == 5
    ensures intensity == Some("chill") ==> chill
  {
    intensity.Some? && Lower(intensity.value) == "chill"
  }

  /** The weight of a phase, doubled so that every weight is a whole number. */
  function Weight(chill: bool, p: Phase): (w: nat)
    ensures 1 <= w && (if chill then w <= 6 else w <= 4)
  {
    match p
    case Admin => 1
    case Frame => 2
    case Research => if chill then 6 else 4
    case Synthesis => if chill then 4 else 3
    case Define => 3
    case UISystem => if chill then 4 else 3
    case Prototype => if chill then 5 else 4
    case Testing => if chill then 4 else 3
    case Delivery => 2
  }

  /** The phase weights in phase order. */
  function Weights(chill: bool): (ws: seq<nat>)
    ensures |ws| == |Phases|
    ensures forall i :: 0 <= i < |Phases| ==> ws[i] == Weight(chill, Phases[i]) > 0
  {
    [ Weight(chill, Admin), Weight(chill, Frame), Weight(chill, Research),
      Weight(chill, Synthesis), Weight(chill, Define), Weight(chill, UISystem),
      Weight(chill, Prototype), Weight(chill, Testing), Weight(chill, Delivery) ]
  }

  function Sum(ws: seq<nat>): nat {
    if |ws| == 0 then 0 else ws[0] + Sum(ws[1..])
  }

  lemma {:induction false} SumSuffix(ws: seq<nat>, k: nat)
    requires k < |ws|
    ensures Sum(ws[k..]) == ws[k] + Sum(ws[k + 1..])
  {
    assert ws[k..][1..] == ws[k + 1..];
  }

  lemma SumOfNine(ws: seq<nat>)
    requires |ws| == 9
    ensures Sum(ws) == ws[0] + ws[1] + ws[2] + ws[3] + ws[4] + ws[5] + ws[6] + ws[7] + ws[8]
  {
    assert ws[0..] == ws;
    SumSuffix(ws, 0); SumSuffix(ws, 1); SumSuffix(ws, 2); SumSuffix(ws, 3); SumSuffix(ws, 4);
    SumSuffix(ws, 5); SumSuffix(ws, 6); SumSuffix(ws, 7); SumSuffix(ws, 8);
    assert ws[9..] == [];
  }

  /** Doubled weights add up to 25 (12.5 standard) and 31 (15.5 chill). */
  lemma WeightTotals()
    ensures Sum(Weights(false)) == 25
    ensures Sum(Weights(true)) == 31
  {
    StandardTotal();
    ChillTotal();
  }

  lemma StandardTotal()
    ensures Sum(Weights(false)) == 25
  {
    var ws := Weights(false);
    SumOfNine(ws);
    assert ws == [1, 2, 4, 3, 3, 3, 4, 3, 2];
  }

  lemma ChillTotal()
    ensures Sum(Weights(true)) == 31
  {
    var ws := Weights(true);
    SumOfNine(ws);
    assert ws == [1, 2, 6, 4, 3, 4, 5, 4, 2];
  }

  /** Chill gives more time to Research, Synthesis, UI System, Prototype and Testing, and the same elsewhere. */
  lemma ChillWeightsLarger(p: Phase)
    ensures Weight(true, p) >= Weight(false, p)
    ensures Weight(true, p) > Weight(false, p) <==> p in {Research, Synthesis, UISystem, Prototype, Testing}
  {
  }

  /** Days given to a phase of weight `w`: the ceiling of w * totalDays / totalWeight. */
  function PhaseDays(w: nat, totalDays: nat, totalWeight: nat): (days: nat)
    requires totalWeight > 0
    ensures days * totalWeight >= w * totalDays
    ensures (days - 1) * totalWeight < w * totalDays || days == 0
  {
    var n := w * totalDays;
    var q := (n + totalWeight - 1) / totalWeight;
    var r := (n + totalWeight - 1) % totalWeight;
    assert n + totalWeight - 1 == q * totalWeight + r && 0 <= r < totalWeight;
    assert q * totalWeight - totalWeight == (q - 1) * totalWeight;
    q
  }

  /** A phase with weight and time to share gets at least a day. */
  lemma PhaseDaysPositive(w: nat, totalDays: nat, totalWeight: nat)
    requires totalWeight > 0 && w > 0 && totalDays > 0
    ensures PhaseDays(w, totalDays, totalWeight) > 0
  {
    var d := PhaseDays(w, totalDays, totalWeight);
    assert w * totalDays > 0;
  }

  function Min(a: int, b: int): int {
    if a <= b then a else b
  }

  /** The cursor after each phase: it moves on by the phase's days and stops at the deadline. */
  function Walk(ws: seq<nat>, cursor: int, deadline: int, totalDays: nat, totalWeight: nat): (dates: seq<int>)
    requires totalWeight > 0
    ensures |dates| == |ws|
  {
    if |ws| == 0 then []
    else
      var next := cursor + PhaseDays(ws[0], totalDays, totalWeight) * DayMs;
      var clamped := if next > deadline then deadline else next;
      [clamped] + Walk(ws[1..], clamped, deadline, totalDays, totalWeight)
  }

  /** Days used by the phases of `ws` together. */
  function PrefixDays(ws: seq<nat>, totalDays: nat, totalWeight: nat): nat
    requires totalWeight > 0
  {
    if |ws| == 0 then 0 else PhaseDays(ws[0], totalDays, totalWeight) + PrefixDays(ws[1..], totalDays, totalWeight)
  }

  /** Walked dates never pass the deadline and never go back. */
  lemma {:induction false} WalkBounded(ws: seq<nat>, cursor: int, deadline: int, totalDays: nat, totalWeight: nat)
    requires totalWeight > 0 && cursor <= deadline
    ensures forall i :: 0 <= i < |ws| ==> cursor <= Walk(ws, cursor, deadline, totalDays, totalWeight)[i] <= deadline
    ensures forall i, j :: 0 <= i < j < |ws| ==>
      Walk(ws, cursor, deadline, totalDays, totalWeight)[i] <= Walk(ws, cursor, deadline, totalDays, totalWeight)[j]
  {
    if |ws| > 0 {
      var dates := Walk(ws, cursor, deadline, totalDays, totalWeight);
      var rest := Walk(ws[1..], dates[0], deadline, totalDays, totalWeight);
      WalkBounded(ws[1..], dates[0], deadline, totalDays, totalWeight);
      assert dates == [dates[0]] + rest;
      assert forall i :: 0 < i < |ws| ==> dates[i] == rest[i - 1];
    }
  }

  /** While the deadline is ahead and every weight is positive, each walked date lies after the start. */
  lemma {:induction false} WalkAdvances(ws: seq<nat>, cursor: int, deadline: int, totalDays: nat, totalWeight: nat)
    requires totalWeight > 0 && totalDays > 0 && cursor < deadline
    requires forall i :: 0 <= i < |ws| ==> ws[i] > 0
    ensures forall i :: 0 <= i < |ws| ==> cursor < Walk(ws, cursor, deadline, totalDays, totalWeight)[i]
  {
    if |ws| > 0 {
      var dates := Walk(ws, cursor, deadline, totalDays, totalWeight);
      PhaseDaysPositive(ws[0], totalDays, totalWeight);
      assert cursor < dates[0];
      WalkBounded(ws, cursor, deadline, totalDays, totalWeight);
    }
  }

  /** The walked date of a phase is the start plus all days so far, capped at the deadline. */
  lemma {:induction false} WalkClosedForm(ws: seq<nat>, cursor: int, deadline: int, totalDays: nat, totalWeight: nat, i: nat)
    requires totalWeight > 0 && cursor <= deadline && i < |ws|
    ensures Walk(ws, cursor, deadline, totalDays, totalWeight)[i]
         == Min(deadline, cursor + DayMs * PrefixDays(ws[..i + 1], totalDays, totalWeight))
  {
    var d0 := PhaseDays(ws[0], totalDays, totalWeight);
    var first := Min(deadline, cursor + d0 * DayMs);
    assert ws[..i + 1][0] == ws[0];
    assert ws[..i + 1][1..] == ws[1..][..i];
    if i > 0 {
      WalkClosedForm(ws[1..], first, deadline, totalDays, totalWeight, i - 1);
      var later := PrefixDays(ws[1..][..i], totalDays, totalWeight);
      assert PrefixDays(ws[..i + 1], totalDays, totalWeight) == d0 + later;
      assert DayMs * (d0 + later) == d0 * DayMs + DayMs * later;
    } else {
      assert ws[..1][1..] == [];
    }
  }

  /** A due-date table: one optional timestamp per phase, in phase order. */
  type DueTable = seq<Option<int>>

  /** The table entry of phase `p`. */
  function DueOf(dates: DueTable, p: Phase): Option<int>
    requires |dates| == |Phases|
  {
    dates[PhaseRank(p) - 1]
  }

  function NoDates(): (dates: DueTable)
    ensures |dates| == |Phases|
    ensures forall i :: 0 <= i < |dates| ==> dates[i].None?
  {
    seq(|Phases|, i => None)
  }

  /** True when the deadline is present and at least a week of whole days away. */
  predicate Schedulable(deadline: Option<int>, now: int) {
    deadline.Some? && TotalDays(deadline.value, now) >= MinimumDays
  }

  /** The due date of every phase for a deadline, an intensity and the current time. */
  function PhaseDates(deadline: Option<int>, intensity: Option<string>, now: int): (dates: DueTable)
    ensures |dates| == |Phases|
    ensures forall i :: 0 <= i < |dates| ==> (dates[i].Some? <==> Schedulable(deadline, now))
    ensures Schedulable(deadline, now) ==> DueOf(dates, Delivery) == deadline
    ensures Schedulable(deadline, now) ==>
      forall i :: 0 <= i < |dates| ==> now < dates[i].value <= deadline.value
    ensures Schedulable(deadline, now) ==>
      forall i, j :: 0 <= i < j < |dates| ==> dates[i].value <= dates[j].value
  {
    if deadline.None? then NoDates()
    else
      var totalDays := TotalDays(deadline.value, now);
      if totalDays < MinimumDays then NoDates()
      else
        var ws := Weights(IsChill(intensity));
        assert Sum(ws) > 0 by { assert ws == [ws[0]] + ws[1..]; }
        var walked := Walk(ws, now, deadline.value, totalDays, Sum(ws));
        WalkBounded(ws, now, deadline.value, totalDays, Sum(ws));
        WalkAdvances(ws, now, deadline.value, totalDays, Sum(ws));
        var dates := seq(|walked|, i requires 0 <= i < |walked| => Some(walked[i]));
        dates[PhaseRank(Delivery) - 1 := deadline]
  }

  /** Every phase before Delivery is due at the start plus its share of days so far, capped at the deadline. */
  lemma PhaseDatesClosedForm(deadline: Option<int>, intensity: Option<string>, now: int, i: nat)
    requires Schedulable(deadline, now) && i < |Phases| - 1
    ensures PhaseDates(deadline, intensity, now)[i]
         == Some(Min(deadline.value,
                     now + DayMs * PrefixDays(Weights(IsChill(intensity))[..i + 1],
                                              TotalDays(deadline.value, now),
                                              Sum(Weights(IsChill(intensity))))))
  {
    var ws := Weights(IsChill(intensity));
    assert Sum(ws) > 0 by { assert ws == [ws[0]] + ws[1..]; }
    WalkClosedForm(ws, now, deadline.value, TotalDays(deadline.value, now), Sum(ws), i);
  }

  /** Intensity matters only through whether it reads "chill". */
  lemma IntensityIsChillOrStandard(deadline: Option<int>, intensity: Option<string>, now: int)
    ensures IsChill(intensity) ==> PhaseDates(deadline, intensity, now) == PhaseDates(deadline, Some("chill"), now)
    ensures !IsChill(intensity) ==> PhaseDates(deadline, intensity, now) == PhaseDates(deadline, None, now)
  {
    assert Lower("chill") == "chill";
  }

  /** The intensity word is matched without regard to letter case. */
  lemma IsChillIgnoresCase()
    ensures IsChill(Some("chill")) && IsChill(Some("Chill")) && IsChill(Some("CHILL"))
    ensures !IsChill(None) && !IsChill(Some("")) && !IsChill(Some("crunch")) && !IsChill(Some("chill "))
  {
    assert Lower("Chill") == "chill";
    assert Lower("CHILL") == "chill";
    assert Lower("chill") == "chill";
    assert Lower("crunch") != "chill" by { assert |Lower("crunch")| == 6; }
    assert Lower("chill ") != "chill" by { assert |Lower("chill ")| == 6; }
  }

  /** An intensity is chill exactly when it spells "chill" with each letter in either case. */
  lemma IsChillIffLetters(s: string)
    ensures IsChill(Some(s)) <==> |s| == 5 && forall i :: 0 <= i < 5 ==> s[i] == "chill"[i] || s[i] == "CHILL"[i]
  {
    if |s| == 5 {
      forall i | 0 <= i < 5
        ensures Lower(s)[i] == "chill"[i] <==> s[i] == "chill"[i] || s[i] == "CHILL"[i]
      {
        assert Lower(s)[i] == LowerChar(s[i]);
      }
      if forall i :: 0 <= i < 5 ==> s[i] == "chill"[i] || s[i] == "CHILL"[i] {
        assert Lower(s) == "chill";
      }
    }
  }

  lemma TwoWeeksAreFourteenDays(now: int)
    ensures TotalDays(now + 14 * DayMs, now) == 14
  {
  }

  lemma TwoWeeksStandardPrefix(now: int, k: nat)
    requires 1 <= k <= 2
    ensures PhaseDates(Some(now + 14 * DayMs), None, now)[k - 1]
         == Some(Min(now + 14 * DayMs, now + DayMs * PrefixDays(Weights(false)[..k], 14, 25)))
  {
    var deadline := Some(now + 14 * DayMs);
    TwoWeeksAreFourteenDays(now);
    assert !IsChill(None);
    StandardTotal();
    PhaseDatesClosedForm(deadline, None, now, k - 1);
  }

  /** Admin takes ceil(1 * 14 / 25) = 1 day and Frame ceil(2 * 14 / 25) = 2 more. */
  lemma TwoWeeksStandardDays()
    ensures PrefixDays(Weights(false)[..1], 14, 25) == 1
    ensures PrefixDays(Weights(false)[..2], 14, 25) == 3
  {
    var ws := Weights(false);
    assert ws[0] == 1 && ws[1] == 2;
    assert PhaseDays(1, 14, 25) == 1;
    assert PhaseDays(2, 14, 25) == 2;
    assert ws[..1][1..] == [];
    assert ws[..2][1..] == [ws[1]];
    assert [ws[1]][1..] == [];
  }

  /** Two weeks out at standard intensity: Admin is due after one day, Frame after three, Delivery at the deadline. */
  lemma TwoWeeksStandard(now: int)
    ensures PhaseDates(Some(now + 14 * DayMs), None, now)[0] == Some(now + DayMs)
    ensures PhaseDates(Some(now + 14 * DayMs), None, now)[1] == Some(now + 3 * DayMs)
    ensures DueOf(PhaseDates(Some(now + 14 * DayMs), None, now), Delivery) == Some(now + 14 * DayMs)
  {
    TwoWeeksStandardAdmin(now);
    TwoWeeksStandardFrame(now);
    TwoWeeksAreFourteenDays(now);
  }

  /** Admin, the first phase of the two-week standard plan, is due after one day. */
  lemma TwoWeeksStandardAdmin(now: int)
    ensures PhaseDates(Some(now + 14 * DayMs), None, now)[0] == Some(now + DayMs)
  {
    TwoWeeksStandardDays();
    TwoWeeksStandardPrefix(now, 1);
  }

  /** Frame, the second phase of the two-week standard plan, is due after three days. */
  lemma TwoWeeksStandardFrame(now: int)
    ensures PhaseDates(Some(now + 14 * DayMs), None, now)[1] == Some(now + 3 * DayMs)
  {
    TwoWeeksStandardDays();
    TwoWeeksStandardPrefix(now, 2);
  }
}
