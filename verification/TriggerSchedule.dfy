/**
 When a due trigger fires, skips or catches up. Instants are counted in nanoseconds, because the
 schedule compares instants exactly but counts elapsed time in whole seconds.
 */
module TriggerSchedule {
  import opened Wrappers

  const SECOND: int := 1_000_000_000

  datatype Policy = SkipMisfires | FireOnce | CatchUp | UnknownPolicy

  datatype Decision =
    | Skip(next: int, skipped: int)
    | Fire(effectiveDue: int, next: int, skipped: int)

  /** Whole seconds of a duration, truncated toward zero. */
  function Seconds(duration: int): int {
    if duration >= 0 then duration / SECOND else -(-duration / SECOND)
  }

  function Period(interval: int): int { interval * SECOND }

  predicate Late(due: int, now: int, maxDelay: int) { now > due + maxDelay * SECOND }

  function Occurrences(due: int, now: int, interval: int): int
    requires interval > 0
  {
    Seconds(now - due) / interval + 1
  }

  /** `None` when the schedule's bounds or its misfire policy are invalid. */
  function Decide(due: int, now: int, interval: int, maxDelay: int, policy: Policy, maxCatchUp: int): Option<Decision> {
    if interval < 60 || maxDelay < 0 || !(1 <= maxCatchUp <= 10) then None
    else if !Late(due, now, maxDelay) then Some(Fire(due, due + Period(interval), 0))
    else
      var occurrences := Occurrences(due, now, interval);
      match policy
      case SkipMisfires => Some(Skip(due + Period(interval * occurrences), occurrences))
      case FireOnce => Some(Fire(due, due + Period(interval * occurrences), occurrences - 1))
      case CatchUp =>
        var skipped := occurrences - maxCatchUp;
        var effectiveDue := due + Period(interval * skipped);
        Some(Fire(effectiveDue, effectiveDue + Period(interval), skipped))
      case UnknownPolicy => None
  }

  /** The k-th occurrence of a schedule, counted from `due`; negative k lie in the past. */
  function Occurrence(due: int, interval: int, k: int): int { due + Period(interval) * k }

  lemma PeriodScales(interval: int, k: int)
    ensures Period(interval * k) == Period(interval) * k
  {
  }

  lemma MulMono(a: int, b: int, c: int)
    requires a <= b && c >= 0
    ensures a * c <= b * c
  {
  }

  lemma DivBounds(a: int, b: int)
    requires b > 0
    ensures a / b * b <= a < a / b * b + b
  {
  }

  lemma SlotBounds(elapsed: int, interval: int)
    requires elapsed >= 0 && interval > 0
    ensures var whole := elapsed / SECOND / interval;
            Period(interval) * whole <= elapsed < Period(interval) * (whole + 1)
  {
    var seconds := elapsed / SECOND;
    var whole := seconds / interval;
    DivBounds(elapsed, SECOND);
    DivBounds(seconds, interval);
    MulMono(whole * interval, seconds, SECOND);
    MulMono(seconds + 1, whole * interval + interval, SECOND);
    assert Period(interval) * whole == whole * interval * SECOND;
    assert Period(interval) * (whole + 1) == (whole * interval + interval) * SECOND;
  }

  /** The truncated count is exact even below a second: an occurrence has passed by `now` if and
      only if its index is below the count. */
  lemma PassedOccurrences(due: int, now: int, interval: int, k: int)
    requires interval > 0 && due <= now
    ensures Occurrence(due, interval, k) <= now <==> k < Occurrences(due, now, interval)
  {
    var n := Occurrences(due, now, interval);
    SlotBounds(now - due, interval);
    if k < n {
      MulMono(k, n - 1, Period(interval));
    } else {
      MulMono(n, k, Period(interval));
    }
  }

  /** A trigger that is not late fires its due occurrence under every policy, moves on by one interval
      and skips nothing. */
  lemma OnTimeIsExact(due: int, now: int, interval: int, maxDelay: int, policy: Policy, maxCatchUp: int)
    requires interval >= 60 && maxDelay >= 0 && 1 <= maxCatchUp <= 10 && now <= due + maxDelay * SECOND
    ensures
      var decision := Decide(due, now, interval, maxDelay, policy, maxCatchUp);
      && decision.Some? && decision.value.Fire?
      && decision.value.effectiveDue == due && decision.value.next == due + interval * SECOND && decision.value.skipped == 0
  {
  }

  /** There is no decision exactly when the bounds are invalid, or the policy is and it matters. */
  lemma UndecidedExactly(due: int, now: int, interval: int, maxDelay: int, policy: Policy, maxCatchUp: int)
    ensures Decide(due, now, interval, maxDelay, policy, maxCatchUp).None? <==>
              || interval < 60 || maxDelay < 0 || maxCatchUp < 1 || maxCatchUp > 10
              || (now > due + maxDelay * SECOND && policy == UnknownPolicy)
  {
  }

  /** SKIP moves to the first occurrence strictly after now and counts exactly the lost ones. */
  lemma SkipIsExact(due: int, now: int, interval: int, maxDelay: int, maxCatchUp: int, k: int)
    requires interval >= 60 && maxDelay >= 0 && 1 <= maxCatchUp <= 10 && now > due + maxDelay * SECOND
    ensures
      var decision := Decide(due, now, interval, maxDelay, SkipMisfires, maxCatchUp);
      && decision.Some? && decision.value.Skip?
      && decision.value.next == Occurrence(due, interval, decision.value.skipped)
      && now < decision.value.next
      && (Occurrence(due, interval, k) > now ==> decision.value.next <= Occurrence(due, interval, k))
      && (Occurrence(due, interval, k) <= now <==> k < decision.value.skipped)
  {
    var n := Occurrences(due, now, interval);
    PeriodScales(interval, n);
    PassedOccurrences(due, now, interval, k);
    PassedOccurrences(due, now, interval, n);
    if n <= k { MulMono(n, k, Period(interval)); }
  }

  /** FIRE_ONCE fires the due occurrence and skips every other one that has passed. */
  lemma FireOnceIsExact(due: int, now: int, interval: int, maxDelay: int, maxCatchUp: int, k: int)
    requires interval >= 60 && maxDelay >= 0 && 1 <= maxCatchUp <= 10 && now > due + maxDelay * SECOND
    ensures
      var decision := Decide(due, now, interval, maxDelay, FireOnce, maxCatchUp);
      && decision.Some? && decision.value.Fire? && decision.value.effectiveDue == due
      && decision.value.next == Occurrence(due, interval, decision.value.skipped + 1)
      && now < decision.value.next
      && (Occurrence(due, interval, k) > now ==> decision.value.next <= Occurrence(due, interval, k))
      && (0 < k && Occurrence(due, interval, k) <= now <==> 0 < k <= decision.value.skipped)
  {
    SkipIsExact(due, now, interval, maxDelay, maxCatchUp, k);
  }

  /** CATCH_UP leaves exactly `maxCatchUp` occurrences between its effective due time and now, and
      the effective due time is an occurrence not before `due` exactly when the backlog is at
      least that long: with a shorter backlog it moves back before `due`. */
  lemma CatchUpIsExact(due: int, now: int, interval: int, maxDelay: int, maxCatchUp: int, k: int)
    requires interval >= 60 && maxDelay >= 0 && 1 <= maxCatchUp <= 10 && now > due + maxDelay * SECOND
    ensures
      var decision := Decide(due, now, interval, maxDelay, CatchUp, maxCatchUp);
      && decision.Some? && decision.value.Fire?
      && decision.value.effectiveDue == Occurrence(due, interval, decision.value.skipped)
      && decision.value.next == Occurrence(due, interval, decision.value.skipped + 1)
      && (Occurrence(decision.value.effectiveDue, interval, k) <= now <==> k < maxCatchUp)
      && (decision.value.effectiveDue >= due <==> Occurrences(due, now, interval) >= maxCatchUp)
      && (decision.value.skipped >= 0 <==> Occurrences(due, now, interval) >= maxCatchUp)
  {
    var n := Occurrences(due, now, interval);
    var skipped := n - maxCatchUp;
    PeriodScales(interval, skipped);
    PassedOccurrences(due, now, interval, skipped + k);
    if skipped >= 0 { MulMono(0, skipped, Period(interval)); } else { MulMono(skipped, -1, Period(interval)); }
    assert Occurrence(Occurrence(due, interval, skipped), interval, k) == Occurrence(due, interval, skipped + k);
  }

  /** A short backlog moves the schedule backwards: one missed minute with three catch-up fires
      allowed yields an effective due time two minutes before the due time. */
  lemma CatchUpMovesBackwards()
    ensures Decide(0, 20 * SECOND, 60, 10, CatchUp, 3) == Some(Fire(-120 * SECOND, -60 * SECOND, -2))
  {
  }

  /** While late, what CATCH_UP fires depends on the clock alone: any two due times on the same
      schedule give the same effective due time within one slot of the schedule. */
  lemma CatchUpIgnoresDue(due: int, now: int, j: int, later: int, interval: int, maxDelay: int, maxCatchUp: int)
    requires interval >= 60 && maxDelay >= 0 && 1 <= maxCatchUp <= 10
    requires Late(due, now, maxDelay) && now <= later && Late(Occurrence(due, interval, j), later, maxDelay)
    ensures
      var first := Decide(due, now, interval, maxDelay, CatchUp, maxCatchUp);
      var second := Decide(Occurrence(due, interval, j), later, interval, maxDelay, CatchUp, maxCatchUp);
      && first.Some? && first.value.Fire? && second.Some? && second.value.Fire?
      && first.value.effectiveDue <= second.value.effectiveDue
      && (second.value.effectiveDue == first.value.effectiveDue <==>
            later < Occurrence(first.value.effectiveDue, interval, maxCatchUp))
  {
    var due' := Occurrence(due, interval, j);
    var first := CatchUpSlot(due, now, interval, maxDelay, maxCatchUp);
    var second := CatchUpSlot(due', later, interval, maxDelay, maxCatchUp);
    SlotsInOrder(due, interval, first.skipped, j, second.skipped, maxCatchUp, now, later);
  }

  /** `now` lies in the last of the `k` periods that start at occurrence `i` of the schedule. */
  ghost predicate InSlot(due: int, interval: int, i: int, k: int, now: int) {
    Occurrence(due, interval, i + k - 1) <= now < Occurrence(due, interval, i + k)
  }

  lemma CatchUpSlot(due: int, now: int, interval: int, maxDelay: int, maxCatchUp: int) returns (decision: Decision)
    requires interval >= 60 && maxDelay >= 0 && 1 <= maxCatchUp <= 10 && now > due + maxDelay * SECOND
    ensures Decide(due, now, interval, maxDelay, CatchUp, maxCatchUp) == Some(decision) && decision.Fire?
    ensures decision.effectiveDue == Occurrence(due, interval, decision.skipped)
    ensures InSlot(due, interval, decision.skipped, maxCatchUp, now)
  {
    CatchUpIsExact(due, now, interval, maxDelay, maxCatchUp, maxCatchUp - 1);
    CatchUpIsExact(due, now, interval, maxDelay, maxCatchUp, maxCatchUp);
    decision := Decide(due, now, interval, maxDelay, CatchUp, maxCatchUp).value;
    OccurrenceShift(due, interval, decision.skipped, maxCatchUp - 1);
    OccurrenceShift(due, interval, decision.skipped, maxCatchUp);
  }

  lemma OccurrenceShift(due: int, interval: int, i: int, k: int)
    ensures Occurrence(Occurrence(due, interval, i), interval, k) == Occurrence(due, interval, i + k)
  {
  }

  lemma OccurrenceOrder(due: int, interval: int, i: int, k: int)
    requires interval > 0
    ensures Occurrence(due, interval, i) < Occurrence(due, interval, k) <==> i < k
  {
    if i < k { MulMono(i + 1, k, Period(interval)); } else { MulMono(k, i, Period(interval)); }
  }

  /** Two instants in order lie in the same slot of a schedule exactly before the first slot ends. */
  lemma SlotsInOrder(due: int, interval: int, p: int, j: int, q: int, k: int, now: int, later: int)
    requires interval > 0 && now <= later
    requires InSlot(due, interval, p, k, now) && InSlot(Occurrence(due, interval, j), interval, q, k, later)
    ensures var a, b := Occurrence(due, interval, p), Occurrence(Occurrence(due, interval, j), interval, q);
            a <= b && (b == a <==> later < Occurrence(a, interval, k))
  {
    OccurrenceShift(due, interval, j, q);
    OccurrenceShift(due, interval, j, q + k - 1);
    OccurrenceShift(due, interval, j, q + k);
    OccurrenceShift(due, interval, p, k);
    OccurrenceOrder(due, interval, p + k - 1, j + q + k);
    OccurrenceOrder(due, interval, j + q, p);
    OccurrenceOrder(due, interval, p, j + q);
    OccurrenceOrder(due, interval, j + q + k - 1, p + k);
  }

  /** So a catch-up fire is not followed by the next one of the backlog: as long as the advanced
      trigger is still late and the clock has not reached the next occurrence, the following pass
      decides the very occurrence that has just been fired. */
  lemma CatchUpRepeatsItself(due: int, now: int, later: int, interval: int, maxDelay: int, maxCatchUp: int)
    requires interval >= 60 && maxDelay >= 0 && 1 <= maxCatchUp <= 10
    requires Late(due, now, maxDelay) && now <= later
    ensures
      var first := Decide(due, now, interval, maxDelay, CatchUp, maxCatchUp);
      && first.Some? && first.value.Fire?
      && (Late(first.value.next, later, maxDelay) ==>
            var second := Decide(first.value.next, later, interval, maxDelay, CatchUp, maxCatchUp);
            && second.Some? && second.value.Fire?
            && (second.value.effectiveDue == first.value.effectiveDue <==>
                  later < Occurrence(first.value.effectiveDue, interval, maxCatchUp)))
      && (!Late(first.value.next, later, maxDelay) ==>
            var second := Decide(first.value.next, later, interval, maxDelay, CatchUp, maxCatchUp);
            second == Some(Fire(first.value.next, first.value.next + Period(interval), 0)))
  {
    CatchUpIsExact(due, now, interval, maxDelay, maxCatchUp, 0);
    var first := Decide(due, now, interval, maxDelay, CatchUp, maxCatchUp).value;
    if Late(first.next, later, maxDelay) {
      CatchUpIgnoresDue(due, now, first.skipped + 1, later, interval, maxDelay, maxCatchUp);
    }
  }

  /** Every decision lands on the schedule: the next due time is `skipped` occurrences further, plus
      one when it fires, whatever the sign of `skipped`; what fires is the due occurrence itself,
      except when a late CATCH_UP passes over some. */
  lemma DecisionStaysOnSchedule(due: int, now: int, interval: int, maxDelay: int, policy: Policy, maxCatchUp: int)
    ensures match Decide(due, now, interval, maxDelay, policy, maxCatchUp)
            case None => true
            case Some(Skip(next, skipped)) => next == Occurrence(due, interval, skipped)
            case Some(Fire(effectiveDue, next, skipped)) =>
              && next == Occurrence(due, interval, skipped + 1)
              && effectiveDue == Occurrence(due, interval, if policy == CatchUp && Late(due, now, maxDelay) then skipped else 0)
  {
    var decision := Decide(due, now, interval, maxDelay, policy, maxCatchUp);
    if decision.Some? {
      PeriodScales(interval, decision.value.skipped);
      PeriodScales(interval, decision.value.skipped + 1);
    }
  }

  /** The products the schedule forms stay within the elapsed time plus one interval. */
  lemma OccurrencesDoNotOverflow(due: int, now: int, interval: int)
    requires interval > 0 && due <= now
    ensures 0 < interval * Occurrences(due, now, interval) <= Seconds(now - due) + interval
  {
    DivBounds(Seconds(now - due), interval);
    MulMono(1, Occurrences(due, now, interval), interval);
  }
}
