/**
 Runs that show where the laws end: an hourly CATCH_UP trigger that fires out of order and then comes
 upon its own duplicate, with wall clock, database clock and hour of day in agreement throughout; and a
 budget window that a transaction left open for three months fires into again.
 */
module ChannelWitnesses {
  import opened Wrappers
  import opened TriggerSchedule
  import opened ChannelTables
  import opened ChannelWorld
  import opened ChannelSchedule
  import opened ChannelFires
  import opened ChannelScans

  const HOUR: int := 3600 * SECOND
  const BINDING: Binding := Binding(false, {"home"}, 22, 23)
  const BUDGET: Budget := Budget(86400, 100, 100, 0, 0, 0, 0)
  const HOURLY: Trigger :=
    Trigger(0, Scheduled, None, Some(3600), Some(("home", "")), Some(BUDGET), 10, CatchUp, 3, true, 21 * HOUR, 0, 0, 0)

  function HourOf(t: int): int { t / HOUR % 24 }

  /** One undisturbed pass at time `t`: the clock moves, a worker selects the trigger and commits. */
  lemma PassAt(w: World, t: int, message: Id) returns (run: seq<World>)
    requires w.passes == map[] && w.db.now <= t && Selectable(w.db.(now := t), 0) && w.db.triggers[0].kind.Scheduled?
    requires message !in w.db.messages
    ensures IsRun(run) && run[0] == w
    ensures var db := w.db.(now := t);
      run[|run| - 1] == w.(db := Apply(db, 0, message, Outcome(db, 0, t, t, HourOf(t))))
  {
    var clocked := AdminNext(w, Clock(t));
    var selected := TriggerNext(clocked, PassSelects(0, 0));
    var committed := TriggerNext(selected, PassCommits(0, t, HourOf(t), message));
    assert selected == clocked.(passes := map[0 := Firing(0, t)]);
    assert committed.passes == map[];
    assert ByAdmin(w, clocked) && ByTrigger(clocked, selected) && ByTrigger(selected, committed);
    run := [w, clocked, selected, committed];
  }

  /** The service over this trigger alone at time `now`, due at `due`, after the fires in `fired`. */
  ghost predicate Hourly(w: World, now: int, due: int, fired: seq<int>) {
    && w.passes == map[] && w.db.now == now && w.db.bindings == map[0 := BINDING]
    && w.db.triggers.Keys == {0} && SameConfiguration(HOURLY, w.db.triggers[0])
    && w.db.triggers[0].active && w.db.triggers[0].nextFire == due
    && (forall k | k in w.db.usage :: w.db.usage[k].fires <= |fired| && w.db.usage[k].turns <= |fired|
                                      && w.db.usage[k].tokens == 0 && w.db.usage[k].cost == 0)
    && (forall m :: m in w.db.messages <==> 0 <= m < |fired|)
    && (forall m | m in w.db.messages ::
          w.db.messages[m].binding == 0 && w.db.messages[m].key == TriggerKey(0, fired[m])
          && w.db.messages[m].direction == Inbound)
    && |w.db.journal| == |fired|
    && (forall i | 0 <= i < |fired| :: IsFire(w.db.journal[i], 0, Some(fired[i])))
  }

  /** What a pass over it decides and how that comes out. */
  lemma HourlyOutcome(w: World, now: int, due: int, fired: seq<int>, t: int)
    requires Hourly(w, now, due, fired) && |fired| < 100 && due <= t
    ensures
      var db := w.db.(now := t);
      var decision := Decide(due, t, 3600, 10, CatchUp, 3);
      var outcome := Outcome(db, 0, t, t, HourOf(t));
      && decision.Some? && decision.value.Fire?
      && var second := decision.value.effectiveDue / SECOND;
         if HourOf(t) == 22 then outcome == Advances(decision.value.next, decision.value.skipped + 1)
         else if second in fired then outcome == IsDuplicate
         else outcome.Fires? && outcome.second == second && outcome.next == decision.value.next
              && outcome.usage.fires <= |fired| + 1 && outcome.usage.turns <= |fired| + 1
              && outcome.usage.tokens == 0 && outcome.usage.cost == 0
  {
    var db := w.db.(now := t);
    var decision := Decide(due, t, 3600, 10, CatchUp, 3);
    var second := decision.value.effectiveDue / SECOND;
    if second in fired {
      var m :| 0 <= m < |fired| && fired[m] == second;
      assert m in db.messages && db.messages[m].key == TriggerKey(0, second);
      assert KeyTaken(db.messages, 0, TriggerKey(0, second), Inbound);
    } else {
      assert !KeyTaken(db.messages, 0, TriggerKey(0, second), Inbound);
    }
  }

  lemma HourlyDenied(w: World, now: int, due: int, fired: seq<int>, t: int, next: int, skipped: int)
    requires Hourly(w, now, due, fired)
    ensures Hourly(w.(db := Apply(w.db.(now := t), 0, |fired|, Advances(next, skipped))), t, next, fired)
  {
  }

  lemma HourlyFired(w: World, now: int, due: int, fired: seq<int>, t: int, outcome: PassOutcome)
    requires Hourly(w, now, due, fired) && outcome.Fires?
    requires outcome.usage.fires <= |fired| + 1 && outcome.usage.turns <= |fired| + 1
    requires outcome.usage.tokens == 0 && outcome.usage.cost == 0
    ensures Hourly(w.(db := Apply(w.db.(now := t), 0, |fired|, outcome)), t, outcome.next, fired + [outcome.second])
  {
  }

  function Service(t: Trigger): World {
    World(Tables(map[0 := BINDING], map[0 := t], map[], map[], map[], 0, []), map[], map[], map[], {}, {})
  }

  /** A run of the service over this trigger that has come this far. */
  ghost predicate Reaches(run: seq<World>, now: int, due: int, fired: seq<int>) {
    IsRun(run) && run[0] == Service(HOURLY) && Hourly(run[|run| - 1], now, due, fired)
  }

  /** The run goes on with a pass at time `t`, which fires the occurrence it decides or is denied. */
  lemma ThenPass(before: seq<World>, now: int, due: int, fired: seq<int>, t: int, decision: Decision, fired': seq<int>)
    returns (run: seq<World>)
    requires Reaches(before, now, due, fired) && |fired| < 100 && due <= t && now <= t
    requires Decide(due, t, 3600, 10, CatchUp, 3) == Some(decision) && decision.Fire?
    requires HourOf(t) != 22 ==> decision.effectiveDue / SECOND !in fired
    requires fired' == if HourOf(t) == 22 then fired else fired + [decision.effectiveDue / SECOND]
    ensures Reaches(run, t, decision.next, fired')
  {
    var w := before[|before| - 1];
    HourlyOutcome(w, now, due, fired, t);
    var outcome := Outcome(w.db.(now := t), 0, t, t, HourOf(t));
    var pass := PassAt(w, t, |fired|);
    if HourOf(t) == 22 {
      HourlyDenied(w, now, due, fired, t, decision.next, decision.skipped + 1);
    } else {
      HourlyFired(w, now, due, fired, t, outcome);
    }
    RunsJoin(before, pass);
    run := before + pass[1..];
  }

  const LATE: int := 24 * HOUR + 20 * SECOND

  lemma EveningDecisions()
    ensures Decide(21 * HOUR, 21 * HOUR, 3600, 10, CatchUp, 3) == Some(Fire(21 * HOUR, 22 * HOUR, 0))
    ensures Decide(22 * HOUR, 22 * HOUR, 3600, 10, CatchUp, 3) == Some(Fire(22 * HOUR, 23 * HOUR, 0))
    ensures Decide(23 * HOUR, 23 * HOUR, 3600, 10, CatchUp, 3) == Some(Fire(23 * HOUR, 24 * HOUR, 0))
    ensures Decide(24 * HOUR, LATE, 3600, 10, CatchUp, 3) == Some(Fire(22 * HOUR, 23 * HOUR, -2))
    ensures HourOf(21 * HOUR) == 21 && HourOf(22 * HOUR) == 22 && HourOf(23 * HOUR) == 23 && HourOf(LATE) == 0
  {
  }

  /** The occurrence of 21:00 fires, 22:00 falls into quiet hours and is denied, 23:00 fires, and the
      pass for midnight, twenty seconds late, fires the denied occurrence of 22:00. */
  lemma CatchUpFiresOutOfOrder() returns (run: seq<World>)
    ensures Reaches(run, LATE, 23 * HOUR, [21 * 3600, 23 * 3600, 22 * 3600]) && Starting(run[0])
  {
    EveningDecisions();
    run := DeniedEvening();
    run := ThenPass(run, 22 * HOUR, 23 * HOUR, [21 * 3600], 23 * HOUR, Fire(23 * HOUR, 24 * HOUR, 0), [21 * 3600, 23 * 3600]);
    run := ThenPass(run, 23 * HOUR, 24 * HOUR, [21 * 3600, 23 * 3600], LATE, Fire(22 * HOUR, 23 * HOUR, -2),
                    [21 * 3600, 23 * 3600, 22 * 3600]);
  }

  lemma DeniedEvening() returns (run: seq<World>)
    ensures Reaches(run, 22 * HOUR, 23 * HOUR, [21 * 3600])
  {
    EveningDecisions();
    run := [Service(HOURLY)];
    assert Reaches(run, 0, 21 * HOUR, []);
    run := ThenPass(run, 0, 21 * HOUR, [], 21 * HOUR, Fire(21 * HOUR, 22 * HOUR, 0), [21 * 3600]);
    run := ThenPass(run, 21 * HOUR, 22 * HOUR, [21 * 3600], 22 * HOUR, Fire(22 * HOUR, 23 * HOUR, 0), [21 * 3600]);
  }

  /** A second later the same trigger decides the occurrence of 22:00 again, which is a duplicate now. */
  lemma CatchUpReachesDuplicate() returns (run: seq<World>)
    ensures IsRun(run) && Starting(run[0]) && run[0] == Service(HOURLY)
    ensures
      var w := run[|run| - 1];
      && Selectable(w.db, 0)
      && Outcome(w.db, 0, w.db.now, w.db.now, HourOf(w.db.now)) == IsDuplicate
  {
    run := CatchUpFiresOutOfOrder();
    var before, t := run[|run| - 1], LATE + SECOND;
    var fired := [21 * 3600, 23 * 3600, 22 * 3600];
    assert Decide(23 * HOUR, t, 3600, 10, CatchUp, 3) == Some(Fire(22 * HOUR, 23 * HOUR, -1));
    assert fired[2] == 22 * 3600;
    HourlyOutcome(before, LATE, 23 * HOUR, fired, t);
    var after := AdminNext(before, Clock(t));
    assert ByAdmin(before, after);
    RunGoesOn(run, after);
    run := run + [after];
  }

  // ---- A pass older than the retention ----

  const DAY: int := 24 * HOUR
  const ONCE_A_DAY: Trigger := HOURLY.(nextFire := 0, budget := Some(Budget(86400, 1, 1, 0, 0, 0, 0)))

  lemma FirstFire() returns (run: seq<World>)
    ensures IsRun(run) && run[0] == Service(ONCE_A_DAY)
    ensures
      var w := run[|run| - 1];
      && w.passes == map[] && w.swept == {} && w.db.now == 0 && w.db.bindings == map[0 := BINDING]
      && w.db.triggers == map[0 := ONCE_A_DAY.(nextFire := HOUR, fireCount := 1)]
      && w.db.usage == map[(0, 0) := Usage(1, 1, 0, 0)]
      && w.db.messages == map[0 := InboundMessage(0, TriggerKey(0, 0), 0, false)]
      && w.db.journal == [Fired(0, 0, 0, None)]
  {
    var w := Service(ONCE_A_DAY);
    assert Decide(0, 0, 3600, 10, CatchUp, 3) == Some(Fire(0, HOUR, 0));
    assert Outcome(w.db, 0, 0, 0, 0) == Fires(0, HOUR, 0, 0, Usage(1, 1, 0, 0));
    run := PassAt(w, 0, 0);
  }

  /** A pass that selected the trigger in the first window and commits after the sweep of that window
      fires into it a second time, although the budget allows one fire. */
  lemma SweepReopensWindow() returns (run: seq<World>)
    ensures IsRun(run) && Starting(run[0]) && run[0] == Service(ONCE_A_DAY)
    ensures run[|run| - 1].db.journal == [Fired(0, 0, 0, None), Fired(0, 3600, 0, None)]
  {
    run := FirstFire();
    var w := run[|run| - 1];
    var clocked := AdminNext(w, Clock(HOUR));
    var selected := TriggerNext(clocked, PassSelects(0, 0));
    assert selected == clocked.(passes := map[0 := Firing(0, HOUR)]);
    var later := AdminNext(selected, Clock(91 * DAY));
    var swept := TriggerNext(later, UsageSwept);
    assert swept.db.usage == map[];
    var committed := TriggerNext(swept, PassCommits(0, HOUR, 1, 1));
    OldPassFires(swept.db);
    assert ByAdmin(w, clocked) && ByTrigger(clocked, selected) && ByAdmin(selected, later) && ByTrigger(later, swept)
        && ByTrigger(swept, committed);
    var rest := [w, clocked, selected, later, swept, committed];
    RunsJoin(run, rest);
    run := run + rest[1..];
  }

  lemma OldPassFires(db: Tables)
    requires db.bindings == map[0 := BINDING] && db.triggers == map[0 := ONCE_A_DAY.(nextFire := HOUR, fireCount := 1)]
    requires db.usage == map[] && db.messages == map[0 := InboundMessage(0, TriggerKey(0, 0), 0, false)]
    ensures Outcome(db, 0, HOUR, HOUR, 1) == Fires(3600, 2 * HOUR, 0, 0, Usage(1, 1, 0, 0))
  {
    assert Decide(HOUR, HOUR, 3600, 10, CatchUp, 3) == Some(Fire(HOUR, 2 * HOUR, 0));
    assert !KeyTaken(db.messages, 0, TriggerKey(0, 3600), Inbound);
  }
}
