/**
 The schedule law: over any run, a trigger's next due time has moved by exactly one interval for
 every fire and every skip that its counters recorded.
 */
module ChannelSchedule {
  import opened TriggerSchedule
  import opened ChannelTables
  import opened ChannelWorld

  predicate SameConfiguration(a: Trigger, b: Trigger) {
    b == a.(active := b.active, nextFire := b.nextFire, fireCount := b.fireCount, skippedCount := b.skippedCount,
            misfireCount := b.misfireCount)
  }

  /** How often the counters moved between two versions of a row. */
  function Counted(a: Trigger, b: Trigger): int {
    (b.fireCount - a.fireCount) + (b.skippedCount - a.skippedCount)
  }

  ghost predicate MovedBySchedule(a: Trigger, b: Trigger) {
    && SameConfiguration(a, b)
    && match a.interval
       case Some(interval) => b.nextFire == Occurrence(a.nextFire, interval, Counted(a, b))
       case None => b.nextFire == a.nextFire && Counted(a, b) == 0
  }

  lemma MovesCompose(a: Trigger, b: Trigger, c: Trigger)
    requires MovedBySchedule(a, b) && MovedBySchedule(b, c)
    ensures MovedBySchedule(a, c)
  {
    if a.interval.Some? {
      var period, i, j := Period(a.interval.value), Counted(a, b), Counted(b, c);
      assert period * i + period * j == period * (i + j);
    }
  }

  lemma UnmovedIsOnSchedule(a: Trigger, b: Trigger)
    requires SameConfiguration(a, b) && b.nextFire == a.nextFire && Counted(a, b) == 0
    ensures MovedBySchedule(a, b)
  {
  }

  /** The due time an outcome moves to agrees with what it adds to the counters. */
  ghost predicate OnSchedule(t: Trigger, outcome: PassOutcome) {
    match outcome
    case Advances(next, skipped) => t.interval.Some? && next == Occurrence(t.nextFire, t.interval.value, skipped)
    case Fires(_, next, skipped, _, _) =>
      t.interval.Some? && next == Occurrence(t.nextFire, t.interval.value, skipped + 1)
    case _ => true
  }

  lemma OutcomeIsOnSchedule(db: Tables, id: Id, txNow: int, wallNow: int, hour: int)
    requires id in db.triggers && db.triggers[id].binding in db.bindings
    ensures OnSchedule(db.triggers[id], Outcome(db, id, txNow, wallNow, hour))
  {
    var t := db.triggers[id];
    if t.interval.Some? {
      DecisionStaysOnSchedule(t.nextFire, wallNow, t.interval.value, t.maxDelay, t.policy, t.maxCatchUp);
    }
  }

  lemma OutcomeMoves(db: Tables, id: Id, message: Id, outcome: PassOutcome)
    requires id in db.triggers && OnSchedule(db.triggers[id], outcome)
    ensures var after := Apply(db, id, message, outcome).triggers;
            id in after && MovedBySchedule(db.triggers[id], after[id])
  {
    var t, after := db.triggers[id], Apply(db, id, message, outcome).triggers[id];
    match outcome {
      case Advances(_, skipped) => assert Counted(t, after) == skipped;
      case Fires(_, _, skipped, _, _) => assert Counted(t, after) == skipped + 1;
      case _ => UnmovedIsOnSchedule(t, after);
    }
  }

  /** A pass moves its trigger along the schedule whichever way it comes out. */
  lemma PassMoves(db: Tables, id: Id, txNow: int, wallNow: int, hour: int, message: Id)
    requires id in db.triggers && db.triggers[id].binding in db.bindings
    ensures var after := Apply(db, id, message, Outcome(db, id, txNow, wallNow, hour)).triggers;
            id in after && MovedBySchedule(db.triggers[id], after[id])
  {
    OutcomeIsOnSchedule(db, id, txNow, wallNow, hour);
    OutcomeMoves(db, id, message, Outcome(db, id, txNow, wallNow, hour));
  }

  lemma CommitMoves(w: World, worker: nat, wallNow: int, hour: int, message: Id, id: Id)
    requires id in w.db.triggers && Ready(w, worker)
    ensures var after := CommitPass(w, worker, wallNow, hour, message).db.triggers;
            id in after && MovedBySchedule(w.db.triggers[id], after[id])
  {
    if w.passes[worker].trigger == id {
      PassMoves(w.db, id, w.passes[worker].txNow, wallNow, hour, message);
    } else {
      UnmovedIsOnSchedule(w.db.triggers[id], w.db.triggers[id]);
    }
  }

  lemma TriggerNextMoves(w: World, step: TriggerStep, id: Id)
    requires id in w.db.triggers
    ensures id in TriggerNext(w, step).db.triggers
    ensures MovedBySchedule(w.db.triggers[id], TriggerNext(w, step).db.triggers[id])
  {
    if step.PassCommits? && Ready(w, step.worker) {
      CommitMoves(w, step.worker, step.wallNow, step.hour, step.message, id);
    } else {
      UnmovedIsOnSchedule(w.db.triggers[id], TriggerNext(w, step).db.triggers[id]);
    }
  }

  lemma InboxKeepsTriggers(w: World, step: InboxStep)
    ensures InboxNext(w, step).db.triggers == w.db.triggers
  {
  }

  lemma OutboxKeepsTriggers(w: World, step: OutboxStep)
    ensures OutboxNext(w, step).db.triggers == w.db.triggers
  {
  }

  lemma ScanKeepsTriggers(w: World, step: ScanStep)
    ensures ScanNext(w, step).db.triggers == w.db.triggers
  {
  }

  /** Administrators pause and resume triggers and change nothing else about them. */
  lemma AdminOnlyActivates(w: World, step: AdminStep, id: Id)
    requires id in w.db.triggers
    ensures var after := AdminNext(w, step).db.triggers;
            id in after && after[id] == w.db.triggers[id].(active := after[id].active)
  {
  }

  lemma FollowsMoves(w: World, w': World, id: Id)
    requires Follows(w, w') && id in w.db.triggers
    ensures id in w'.db.triggers && MovedBySchedule(w.db.triggers[id], w'.db.triggers[id])
  {
    if ByTrigger(w, w') {
      var step: TriggerStep :| w' == TriggerNext(w, step);
      TriggerNextMoves(w, step, id);
    } else if ByInbox(w, w') {
      var step: InboxStep :| w' == InboxNext(w, step);
      InboxKeepsTriggers(w, step);
    } else if ByOutbox(w, w') {
      var step: OutboxStep :| w' == OutboxNext(w, step);
      OutboxKeepsTriggers(w, step);
    } else if ByScan(w, w') {
      var step: ScanStep :| w' == ScanNext(w, step);
      ScanKeepsTriggers(w, step);
    } else {
      var step: AdminStep :| w' == AdminNext(w, step);
      AdminOnlyActivates(w, step, id);
      UnmovedIsOnSchedule(w.db.triggers[id], w'.db.triggers[id]);
    }
  }

  /** Whatever fires, skips, denials, pauses, rollbacks and duplicates a run consists of. */
  lemma {:induction false} ScheduleLaw(run: seq<World>, id: Id)
    requires IsRun(run) && id in run[0].db.triggers
    ensures var last := run[|run| - 1];
            id in last.db.triggers && MovedBySchedule(run[0].db.triggers[id], last.db.triggers[id])
    decreases |run|
  {
    if |run| > 1 {
      var before, last := run[|run| - 2], run[|run| - 1];
      RunEndsWithAStep(run);
      ScheduleLaw(run[..|run| - 1], id);
      FollowsMoves(before, last, id);
      MovesCompose(run[0].db.triggers[id], before.db.triggers[id], last.db.triggers[id]);
    }
  }
}
