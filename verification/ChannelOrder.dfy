/**
 The order of a trigger's fires. As long as no late CATCH_UP pass has a backlog shorter than its
 maximum, the occurrences a trigger fires increase strictly, and no pass comes upon an occurrence that
 already has its message. A pass with such a short backlog is exactly one that may fire backwards.
 */
module ChannelOrder {
  import opened Wrappers
  import opened TriggerSchedule
  import opened ChannelTables
  import opened ChannelWorld
  import opened ChannelSchedule
  import opened ChannelFires

  /** A late CATCH_UP trigger with fewer occurrences to catch up on than it may. */
  predicate ShortBacklog(t: Trigger, wallNow: int) {
    && t.policy == CatchUp && t.interval.Some? && t.interval.value >= 60
    && Late(t.nextFire, wallNow, t.maxDelay)
    && Occurrences(t.nextFire, wallNow, t.interval.value) < t.maxCatchUp
  }

  /** All fires of a trigger so far lie before `bound`. */
  ghost predicate FiredBefore(journal: seq<Effect>, id: Id, bound: int) {
    forall i | 0 <= i < |journal| && IsFire(journal[i], id, None) :: journal[i].second < bound
  }

  ghost predicate Increasing(journal: seq<Effect>, id: Id) {
    forall i, j | 0 <= i < j < |journal| && IsFire(journal[i], id, None) && IsFire(journal[j], id, None) ::
      journal[i].second < journal[j].second
  }

  ghost predicate InOrder(db: Tables, id: Id) {
    && id in db.triggers
    && FiredBefore(db.journal, id, db.triggers[id].nextFire / SECOND)
    && Increasing(db.journal, id)
  }

  /** What keeps the order: an outcome fires no earlier than the due time and moves past what it fires. */
  ghost predicate Forward(t: Trigger, outcome: PassOutcome) {
    match outcome
    case Advances(next, _) => t.nextFire / SECOND <= next / SECOND
    case Fires(second, next, _, _, _) => t.nextFire / SECOND <= second < next / SECOND
    case _ => true
  }

  lemma LaterSecond(due: int, next: int, interval: int, k: int)
    requires interval >= 60 && k >= 1 && next == Occurrence(due, interval, k)
    ensures due / SECOND < next / SECOND
  {
    MulMono(1, k, Period(interval));
    assert next >= due + SECOND;
  }

  /** Where a late CATCH_UP decision lies: at or after the due time with a full backlog, before it with
      a short one. */
  lemma CatchUpDirection(t: Trigger, wallNow: int)
    requires t.policy == CatchUp && t.interval.Some? && Late(t.nextFire, wallNow, t.maxDelay)
    requires t.interval.value >= 60 && t.maxDelay >= 0 && 1 <= t.maxCatchUp <= 10
    ensures var decision := Decide(t.nextFire, wallNow, t.interval.value, t.maxDelay, CatchUp, t.maxCatchUp);
      && decision.Some? && decision.value.Fire?
      && (ShortBacklog(t, wallNow) <==> decision.value.effectiveDue / SECOND < t.nextFire / SECOND)
      && decision.value.effectiveDue / SECOND < decision.value.next / SECOND
  {
    var due, interval := t.nextFire, t.interval.value;
    CatchUpIsExact(due, wallNow, interval, t.maxDelay, t.maxCatchUp, 0);
    var decision := Decide(due, wallNow, interval, t.maxDelay, CatchUp, t.maxCatchUp).value;
    OccurrenceShift(due, interval, decision.skipped, 1);
    LaterSecond(decision.effectiveDue, decision.next, interval, 1);
    if decision.skipped < 0 {
      OccurrenceShift(due, interval, decision.skipped, -decision.skipped);
      LaterSecond(decision.effectiveDue, due, interval, -decision.skipped);
    }
  }

  lemma DecisionMovesForward(t: Trigger, wallNow: int)
    requires t.interval.Some? && !ShortBacklog(t, wallNow)
    ensures match Decide(t.nextFire, wallNow, t.interval.value, t.maxDelay, t.policy, t.maxCatchUp)
            case None => true
            case Some(Skip(next, _)) => t.nextFire / SECOND < next / SECOND
            case Some(Fire(effectiveDue, next, _)) => t.nextFire / SECOND <= effectiveDue / SECOND < next / SECOND
  {
    var due, interval := t.nextFire, t.interval.value;
    var decision := Decide(due, wallNow, interval, t.maxDelay, t.policy, t.maxCatchUp);
    if decision.Some? {
      if t.policy == CatchUp && Late(due, wallNow, t.maxDelay) {
        CatchUpDirection(t, wallNow);
      } else {
        DecisionStaysOnSchedule(due, wallNow, interval, t.maxDelay, t.policy, t.maxCatchUp);
        LaterSecond(due, decision.value.next, interval, decision.value.skipped + if decision.value.Fire? then 1 else 0);
      }
    }
  }

  lemma OutcomeIsForward(db: Tables, id: Id, txNow: int, wallNow: int, hour: int)
    requires id in db.triggers && db.triggers[id].binding in db.bindings && !ShortBacklog(db.triggers[id], wallNow)
    ensures Forward(db.triggers[id], Outcome(db, id, txNow, wallNow, hour))
  {
    if db.triggers[id].interval.Some? {
      DecisionMovesForward(db.triggers[id], wallNow);
    }
  }

  lemma AppendInOrder(journal: seq<Effect>, e: Effect, id: Id, bound: int, bound': int)
    requires FiredBefore(journal, id, bound) && Increasing(journal, id) && bound <= bound'
    requires IsFire(e, id, None) ==> bound <= e.second < bound'
    ensures FiredBefore(journal + [e], id, bound') && Increasing(journal + [e], id)
  {
  }

  lemma OutcomeKeepsOrder(db: Tables, trigger: Id, message: Id, outcome: PassOutcome, id: Id)
    requires InOrder(db, id) && trigger in db.triggers
    requires trigger == id ==> Forward(db.triggers[id], outcome)
    ensures InOrder(Apply(db, trigger, message, outcome), id)
  {
    var bound, bound' := db.triggers[id].nextFire / SECOND, Apply(db, trigger, message, outcome).triggers[id].nextFire / SECOND;
    if outcome.Fires? {
      AppendInOrder(db.journal, Fired(trigger, outcome.second, outcome.window, FiringGrant(db.triggers[trigger])), id, bound, bound');
    }
  }

  // ---- Runs without a short backlog ----

  /** If this step commits a pass over the trigger, the pass finds no short backlog. */
  ghost predicate GuardedStep(w: World, step: TriggerStep, id: Id) {
    step.PassCommits? && Ready(w, step.worker) && w.passes[step.worker].trigger == id ==>
      !ShortBacklog(w.db.triggers[id], step.wallNow)
  }

  ghost predicate ByGuarded(w: World, w': World, id: Id) {
    exists step: TriggerStep :: w' == TriggerNext(w, step) && GuardedStep(w, step, id)
  }

  /** One step of anybody, with that proviso. */
  ghost predicate GuardedFollows(w: World, w': World, id: Id) {
    ByGuarded(w, w', id) || ByInbox(w, w') || ByOutbox(w, w') || ByScan(w, w') || ByAdmin(w, w')
  }

  ghost predicate IsGuardedRun(run: seq<World>, id: Id) {
    |run| > 0 && forall i | 0 < i < |run| :: GuardedFollows(run[i - 1], run[i], id)
  }

  lemma GuardedStepIsStep(w: World, w': World, id: Id)
    requires GuardedFollows(w, w', id)
    ensures Follows(w, w')
  {
    if ByGuarded(w, w', id) {
      var step: TriggerStep :| w' == TriggerNext(w, step) && GuardedStep(w, step, id);
      assert ByTrigger(w, w');
    }
  }

  lemma GuardedRunIsRun(run: seq<World>, id: Id)
    requires IsGuardedRun(run, id)
    ensures IsRun(run)
  {
    forall i | 0 < i < |run| ensures Follows(run[i - 1], run[i]) { GuardedStepIsStep(run[i - 1], run[i], id); }
  }

  lemma GuardedRunEnds(run: seq<World>, id: Id)
    requires IsGuardedRun(run, id) && |run| > 1
    ensures IsGuardedRun(run[..|run| - 1], id) && GuardedFollows(run[|run| - 2], run[|run| - 1], id)
  {
    var init := run[..|run| - 1];
    forall i | 0 < i < |init| ensures GuardedFollows(init[i - 1], init[i], id) {
      assert GuardedFollows(run[i - 1], run[i], id);
    }
  }

  lemma OtherPolicyIsGuarded(w: World, w': World, id: Id)
    requires Follows(w, w') && id in w.db.triggers && w.db.triggers[id].policy != CatchUp
    ensures GuardedFollows(w, w', id)
  {
    if ByTrigger(w, w') {
      var step: TriggerStep :| w' == TriggerNext(w, step);
      assert GuardedStep(w, step, id);
      assert ByGuarded(w, w', id);
    }
  }

  lemma PolicyKept(run: seq<World>, i: nat, id: Id)
    requires IsRun(run) && i < |run| && id in run[0].db.triggers
    ensures id in run[i].db.triggers && run[i].db.triggers[id].policy == run[0].db.triggers[id].policy
  {
    var prefix := run[..i + 1];
    assert IsRun(prefix) by {
      forall j | 0 < j < |prefix| ensures Follows(prefix[j - 1], prefix[j]) { assert Follows(run[j - 1], run[j]); }
    }
    ScheduleLaw(prefix, id);
  }

  /** Under SKIP and FIRE_ONCE every run is one of these. */
  lemma OtherPoliciesAreGuarded(run: seq<World>, id: Id)
    requires IsRun(run) && id in run[0].db.triggers && run[0].db.triggers[id].policy != CatchUp
    ensures IsGuardedRun(run, id)
  {
    forall i | 0 < i < |run| ensures GuardedFollows(run[i - 1], run[i], id) {
      PolicyKept(run, i - 1, id);
      OtherPolicyIsGuarded(run[i - 1], run[i], id);
    }
  }

  lemma TriggerKeepsOrder(w: World, step: TriggerStep, id: Id)
    requires InOrder(w.db, id) && GuardedStep(w, step, id)
    ensures InOrder(TriggerNext(w, step).db, id)
  {
    if step.PassCommits? && Ready(w, step.worker) && step.message !in w.db.messages {
      var pass := w.passes[step.worker];
      if pass.trigger == id { OutcomeIsForward(w.db, id, pass.txNow, step.wallNow, step.hour); }
      OutcomeKeepsOrder(w.db, pass.trigger, step.message, Outcome(w.db, pass.trigger, pass.txNow, step.wallNow, step.hour), id);
    }
  }

  lemma NoFireKeepsOrder(db: Tables, db': Tables, id: Id)
    requires InOrder(db, id) && NoFire(db, db') && id in db'.triggers
    requires db'.triggers[id].nextFire == db.triggers[id].nextFire
    ensures InOrder(db', id)
  {
    var bound := db.triggers[id].nextFire / SECOND;
    if db'.journal != db.journal {
      var e: Effect :| db'.journal == db.journal + [e] && !e.Fired?;
      AppendInOrder(db.journal, e, id, bound, bound);
    }
  }

  lemma FollowsKeepsOrder(w: World, w': World, id: Id)
    requires GuardedFollows(w, w', id) && InOrder(w.db, id)
    ensures InOrder(w'.db, id)
  {
    if ByGuarded(w, w', id) {
      var step: TriggerStep :| w' == TriggerNext(w, step) && GuardedStep(w, step, id);
      TriggerKeepsOrder(w, step, id);
    } else if ByInbox(w, w') {
      var step: InboxStep :| w' == InboxNext(w, step);
      InboxDoesNotFire(w, step);
      InboxKeepsTriggers(w, step);
      NoFireKeepsOrder(w.db, w'.db, id);
    } else if ByOutbox(w, w') {
      var step: OutboxStep :| w' == OutboxNext(w, step);
      OutboxDoesNotFire(w, step);
      OutboxKeepsTriggers(w, step);
      NoFireKeepsOrder(w.db, w'.db, id);
    } else if ByScan(w, w') {
      var step: ScanStep :| w' == ScanNext(w, step);
      ScanDoesNotFire(w, step);
      ScanKeepsTriggers(w, step);
      NoFireKeepsOrder(w.db, w'.db, id);
    } else {
      var step: AdminStep :| w' == AdminNext(w, step);
      AdminDoesNotFire(w, step);
      AdminOnlyActivates(w, step, id);
      NoFireKeepsOrder(w.db, w'.db, id);
    }
  }

  lemma {:induction false} OrderKept(run: seq<World>, id: Id)
    requires IsGuardedRun(run, id) && run[0].db.journal == [] && id in run[0].db.triggers
    ensures InOrder(run[|run| - 1].db, id)
    decreases |run|
  {
    if |run| > 1 {
      GuardedRunEnds(run, id);
      OrderKept(run[..|run| - 1], id);
      FollowsKeepsOrder(run[|run| - 2], run[|run| - 1], id);
    }
  }

  /** Over any run of all replicas, under every policy, a trigger whose passes find no short backlog
      fires later and later occurrences. */
  lemma OrderLaw(run: seq<World>, id: Id, i: nat, j: nat)
    requires IsGuardedRun(run, id) && run[0].db.journal == [] && id in run[0].db.triggers
    requires var journal := run[|run| - 1].db.journal;
      i < j < |journal| && IsFire(journal[i], id, None) && IsFire(journal[j], id, None)
    ensures run[|run| - 1].db.journal[i].second < run[|run| - 1].db.journal[j].second
  {
    OrderKept(run, id);
  }

  // ---- Duplicates ----

  lemma {:induction false} NotFiredYet(journal: seq<Effect>, id: Id, bound: int, second: int)
    requires FiredBefore(journal, id, bound) && bound <= second
    ensures FireCount(journal, id, Some(second)) == 0
    decreases |journal|
  {
    if journal != [] { NotFiredYet(journal[..|journal| - 1], id, bound, second); }
  }

  /** A pass that gets as far as inserting its message: the schedule decides to fire, and content,
      destination, hour, budget and grant admit it. */
  ghost predicate Admitted(db: Tables, id: Id, txNow: int, wallNow: int, hour: int)
    requires id in db.triggers && db.triggers[id].binding in db.bindings
  {
    var t := db.triggers[id];
    && t.interval.Some?
    && (var decision := Decide(t.nextFire, wallNow, t.interval.value, t.maxDelay, t.policy, t.maxCatchUp);
        decision.Some? && decision.value.Fire?)
    && t.content.Some? && |t.content.value.1| <= MAX_TEXT_BYTES
    && t.content.value.0 in db.bindings[t.binding].destinations && !InQuietHours(db.bindings[t.binding], hour)
    && t.budget.Some? && t.budget.value.Valid()
    && Reserve(Lookup(db.usage, (id, WindowStart(txNow, t.budget.value.windowSeconds))), t.budget.value).Some?
    && (t.kind.ByConnector? ==> CanUse(db.grants, t.grant, TriggersFire, txNow))
  }

  /** The occurrence an admitted pass is about, as its event key has it. */
  ghost function DecidedSecond(db: Tables, id: Id, txNow: int, wallNow: int, hour: int): int
    requires id in db.triggers && db.triggers[id].binding in db.bindings && Admitted(db, id, txNow, wallNow, hour)
  {
    var t := db.triggers[id];
    Decide(t.nextFire, wallNow, t.interval.value, t.maxDelay, t.policy, t.maxCatchUp).value.effectiveDue / SECOND
  }

  /** An admitted pass fires its occurrence or finds it a duplicate, by whether it has a message. */
  lemma AdmittedOutcome(db: Tables, id: Id, txNow: int, wallNow: int, hour: int)
    requires id in db.triggers && db.triggers[id].binding in db.bindings
    ensures
      var outcome, admitted := Outcome(db, id, txNow, wallNow, hour), Admitted(db, id, txNow, wallNow, hour);
      && (outcome.Fires? || outcome.IsDuplicate? <==> admitted)
      && (admitted ==>
            var second := DecidedSecond(db, id, txNow, wallNow, hour);
            && (outcome.IsDuplicate? <==> Taken(db, db.triggers[id].binding, id, second))
            && (outcome.Fires? ==> outcome.second == second))
  {
  }

  /** A pass fires an occurrence before its due time if and only if it is admitted, finds a short
      backlog, and that occurrence has no message. */
  lemma FiresBackwards(db: Tables, id: Id, txNow: int, wallNow: int, hour: int)
    requires id in db.triggers && db.triggers[id].binding in db.bindings
    ensures
      var t, outcome := db.triggers[id], Outcome(db, id, txNow, wallNow, hour);
      outcome.Fires? && outcome.second < t.nextFire / SECOND <==>
        && Admitted(db, id, txNow, wallNow, hour) && ShortBacklog(t, wallNow)
        && !Taken(db, t.binding, id, DecidedSecond(db, id, txNow, wallNow, hour))
  {
    AdmittedOutcome(db, id, txNow, wallNow, hour);
    if Admitted(db, id, txNow, wallNow, hour) {
      DecidedDirection(db, id, txNow, wallNow, hour);
    }
  }

  lemma DecidedDirection(db: Tables, id: Id, txNow: int, wallNow: int, hour: int)
    requires id in db.triggers && db.triggers[id].binding in db.bindings && Admitted(db, id, txNow, wallNow, hour)
    ensures DecidedSecond(db, id, txNow, wallNow, hour) < db.triggers[id].nextFire / SECOND <==>
              ShortBacklog(db.triggers[id], wallNow)
  {
    var t := db.triggers[id];
    if ShortBacklog(t, wallNow) {
      CatchUpDirection(t, wallNow);
    } else {
      DecisionMovesForward(t, wallNow);
    }
  }

  /** So the duplicate branch is reached only if some pass of the run, or this one, finds a short
      backlog: after a run without any, a pass without one is never a duplicate. */
  lemma DuplicatesNeedShortBacklog(run: seq<World>, id: Id, txNow: int, wallNow: int, hour: int)
    requires IsGuardedRun(run, id) && Starting(run[0]) && run[0].db.messages == map[] && id in run[0].db.triggers
    requires var db := run[|run| - 1].db;
      && id in db.triggers && db.triggers[id].binding in db.bindings
      && !ShortBacklog(db.triggers[id], wallNow)
    ensures Outcome(run[|run| - 1].db, id, txNow, wallNow, hour) != IsDuplicate
  {
    var db := run[|run| - 1].db;
    AdmittedOutcome(db, id, txNow, wallNow, hour);
    if Admitted(db, id, txNow, wallNow, hour) {
      var second := DecidedSecond(db, id, txNow, wallNow, hour);
      DecidedDirection(db, id, txNow, wallNow, hour);
      OrderKept(run, id);
      GuardedRunIsRun(run, id);
      FireKept(run, id, second);
      NotFiredYet(db.journal, id, db.triggers[id].nextFire / SECOND, second);
    }
  }
}
