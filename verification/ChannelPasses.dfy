/**
 What a trigger pass comes to and what that does, in the columns of the tables: when it pauses the
 trigger, when it moves on without firing, when it loses its grant, and when it fires.
 */
module ChannelPasses {
  import opened Wrappers
  import opened TriggerSchedule
  import opened ChannelTables
  import opened ChannelWorld

  // ---- The conditions, one by one ----

  predicate IsLate(t: Trigger, wallNow: int) { wallNow > t.nextFire + t.maxDelay * 1_000_000_000 }

  predicate BadSchedule(t: Trigger, wallNow: int) {
    || t.interval.None? || t.interval.value < 60 || t.maxDelay < 0 || t.maxCatchUp < 1 || t.maxCatchUp > 10
    || (IsLate(t, wallNow) && t.policy == UnknownPolicy)
  }

  predicate SkipsAll(t: Trigger, wallNow: int) { IsLate(t, wallNow) && t.policy == SkipMisfires }

  predicate BadContent(t: Trigger) { t.content.None? || |t.content.value.1| > 65536 }

  /** The hour lies in the quiet span, which runs from its start up to its end, over midnight if need be. */
  predicate QuietAt(b: Binding, hour: int) {
    (hour - b.quietStart) % 24 < (b.quietEnd - b.quietStart) % 24
  }

  lemma QuietHoursExactly(b: Binding, hour: int)
    requires 0 <= b.quietStart < 24 && 0 <= b.quietEnd < 24 && 0 <= hour < 24
    ensures InQuietHours(b, hour) <==> QuietAt(b, hour)
  {
  }

  predicate Denied(t: Trigger, b: Binding, hour: int)
    requires t.content.Some?
  {
    t.content.value.0 !in b.destinations || InQuietHours(b, hour)
  }

  predicate BadBudget(t: Trigger) {
    || t.budget.None?
    || var b := t.budget.value;
       || b.windowSeconds < 60 || b.windowSeconds > 86400 || b.maximumFires <= 0 || b.maximumTurns <= 0
       || b.tokensPerFire < 0 || b.costPerFire < 0
       || b.tokensPerFire > b.maximumTokens || b.costPerFire > b.maximumCost
  }

  /** One more fire would pass a maximum of the window that the transaction's time lies in. */
  predicate Spent(db: Tables, id: Id, b: Budget, txNow: int)
    requires b.windowSeconds > 0
  {
    var window := (id, WindowStart(txNow, b.windowSeconds));
    && window in db.usage
    && var u := db.usage[window];
       || u.fires + 1 > b.maximumFires || u.turns + 1 > b.maximumTurns
       || u.tokens + b.tokensPerFire > b.maximumTokens || u.cost + b.costPerFire > b.maximumCost
  }

  /** The grant is known, not revoked, not expired, not used up, and allows the operation. */
  predicate Live(grants: map<Id, Grant>, grant: Option<Id>, operation: Operation, now: int) {
    && grant.Some? && grant.value in grants
    && var g := grants[grant.value];
       !g.revoked && now < g.expires && g.useCount + 1 <= g.maximumUses && operation in g.operations
  }

  lemma LiveExactly(grants: map<Id, Grant>, grant: Option<Id>, operation: Operation, now: int)
    ensures CanUse(grants, grant, operation, now) <==> Live(grants, grant, operation, now)
  {
  }

  /** Everything short of the message admits the pass. */
  predicate Admissible(db: Tables, id: Id, txNow: int, wallNow: int, hour: int)
    requires id in db.triggers && db.triggers[id].binding in db.bindings
  {
    var t := db.triggers[id];
    && !BadSchedule(t, wallNow) && !SkipsAll(t, wallNow)
    && !BadContent(t) && !Denied(t, db.bindings[t.binding], hour)
    && !BadBudget(t) && !Spent(db, id, t.budget.value, txNow)
    && (t.kind.ByConnector? ==> Live(db.grants, t.grant, TriggersFire, txNow))
  }

  // ---- What a pass comes to ----

  lemma ReserveExactly(db: Tables, id: Id, b: Budget, txNow: int)
    requires b.windowSeconds > 0
    ensures Reserve(Lookup(db.usage, (id, WindowStart(txNow, b.windowSeconds))), b).None? <==> Spent(db, id, b, txNow)
  {
  }

  lemma BudgetExactly(t: Trigger)
    ensures BadBudget(t) <==> t.budget.None? || !t.budget.value.Valid()
  {
  }

  lemma ScheduleExactly(t: Trigger, wallNow: int)
    ensures
      if t.interval.None? then BadSchedule(t, wallNow)
      else
        var decision := Decide(t.nextFire, wallNow, t.interval.value, t.maxDelay, t.policy, t.maxCatchUp);
        && (decision.None? <==> BadSchedule(t, wallNow))
        && (decision.Some? ==> (decision.value.Skip? <==> SkipsAll(t, wallNow)))
  {
    if t.interval.Some? {
      UndecidedExactly(t.nextFire, wallNow, t.interval.value, t.maxDelay, t.policy, t.maxCatchUp);
    }
  }

  /** Bad schedules, bad content, bad and spent budgets pause the trigger; misfires under SKIP, denied
      destinations and quiet hours move it on; a grant that is gone loses the pass; nothing else keeps
      it from its message. */
  lemma PassComesTo(db: Tables, id: Id, txNow: int, wallNow: int, hour: int)
    requires id in db.triggers && db.triggers[id].binding in db.bindings
    ensures
      var t, b := db.triggers[id], db.bindings[db.triggers[id].binding];
      var outcome := Outcome(db, id, txNow, wallNow, hour);
      && (outcome.Pauses? <==>
            || BadSchedule(t, wallNow)
            || (!SkipsAll(t, wallNow)
                && (BadContent(t) || (!Denied(t, b, hour) && (BadBudget(t) || Spent(db, id, t.budget.value, txNow))))))
      && (outcome.Advances? <==>
            !BadSchedule(t, wallNow) && (SkipsAll(t, wallNow) || (!BadContent(t) && Denied(t, b, hour))))
      && (outcome.LosesGrant? <==>
            && !BadSchedule(t, wallNow) && !SkipsAll(t, wallNow) && !BadContent(t) && !Denied(t, b, hour)
            && !BadBudget(t) && !Spent(db, id, t.budget.value, txNow)
            && t.kind.ByConnector? && !Live(db.grants, t.grant, TriggersFire, txNow))
      && (outcome.Fires? || outcome.IsDuplicate? <==> Admissible(db, id, txNow, wallNow, hour))
  {
    var t := db.triggers[id];
    ScheduleExactly(t, wallNow);
    BudgetExactly(t);
    if !BadBudget(t) { ReserveExactly(db, id, t.budget.value, txNow); }
    LiveExactly(db.grants, t.grant, TriggersFire, txNow);
  }

  /** A trigger that is on time, admissible and not yet fired fires the very second it was due, and is
      next due one interval later. */
  lemma OnTimePassFires(db: Tables, id: Id, txNow: int, wallNow: int, hour: int)
    requires id in db.triggers && db.triggers[id].binding in db.bindings
    requires !IsLate(db.triggers[id], wallNow) && Admissible(db, id, txNow, wallNow, hour)
    requires forall m | m in db.messages ::
               !(db.messages[m].binding == db.triggers[id].binding && db.messages[m].direction == Inbound
                 && db.messages[m].key == TriggerKey(id, db.triggers[id].nextFire / 1_000_000_000))
    ensures
      var t, outcome := db.triggers[id], Outcome(db, id, txNow, wallNow, hour);
      && outcome.Fires? && outcome.second == t.nextFire / 1_000_000_000
      && outcome.next == t.nextFire + t.interval.value * 1_000_000_000 && outcome.skipped == 0
  {
    var t := db.triggers[id];
    PassComesTo(db, id, txNow, wallNow, hour);
    OnTimeIsExact(t.nextFire, wallNow, t.interval.value, t.maxDelay, t.policy, t.maxCatchUp);
  }

  // ---- What it does ----

  /** The other triggers, and the configuration of this one, stay as they are. */
  ghost predicate OnlyMoves(db: Tables, db': Tables, id: Id) {
    && db'.triggers.Keys == db.triggers.Keys
    && (forall k | k in db.triggers && k != id :: db'.triggers[k] == db.triggers[k])
    && id in db.triggers && db'.triggers[id] == db.triggers[id].(
         active := db'.triggers[id].active, nextFire := db'.triggers[id].nextFire, fireCount := db'.triggers[id].fireCount,
         skippedCount := db'.triggers[id].skippedCount, misfireCount := db'.triggers[id].misfireCount)
  }

  lemma PauseDoes(db: Tables, id: Id, message: Id)
    requires id in db.triggers
    ensures var db' := Apply(db, id, message, Pauses);
      && OnlyMoves(db, db', id) && db' == db.(triggers := db'.triggers)
      && !db'.triggers[id].active && db'.triggers[id] == db.triggers[id].(active := false)
  {
  }

  lemma AdvanceDoes(db: Tables, id: Id, message: Id, next: int, skipped: int)
    requires id in db.triggers
    ensures
      var t, db' := db.triggers[id], Apply(db, id, message, Advances(next, skipped));
      var t' := db'.triggers[id];
      && OnlyMoves(db, db', id) && db' == db.(triggers := db'.triggers)
      && t'.nextFire == next && t'.skippedCount == t.skippedCount + skipped && t'.misfireCount == t.misfireCount + 1
      && t'.fireCount == t.fireCount && t'.active == t.active
  {
  }

  /** A fire moves the counters, charges window and grant, and leaves one received message, together. */
  lemma FireDoes(db: Tables, id: Id, message: Id, outcome: PassOutcome)
    requires id in db.triggers && outcome.Fires? && message !in db.messages
    ensures
      var t, db' := db.triggers[id], Apply(db, id, message, outcome);
      var t' := db'.triggers[id];
      && OnlyMoves(db, db', id) && db'.bindings == db.bindings && db'.now == db.now
      && t'.fireCount == t.fireCount + 1 && t'.nextFire == outcome.next && t'.active == t.active
      && t'.skippedCount == t.skippedCount + outcome.skipped
      && t'.misfireCount == t.misfireCount + (if outcome.skipped > 0 then 1 else 0)
      && db'.usage == db.usage[(id, outcome.window) := outcome.usage]
      && db'.messages.Keys == db.messages.Keys + {message}
      && (forall m | m in db.messages :: db'.messages[m] == db.messages[m])
      && var row := db'.messages[message];
         && row.binding == t.binding && row.key == TriggerKey(id, outcome.second) && row.direction == Inbound
         && row.state == Received && row.scan == NotRequired && row.updated == db.now && row.attempts == 0
  {
  }

  /** A lost grant rolls the pass back and then pauses the trigger, in a statement of its own. */
  lemma LostGrantPauses(w: World, worker: nat, wallNow: int, hour: int, message: Id)
    requires Ready(w, worker) && message !in w.db.messages
    requires var pass := w.passes[worker]; Outcome(w.db, pass.trigger, pass.txNow, wallNow, hour).LosesGrant?
    requires forall other | other in w.passes && other != worker :: w.passes[other].trigger != w.passes[worker].trigger
    ensures
      var id := w.passes[worker].trigger;
      var rolledBack := TriggerNext(w, PassCommits(worker, wallNow, hour, message));
      var paused := TriggerNext(rolledBack, PassPauses(worker));
      && rolledBack.db == w.db
      && paused.db == w.db.(triggers := w.db.triggers[id := w.db.triggers[id].(active := false)])
      && worker !in paused.passes
  {
    var rolledBack := TriggerNext(w, PassCommits(worker, wallNow, hour, message));
    assert !RowLocked(rolledBack, w.passes[worker].trigger);
  }

  /** A worker takes on exactly the triggers that are active and due, on a binding in force, with a
      live grant if they need one, and not in anybody's hands. */
  lemma SelectsExactly(w: World, worker: nat, id: Id)
    requires worker !in w.passes
    ensures
      var w' := TriggerNext(w, PassSelects(worker, id));
      && (worker in w'.passes <==>
            && id in w.db.triggers && w.db.triggers[id].binding in w.db.bindings
            && w.db.triggers[id].active && w.db.triggers[id].nextFire <= w.db.now
            && !w.db.bindings[w.db.triggers[id].binding].revoked
            && (w.db.triggers[id].kind.ByConnector? ==> Live(w.db.grants, w.db.triggers[id].grant, TriggersFire, w.db.now))
            && (forall other | other in w.passes && w.passes[other].Firing? :: w.passes[other].trigger != id))
      && (worker in w'.passes ==> w' == w.(passes := w.passes[worker := Firing(id, w.db.now)]))
  {
    if id in w.db.triggers { LiveExactly(w.db.grants, w.db.triggers[id].grant, TriggersFire, w.db.now); }
  }
}
