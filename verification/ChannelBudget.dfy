/**
 Trigger budgets: in every window, over every interleaving of passes, what fires is within the
 trigger's budget, and the reserved amounts are the fires times the amounts per fire.
 */
module ChannelBudget {
  import opened Wrappers
  import opened TriggerSchedule
  import opened ChannelTables
  import opened ChannelWorld
  import opened ChannelSchedule

  function FiresIn(journal: seq<Effect>, id: Id, window: int): nat {
    if journal == [] then 0
    else
      var e := journal[|journal| - 1];
      FiresIn(journal[..|journal| - 1], id, window) + if e.Fired? && e.trigger == id && e.window == window then 1 else 0
  }

  lemma FiresAppend(journal: seq<Effect>, e: Effect, id: Id, window: int)
    ensures FiresIn(journal + [e], id, window) ==
              FiresIn(journal, id, window) + if e.Fired? && e.trigger == id && e.window == window then 1 else 0
  {
    assert (journal + [e])[..|journal|] == journal;
  }

  ghost predicate WithinBudget(u: Usage, b: Budget) {
    && b.Valid()
    && 1 <= u.fires <= b.maximumFires
    && u.turns == u.fires <= b.maximumTurns
    && u.tokens == u.fires * b.tokensPerFire <= b.maximumTokens
    && u.cost == u.fires * b.costPerFire <= b.maximumCost
  }

  /** The guard of the update branch and the validation behind the insert branch. */
  lemma ReserveStaysWithin(row: Option<Usage>, b: Budget)
    requires b.Valid() && (row.Some? ==> WithinBudget(row.value, b))
    ensures Reserve(row, b).Some? ==>
              WithinBudget(Reserve(row, b).value, b) && Reserve(row, b).value.fires == 1 + if row.Some? then row.value.fires else 0
    ensures Reserve(row, b).None? <==>
              row.Some? && (row.value.fires == b.maximumFires || row.value.turns == b.maximumTurns
                            || row.value.tokens + b.tokensPerFire > b.maximumTokens
                            || row.value.cost + b.costPerFire > b.maximumCost)
  {
  }

  /** One window of one trigger: its row is within budget, and unless the window has been swept the
      row counts exactly the committed fires. */
  ghost predicate WindowOk(w: World, id: Id, window: int) {
    var row := Lookup(w.db.usage, (id, window));
    && id in w.db.triggers
    && (row.Some? ==> w.db.triggers[id].budget.Some? && WithinBudget(row.value, w.db.triggers[id].budget.value))
    && ((id, window) !in w.swept ==>
          FiresIn(w.db.journal, id, window) == if row.Some? then row.value.fires else 0)
  }

  /** The window that a fire is charged to. */
  lemma FiringKeepsItsWindow(w: World, w': World, id: Id, message: Id, outcome: PassOutcome)
    requires outcome.Fires? && WindowOk(w, id, outcome.window)
    requires w'.db == Apply(w.db, id, message, outcome) && w'.swept == w.swept
    requires var b := w.db.triggers[id].budget;
      && b.Some? && b.value.Valid()
      && Reserve(Lookup(w.db.usage, (id, outcome.window)), b.value) == Some(outcome.usage)
    ensures WindowOk(w', id, outcome.window)
  {
    var t := w.db.triggers[id];
    FiresAppend(w.db.journal, Fired(id, outcome.second, outcome.window, FiringGrant(t)), id, outcome.window);
    ReserveStaysWithin(Lookup(w.db.usage, (id, outcome.window)), t.budget.value);
  }

  /** Any other window. */
  lemma FiringKeepsOtherWindow(w: World, w': World, trigger: Id, message: Id, outcome: PassOutcome, id: Id, window: int)
    requires WindowOk(w, id, window) && trigger in w.db.triggers && outcome.Fires?
    requires trigger != id || outcome.window != window
    requires w'.db == Apply(w.db, trigger, message, outcome) && w'.swept == w.swept
    ensures WindowOk(w', id, window)
  {
    var e := Fired(trigger, outcome.second, outcome.window, FiringGrant(w.db.triggers[trigger]));
    FiresAppend(w.db.journal, e, id, window);
    assert Lookup(w'.db.usage, (id, window)) == Lookup(w.db.usage, (id, window));
  }

  lemma CommitKeepsWindow(w: World, worker: nat, wallNow: int, hour: int, message: Id, id: Id, window: int)
    requires WindowOk(w, id, window) && Ready(w, worker)
    ensures WindowOk(CommitPass(w, worker, wallNow, hour, message), id, window)
  {
    var pass := w.passes[worker];
    var outcome := Outcome(w.db, pass.trigger, pass.txNow, wallNow, hour);
    var w' := CommitPass(w, worker, wallNow, hour, message);
    if outcome.Fires? {
      if pass.trigger == id && outcome.window == window {
        FiringKeepsItsWindow(w, w', id, message, outcome);
      } else {
        FiringKeepsOtherWindow(w, w', pass.trigger, message, outcome, id, window);
      }
    }
  }

  lemma TriggerKeepsWindow(w: World, step: TriggerStep, id: Id, window: int)
    requires WindowOk(w, id, window)
    ensures WindowOk(TriggerNext(w, step), id, window)
  {
    match step
    case PassCommits(worker, wallNow, hour, message) =>
      if Ready(w, worker) { CommitKeepsWindow(w, worker, wallNow, hour, message, id, window); }
    case UsageSwept =>
    case _ =>
  }

  /** A commit of another kind leaves every window as it is. */
  lemma OtherEffectKeepsWindow(w: World, w': World, id: Id, window: int)
    requires WindowOk(w, id, window)
    requires w'.db.triggers == w.db.triggers && w'.db.usage == w.db.usage && w'.swept == w.swept
    requires || w'.db.journal == w.db.journal
             || (exists e: Effect :: w'.db.journal == w.db.journal + [e] && !e.Fired?)
    ensures WindowOk(w', id, window)
  {
    if w'.db.journal != w.db.journal {
      var e: Effect :| w'.db.journal == w.db.journal + [e] && !e.Fired?;
      FiresAppend(w.db.journal, e, id, window);
    }
  }

  lemma InboxKeepsWindow(w: World, step: InboxStep, id: Id, window: int)
    requires WindowOk(w, id, window)
    ensures WindowOk(InboxNext(w, step), id, window)
  {
    OtherEffectKeepsWindow(w, InboxNext(w, step), id, window);
  }

  lemma OutboxKeepsWindow(w: World, step: OutboxStep, id: Id, window: int)
    requires WindowOk(w, id, window)
    ensures WindowOk(OutboxNext(w, step), id, window)
  {
    OtherEffectKeepsWindow(w, OutboxNext(w, step), id, window);
  }

  lemma ScanKeepsWindow(w: World, step: ScanStep, id: Id, window: int)
    requires WindowOk(w, id, window)
    ensures WindowOk(ScanNext(w, step), id, window)
  {
    OtherEffectKeepsWindow(w, ScanNext(w, step), id, window);
  }

  lemma AdminKeepsWindow(w: World, step: AdminStep, id: Id, window: int)
    requires WindowOk(w, id, window)
    ensures WindowOk(AdminNext(w, step), id, window)
  {
  }

  lemma FollowsKeepsWindow(w: World, w': World, id: Id, window: int)
    requires Follows(w, w') && WindowOk(w, id, window)
    ensures WindowOk(w', id, window)
  {
    if ByTrigger(w, w') {
      var step: TriggerStep :| w' == TriggerNext(w, step);
      TriggerKeepsWindow(w, step, id, window);
    } else if ByInbox(w, w') {
      var step: InboxStep :| w' == InboxNext(w, step);
      InboxKeepsWindow(w, step, id, window);
    } else if ByOutbox(w, w') {
      var step: OutboxStep :| w' == OutboxNext(w, step);
      OutboxKeepsWindow(w, step, id, window);
    } else if ByScan(w, w') {
      var step: ScanStep :| w' == ScanNext(w, step);
      ScanKeepsWindow(w, step, id, window);
    } else {
      var step: AdminStep :| w' == AdminNext(w, step);
      AdminKeepsWindow(w, step, id, window);
    }
  }

  lemma {:induction false} WindowKept(run: seq<World>, id: Id, window: int)
    requires IsRun(run) && WindowOk(run[0], id, window)
    ensures WindowOk(run[|run| - 1], id, window)
    decreases |run|
  {
    if |run| > 1 {
      RunEndsWithAStep(run);
      WindowKept(run[..|run| - 1], id, window);
      FollowsKeepsWindow(run[|run| - 2], run[|run| - 1], id, window);
    }
  }

  /** From a database without usage rows: in every window that has not been swept away, the
      committed fires, and the tokens and cost they reserved, are within the trigger's budget, and the
      usage row shows exactly them. */
  lemma BudgetLaw(run: seq<World>, id: Id, window: int)
    requires IsRun(run) && Starting(run[0]) && run[0].db.usage == map[] && id in run[0].db.triggers
    requires (id, window) !in run[|run| - 1].swept
    ensures
      var fires := FiresIn(run[|run| - 1].db.journal, id, window);
      && fires == match Lookup(run[|run| - 1].db.usage, (id, window)) { case Some(row) => row.fires case None => 0 }
      && (fires > 0 ==>
        && run[0].db.triggers[id].budget.Some?
        && var b := run[0].db.triggers[id].budget.value;
           && b.Valid()
           && fires <= b.maximumFires && fires <= b.maximumTurns
           && fires * b.tokensPerFire <= b.maximumTokens
           && fires * b.costPerFire <= b.maximumCost
           && run[|run| - 1].db.usage[(id, window)] == Usage(fires, fires, fires * b.tokensPerFire, fires * b.costPerFire))
  {
    WindowKept(run, id, window);
    ScheduleLaw(run, id);
  }

  /** The window of an instant is the one aligned slot that contains it. */
  lemma WindowIsAligned(now: int, windowSeconds: int, k: int)
    requires windowSeconds > 0
    ensures WindowStart(now, windowSeconds) == k * windowSeconds <==>
              k * (windowSeconds * SECOND) <= now < (k + 1) * (windowSeconds * SECOND)
  {
    var length := windowSeconds * SECOND;
    var q := now / length;
    DivBounds(now, length);
    assert (q + 1) * length == q * length + length;
    if k < q {
      MulMono(k + 1, q, length);
      MulMono(k + 1, q, windowSeconds);
    } else if k > q {
      MulMono(q + 1, k, length);
      MulMono(q + 1, k, windowSeconds);
    }
  }

  /** A window is swept only when it began more than ninety days before the sweep. */
  lemma SweptWindowsAreOld(w: World, step: TriggerStep, id: Id, window: int)
    requires (id, window) !in w.swept && (id, window) in TriggerNext(w, step).swept
    ensures window * SECOND < w.db.now - USAGE_RETENTION * SECOND
  {
  }

  // ---- Windows that were swept away ----

  const LONGEST_WINDOW: int := 86400

  /** No pass under way is older than the retention less one window. */
  ghost predicate Young(w: World) {
    forall worker | worker in w.passes && w.passes[worker].Firing? ::
      w.db.now - w.passes[worker].txNow <= (USAGE_RETENTION - LONGEST_WINDOW) * SECOND
  }

  ghost predicate FiresWithin(fires: nat, budget: Option<Budget>) {
    fires > 0 ==>
      && budget.Some? && budget.value.Valid()
      && fires <= budget.value.maximumFires && fires <= budget.value.maximumTurns
      && fires * budget.value.tokensPerFire <= budget.value.maximumTokens
      && fires * budget.value.costPerFire <= budget.value.maximumCost
  }

  /** A swept window has no row, lies beyond the retention and was within budget. */
  ghost predicate SweptOk(w: World, id: Id, window: int) {
    (id, window) in w.swept ==>
      && id in w.db.triggers && (id, window) !in w.db.usage
      && window * SECOND < w.db.now - USAGE_RETENTION * SECOND
      && FiresWithin(FiresIn(w.db.journal, id, window), w.db.triggers[id].budget)
  }

  /** A young pass fires into a window that the sweep would keep. */
  lemma YoungPassIsRecent(w: World, worker: nat, wallNow: int, hour: int)
    requires Young(w) && Ready(w, worker)
    ensures
      var pass := w.passes[worker];
      var outcome := Outcome(w.db, pass.trigger, pass.txNow, wallNow, hour);
      outcome.Fires? ==> outcome.window * SECOND >= w.db.now - USAGE_RETENTION * SECOND
  {
    var pass := w.passes[worker];
    var outcome := Outcome(w.db, pass.trigger, pass.txNow, wallNow, hour);
    if outcome.Fires? {
      WindowReaches(pass.txNow, w.db.triggers[pass.trigger].budget.value.windowSeconds);
    }
  }

  lemma WindowReaches(now: int, windowSeconds: int)
    requires 0 < windowSeconds <= LONGEST_WINDOW
    ensures now < (WindowStart(now, windowSeconds) + LONGEST_WINDOW) * SECOND
  {
    var length := windowSeconds * SECOND;
    DivBounds(now, length);
    assert now / length * length == WindowStart(now, windowSeconds) * SECOND;
  }

  lemma CommitKeepsSwept(w: World, worker: nat, wallNow: int, hour: int, message: Id, id: Id, window: int)
    requires SweptOk(w, id, window) && Young(w) && Ready(w, worker)
    ensures SweptOk(CommitPass(w, worker, wallNow, hour, message), id, window)
  {
    var pass := w.passes[worker];
    var outcome := Outcome(w.db, pass.trigger, pass.txNow, wallNow, hour);
    YoungPassIsRecent(w, worker, wallNow, hour);
    if outcome.Fires? {
      var t := w.db.triggers[pass.trigger];
      FiresAppend(w.db.journal, Fired(pass.trigger, outcome.second, outcome.window, FiringGrant(t)), id, window);
    }
  }

  lemma SweepKeepsSwept(w: World, id: Id, window: int)
    requires WindowOk(w, id, window) && SweptOk(w, id, window)
    ensures SweptOk(TriggerNext(w, UsageSwept), id, window)
  {
  }

  lemma TriggerKeepsSwept(w: World, step: TriggerStep, id: Id, window: int)
    requires WindowOk(w, id, window) && SweptOk(w, id, window) && Young(w)
    ensures SweptOk(TriggerNext(w, step), id, window)
  {
    match step
    case PassCommits(worker, wallNow, hour, message) =>
      if Ready(w, worker) { CommitKeepsSwept(w, worker, wallNow, hour, message, id, window); }
    case UsageSwept => SweepKeepsSwept(w, id, window);
    case _ =>
  }

  /** What the other components and the clock do to budgets: nothing. */
  ghost predicate NoBudget(w: World, w': World) {
    && w'.db.usage == w.db.usage && w'.swept == w.swept && w'.db.now >= w.db.now
    && (w'.db.journal == w.db.journal || exists e: Effect :: w'.db.journal == w.db.journal + [e] && !e.Fired?)
  }

  lemma NoBudgetKeepsSwept(w: World, w': World, id: Id, window: int)
    requires SweptOk(w, id, window) && NoBudget(w, w') && WindowOk(w', id, window)
    requires id in w.db.triggers && w'.db.triggers[id].budget == w.db.triggers[id].budget
    ensures SweptOk(w', id, window)
  {
    if w'.db.journal != w.db.journal {
      var e: Effect :| w'.db.journal == w.db.journal + [e] && !e.Fired?;
      FiresAppend(w.db.journal, e, id, window);
    }
  }

  lemma InboxSpendsNoBudget(w: World, step: InboxStep)
    ensures NoBudget(w, InboxNext(w, step))
  {
  }

  lemma OutboxSpendsNoBudget(w: World, step: OutboxStep)
    ensures NoBudget(w, OutboxNext(w, step))
  {
  }

  lemma ScanSpendsNoBudget(w: World, step: ScanStep)
    ensures NoBudget(w, ScanNext(w, step))
  {
  }

  lemma AdminSpendsNoBudget(w: World, step: AdminStep)
    ensures NoBudget(w, AdminNext(w, step))
  {
  }

  lemma FollowsKeepsSwept(w: World, w': World, id: Id, window: int)
    requires Follows(w, w') && WindowOk(w, id, window) && SweptOk(w, id, window) && Young(w)
    ensures SweptOk(w', id, window)
  {
    FollowsKeepsWindow(w, w', id, window);
    FollowsMoves(w, w', id);
    if ByTrigger(w, w') {
      var step: TriggerStep :| w' == TriggerNext(w, step);
      TriggerKeepsSwept(w, step, id, window);
    } else {
      if ByInbox(w, w') {
        var step: InboxStep :| w' == InboxNext(w, step);
        InboxSpendsNoBudget(w, step);
      } else if ByOutbox(w, w') {
        var step: OutboxStep :| w' == OutboxNext(w, step);
        OutboxSpendsNoBudget(w, step);
      } else if ByScan(w, w') {
        var step: ScanStep :| w' == ScanNext(w, step);
        ScanSpendsNoBudget(w, step);
      } else {
        var step: AdminStep :| w' == AdminNext(w, step);
        AdminSpendsNoBudget(w, step);
      }
      NoBudgetKeepsSwept(w, w', id, window);
    }
  }

  lemma {:induction false} SweptKept(run: seq<World>, id: Id, window: int)
    requires IsRun(run) && WindowOk(run[0], id, window) && SweptOk(run[0], id, window)
    requires forall i | 0 <= i < |run| :: Young(run[i])
    ensures WindowOk(run[|run| - 1], id, window) && SweptOk(run[|run| - 1], id, window)
    decreases |run|
  {
    if |run| > 1 {
      RunEndsWithAStep(run);
      SweptKept(run[..|run| - 1], id, window);
      FollowsKeepsWindow(run[|run| - 2], run[|run| - 1], id, window);
      FollowsKeepsSwept(run[|run| - 2], run[|run| - 1], id, window);
    }
  }

  /** And as long as no transaction stays open for 89 days: in every window without exception, swept
      ones included, what ever fired is within the trigger's budget. */
  lemma EveryWindowLaw(run: seq<World>, id: Id, window: int)
    requires IsRun(run) && Starting(run[0]) && run[0].db.usage == map[] && id in run[0].db.triggers
    requires forall i | 0 <= i < |run| :: Young(run[i])
    ensures FiresWithin(FiresIn(run[|run| - 1].db.journal, id, window), run[0].db.triggers[id].budget)
  {
    SweptKept(run, id, window);
    ScheduleLaw(run, id);
  }
}
