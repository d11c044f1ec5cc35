/**
 Connector grants: four kinds of consumer share one use counter, and over any run the counter has
 moved by exactly the uses they committed and never passed its maximum.
 */
module ChannelGrants {
  import opened Wrappers
  import opened ChannelTables
  import opened ChannelWorld

  datatype Consumer = Event | Secret | TriggerFire | Delivery | NoConsumer

  function ConsumerOf(e: Effect): Consumer {
    match e
    case Fired(_, _, _, _) => TriggerFire
    case EventAdmitted(_, _) => Event
    case CredentialIssued(_) => Secret
    case DeliveryClaimed(_, _) => Delivery
    case ScanFailed(_) => NoConsumer
    case ClaimTakenOver(_) => NoConsumer
  }

  predicate Consumes(e: Effect, g: Id) {
    ConsumerOf(e) != NoConsumer && e.grant == Some(g)
  }

  /** How many committed effects of one kind used the grant. */
  function UsesBy(journal: seq<Effect>, g: Id, consumer: Consumer): nat {
    if journal == [] then 0
    else
      var e := journal[|journal| - 1];
      UsesBy(journal[..|journal| - 1], g, consumer) + if Consumes(e, g) && ConsumerOf(e) == consumer then 1 else 0
  }

  function Uses(journal: seq<Effect>, g: Id): nat {
    UsesBy(journal, g, Event) + UsesBy(journal, g, Secret) + UsesBy(journal, g, TriggerFire) + UsesBy(journal, g, Delivery)
  }

  lemma UsesAppend(journal: seq<Effect>, e: Effect, g: Id)
    ensures Uses(journal + [e], g) == Uses(journal, g) + if Consumes(e, g) then 1 else 0
  {
    assert (journal + [e])[..|journal|] == journal;
  }

  /** The grant as it started, plus every use committed since. */
  ghost predicate Accounted(start: Grant, db: Tables, g: Id) {
    && g in db.grants
    && db.grants[g] == start.(useCount := start.useCount + Uses(db.journal, g), revoked := db.grants[g].revoked)
    && (start.useCount <= start.maximumUses ==> db.grants[g].useCount <= start.maximumUses)
  }

  /** A commit that uses a usable grant, or none, keeps the account. */
  lemma UseKeepsAccount(start: Grant, db: Tables, db': Tables, e: Effect, g: Id, operation: Operation, now: int)
    requires Accounted(start, db, g) && ConsumerOf(e) != NoConsumer
    requires e.grant.Some? ==> CanUse(db.grants, e.grant, operation, now)
    requires db'.grants == Used(db.grants, e.grant) && db'.journal == db.journal + [e]
    ensures Accounted(start, db', g)
  {
    UsesAppend(db.journal, e, g);
  }

  lemma PassKeepsAccount(start: Grant, w: World, worker: nat, wallNow: int, hour: int, message: Id, g: Id)
    requires Accounted(start, w.db, g) && Ready(w, worker)
    ensures Accounted(start, CommitPass(w, worker, wallNow, hour, message).db, g)
  {
    var pass := w.passes[worker];
    var t := w.db.triggers[pass.trigger];
    var outcome := Outcome(w.db, pass.trigger, pass.txNow, wallNow, hour);
    if outcome.Fires? {
      UseKeepsAccount(start, w.db, Apply(w.db, pass.trigger, message, outcome),
                      Fired(pass.trigger, outcome.second, outcome.window, FiringGrant(t)), g, TriggersFire, pass.txNow);
    }
  }

  lemma TriggerKeepsAccount(start: Grant, w: World, step: TriggerStep, g: Id)
    requires Accounted(start, w.db, g)
    ensures Accounted(start, TriggerNext(w, step).db, g)
  {
    if step.PassCommits? && Ready(w, step.worker) {
      PassKeepsAccount(start, w, step.worker, step.wallNow, step.hour, step.message, g);
    }
  }

  lemma InboxKeepsAccount(start: Grant, w: World, step: InboxStep, g: Id)
    requires Accounted(start, w.db, g)
    ensures Accounted(start, InboxNext(w, step).db, g)
  {
    var db' := InboxNext(w, step).db;
    if db'.journal != w.db.journal {
      if step.ConnectorEvent? {
        var grant := w.db.triggers[step.trigger].grant;
        UseKeepsAccount(start, w.db, db', EventAdmitted(grant, step.message), g, EventsReceive, w.db.now);
      } else {
        UseKeepsAccount(start, w.db, db', CredentialIssued(Some(step.grant)), g, step.operation, w.db.now);
      }
    }
  }

  lemma OutboxKeepsAccount(start: Grant, w: World, step: OutboxStep, g: Id)
    requires Accounted(start, w.db, g)
    ensures Accounted(start, OutboxNext(w, step).db, g)
  {
    var db' := OutboxNext(w, step).db;
    if step.SenderClaims? && db'.journal != w.db.journal {
      UseKeepsAccount(start, w.db, db', DeliveryClaimed(w.db.messages[step.message].grant, step.message), g, PostMessage,
                      w.db.now);
    }
  }

  lemma ScannerUsesNoGrant(w: World, step: ScanStep)
    ensures var db' := ScanNext(w, step).db;
      && db'.grants == w.db.grants
      && (db'.journal == w.db.journal || exists e: Effect :: db'.journal == w.db.journal + [e] && ConsumerOf(e) == NoConsumer)
  {
  }

  lemma ScanKeepsAccount(start: Grant, w: World, step: ScanStep, g: Id)
    requires Accounted(start, w.db, g)
    ensures Accounted(start, ScanNext(w, step).db, g)
  {
    ScannerUsesNoGrant(w, step);
    var db' := ScanNext(w, step).db;
    if db'.journal != w.db.journal {
      var e: Effect :| db'.journal == w.db.journal + [e] && ConsumerOf(e) == NoConsumer;
      UsesAppend(w.db.journal, e, g);
    }
  }

  lemma AdminKeepsAccount(start: Grant, w: World, step: AdminStep, g: Id)
    requires Accounted(start, w.db, g)
    ensures Accounted(start, AdminNext(w, step).db, g)
  {
  }

  lemma FollowsKeepsAccount(start: Grant, w: World, w': World, g: Id)
    requires Follows(w, w') && Accounted(start, w.db, g)
    ensures Accounted(start, w'.db, g)
  {
    if ByTrigger(w, w') {
      var step: TriggerStep :| w' == TriggerNext(w, step);
      TriggerKeepsAccount(start, w, step, g);
    } else if ByInbox(w, w') {
      var step: InboxStep :| w' == InboxNext(w, step);
      InboxKeepsAccount(start, w, step, g);
    } else if ByOutbox(w, w') {
      var step: OutboxStep :| w' == OutboxNext(w, step);
      OutboxKeepsAccount(start, w, step, g);
    } else if ByScan(w, w') {
      var step: ScanStep :| w' == ScanNext(w, step);
      ScanKeepsAccount(start, w, step, g);
    } else {
      var step: AdminStep :| w' == AdminNext(w, step);
      AdminKeepsAccount(start, w, step, g);
    }
  }

  /** Over every interleaving: the use counter is where it started plus the admitted events, issued
      credentials, trigger fires and delivery claims charged to the grant, and within its maximum. */
  lemma {:induction false} GrantLaw(run: seq<World>, g: Id)
    requires IsRun(run) && run[0].db.journal == [] && g in run[0].db.grants
    ensures var start, db := run[0].db.grants[g], run[|run| - 1].db;
      && g in db.grants
      && db.grants[g].useCount == start.useCount + UsesBy(db.journal, g, Event) + UsesBy(db.journal, g, Secret)
                                  + UsesBy(db.journal, g, TriggerFire) + UsesBy(db.journal, g, Delivery)
      && db.grants[g].maximumUses == start.maximumUses
      && (start.useCount <= start.maximumUses ==> db.grants[g].useCount <= db.grants[g].maximumUses)
  {
    AccountKept(run, g);
  }

  lemma {:induction false} AccountKept(run: seq<World>, g: Id)
    requires IsRun(run) && run[0].db.journal == [] && g in run[0].db.grants
    ensures Accounted(run[0].db.grants[g], run[|run| - 1].db, g)
    decreases |run|
  {
    if |run| > 1 {
      RunEndsWithAStep(run);
      AccountKept(run[..|run| - 1], g);
      FollowsKeepsAccount(run[0].db.grants[g], run[|run| - 2], run[|run| - 1], g);
    }
  }
}
