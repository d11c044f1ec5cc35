/**
 The outbox over whole runs, stale and recovered senders included: every message is claimed for
 sending at most ten times, and nothing is delivered that was not claimed.
 */
module ChannelOutbox {
  import opened Wrappers
  import opened TriggerSchedule
  import opened ChannelTables
  import opened ChannelWorld

  function ClaimCount(journal: seq<Effect>, m: Id): nat {
    if journal == [] then 0
    else
      var e := journal[|journal| - 1];
      ClaimCount(journal[..|journal| - 1], m) + if e.DeliveryClaimed? && e.message == m then 1 else 0
  }

  lemma ClaimCountAppend(journal: seq<Effect>, e: Effect, m: Id)
    ensures ClaimCount(journal + [e], m) == ClaimCount(journal, m) + if e.DeliveryClaimed? && e.message == m then 1 else 0
  {
    assert (journal + [e])[..|journal|] == journal;
  }

  ghost predicate ClaimsOk(db: Tables, m: Id) {
    if m in db.messages then
      && db.messages[m].attempts == ClaimCount(db.journal, m) <= MAX_DELIVERY_CLAIMS
      && (db.messages[m].state in {Sending, Failed, Delivered} ==> db.messages[m].attempts >= 1)
    else ClaimCount(db.journal, m) == 0
  }

  /** A commit that claims nothing and leaves the claim columns of this row alone. */
  ghost predicate NoClaim(db: Tables, db': Tables, m: Id) {
    && (db'.journal == db.journal || exists e: Effect :: db'.journal == db.journal + [e] && !e.DeliveryClaimed?)
    && (m in db.messages ==>
          && m in db'.messages && db'.messages[m].attempts == db.messages[m].attempts
          && (db'.messages[m].state in {Sending, Failed, Delivered} ==>
                db.messages[m].state in {Sending, Failed, Delivered}))
    && (m !in db.messages && m in db'.messages ==>
          db'.messages[m].attempts == 0 && db'.messages[m].state !in {Sending, Failed, Delivered})
  }

  lemma NoClaimKeepsClaims(db: Tables, db': Tables, m: Id)
    requires ClaimsOk(db, m) && NoClaim(db, db', m)
    ensures ClaimsOk(db', m)
  {
    if db'.journal != db.journal {
      var e: Effect :| db'.journal == db.journal + [e] && !e.DeliveryClaimed?;
      ClaimCountAppend(db.journal, e, m);
    }
  }

  lemma TriggerKeepsClaims(w: World, step: TriggerStep, m: Id)
    requires ClaimsOk(w.db, m)
    ensures ClaimsOk(TriggerNext(w, step).db, m)
  {
    NoClaimKeepsClaims(w.db, TriggerNext(w, step).db, m);
  }

  lemma InboxKeepsClaims(w: World, step: InboxStep, m: Id)
    requires ClaimsOk(w.db, m)
    ensures ClaimsOk(InboxNext(w, step).db, m)
  {
    NoClaimKeepsClaims(w.db, InboxNext(w, step).db, m);
  }

  lemma ClaimKeepsClaims(db: Tables, message: Id, wallNow: int, hour: int, secretKnown: bool, m: Id)
    requires ClaimsOk(db, m)
    ensures ClaimsOk(ClaimDelivery(db, message, wallNow, hour, secretKnown), m)
  {
    if ClaimResult(db, message, wallNow, hour, secretKnown).Claims? {
      ClaimCountAppend(db.journal, DeliveryClaimed(db.messages[message].grant, message), m);
    }
  }

  lemma OutboxKeepsClaims(w: World, step: OutboxStep, m: Id)
    requires ClaimsOk(w.db, m)
    ensures ClaimsOk(OutboxNext(w, step).db, m)
  {
    match step
    case SenderClaims(_, message, wallNow, hour, secretKnown) =>
      ClaimKeepsClaims(w.db, message, wallNow, hour, secretKnown, m);
    case _ =>
  }

  lemma ScanKeepsClaims(w: World, step: ScanStep, m: Id)
    requires ClaimsOk(w.db, m)
    ensures ClaimsOk(ScanNext(w, step).db, m)
  {
    NoClaimKeepsClaims(w.db, ScanNext(w, step).db, m);
  }

  lemma AdminKeepsClaims(w: World, step: AdminStep, m: Id)
    requires ClaimsOk(w.db, m)
    ensures ClaimsOk(AdminNext(w, step).db, m)
  {
  }

  lemma FollowsKeepsClaims(w: World, w': World, m: Id)
    requires Follows(w, w') && ClaimsOk(w.db, m)
    ensures ClaimsOk(w'.db, m)
  {
    if ByTrigger(w, w') {
      var step: TriggerStep :| w' == TriggerNext(w, step);
      TriggerKeepsClaims(w, step, m);
    } else if ByInbox(w, w') {
      var step: InboxStep :| w' == InboxNext(w, step);
      InboxKeepsClaims(w, step, m);
    } else if ByOutbox(w, w') {
      var step: OutboxStep :| w' == OutboxNext(w, step);
      OutboxKeepsClaims(w, step, m);
    } else if ByScan(w, w') {
      var step: ScanStep :| w' == ScanNext(w, step);
      ScanKeepsClaims(w, step, m);
    } else {
      var step: AdminStep :| w' == AdminNext(w, step);
      AdminKeepsClaims(w, step, m);
    }
  }

  /** From an empty message table: a message's attempt counter is the number of its committed claims,
      there are at most ten of them, and a delivered message has had at least one. */
  lemma {:induction false} ClaimLaw(run: seq<World>, m: Id)
    requires IsRun(run) && run[0].db.messages == map[] && run[0].db.journal == []
    ensures var db := run[|run| - 1].db;
      && ClaimsOk(db, m)
      && ClaimCount(db.journal, m) <= MAX_DELIVERY_CLAIMS
      && (m in db.messages && db.messages[m].state == Delivered ==> ClaimCount(db.journal, m) >= 1)
    decreases |run|
  {
    if |run| > 1 {
      RunEndsWithAStep(run);
      ClaimLaw(run[..|run| - 1], m);
      FollowsKeepsClaims(run[|run| - 2], run[|run| - 1], m);
    }
  }

  // ---- How sending ends ----

  /** A sender that claimed the message reports on it while it is being sent. */
  ghost predicate Settles(w: World, w': World, worker: nat, m: Id, delivered: bool) {
    && worker in w.senders && w.senders[worker] == m
    && m in w.db.messages && w.db.messages[m].state == Sending
    && w' == OutboxNext(w, SenderSettles(worker, delivered))
  }

  ghost predicate Reported(w: World, w': World, m: Id, delivered: bool) {
    exists worker :: Settles(w, w', worker, m, delivered)
  }

  /** What may become of a message that is being sent: a report of success, a report of failure that
      schedules a retry, or recovery of a claim two minutes old. */
  ghost predicate SendingWent(w: World, w': World, m: Id)
    requires m in w.db.messages && m in w'.db.messages
  {
    var row, row' := w.db.messages[m], w'.db.messages[m];
    || row'.state == Sending
    || (row'.state == Delivered && Reported(w, w', m, true))
    || (row'.state == Failed && row'.nextAttempt == Some(w.db.now + RetryDelay(row.attempts) * SECOND)
        && Reported(w, w', m, false))
    || (row'.state == Failed && row'.nextAttempt == Some(w.db.now) && Abandoned(w.db, row))
  }

  lemma ReportEndsSending(w: World, worker: nat, delivered: bool, m: Id)
    requires m in w.db.messages && w.db.messages[m].state == Sending
    ensures var w' := OutboxNext(w, SenderSettles(worker, delivered)); m in w'.db.messages && SendingWent(w, w', m)
  {
    var w' := OutboxNext(w, SenderSettles(worker, delivered));
    if worker in w.senders {
      SettledRow(w.db, w.senders[worker], delivered, m);
      if w.senders[worker] == m {
        assert Settles(w, w', worker, m, delivered);
        assert Reported(w, w', m, delivered);
      }
    }
  }

  lemma SettledRow(db: Tables, message: Id, delivered: bool, m: Id)
    requires m in db.messages && db.messages[m].state == Sending
    ensures var after := Settle(db, message, delivered).messages;
      && m in after
      && if message != m then after[m] == db.messages[m]
         else if delivered then after[m].state == Delivered
         else after[m].state == Failed && after[m].nextAttempt == Some(db.now + RetryDelay(db.messages[m].attempts) * SECOND)
  {
  }

  lemma RecoveryEndsSending(w: World, m: Id)
    requires m in w.db.messages && w.db.messages[m].state == Sending
    ensures var w' := OutboxNext(w, ClaimsRecovered); m in w'.db.messages && SendingWent(w, w', m)
  {
  }

  lemma OutboxSending(w: World, step: OutboxStep, m: Id)
    requires m in w.db.messages && w.db.messages[m].state == Sending
    ensures m in OutboxNext(w, step).db.messages && SendingWent(w, OutboxNext(w, step), m)
  {
    match step
    case SenderSettles(worker, delivered) => ReportEndsSending(w, worker, delivered, m);
    case ClaimsRecovered => RecoveryEndsSending(w, m);
    case _ => assert OutboxNext(w, step).db.messages[m].state == Sending;
  }

  /** A message enters or leaves the delivery states through the outbox only. */
  ghost predicate SameState(w: World, w': World, m: Id) {
    && (m in w.db.messages ==> m in w'.db.messages)
    && (m in w'.db.messages && w'.db.messages[m].state in {Sending, Delivered} ==>
          m in w.db.messages && w.db.messages[m].state == w'.db.messages[m].state)
    && (m in w.db.messages && w.db.messages[m].state == Sending ==> w'.db.messages[m].state == Sending)
  }

  lemma TriggerNotSending(w: World, step: TriggerStep, m: Id)
    ensures SameState(w, TriggerNext(w, step), m)
  {
  }

  lemma InboxNotSending(w: World, step: InboxStep, m: Id)
    ensures SameState(w, InboxNext(w, step), m)
  {
  }

  lemma ScanNotSending(w: World, step: ScanStep, m: Id)
    ensures SameState(w, ScanNext(w, step), m)
  {
  }

  lemma AdminNotSending(w: World, step: AdminStep, m: Id)
    ensures SameState(w, AdminNext(w, step), m)
  {
  }

  lemma OnlyOutboxSends(w: World, w': World, m: Id)
    requires Follows(w, w') && !ByOutbox(w, w')
    ensures SameState(w, w', m)
  {
    if ByTrigger(w, w') {
      var step: TriggerStep :| w' == TriggerNext(w, step);
      TriggerNotSending(w, step, m);
    } else if ByInbox(w, w') {
      var step: InboxStep :| w' == InboxNext(w, step);
      InboxNotSending(w, step, m);
    } else if ByScan(w, w') {
      var step: ScanStep :| w' == ScanNext(w, step);
      ScanNotSending(w, step, m);
    } else {
      var step: AdminStep :| w' == AdminNext(w, step);
      AdminNotSending(w, step, m);
    }
  }

  lemma SendingEnds(w: World, w': World, m: Id)
    requires Follows(w, w') && m in w.db.messages && w.db.messages[m].state == Sending
    ensures m in w'.db.messages && SendingWent(w, w', m)
  {
    if ByOutbox(w, w') {
      var step: OutboxStep :| w' == OutboxNext(w, step);
      OutboxSending(w, step, m);
    } else {
      OnlyOutboxSends(w, w', m);
    }
  }

  lemma OutboxDelivers(w: World, step: OutboxStep, m: Id)
    requires m in OutboxNext(w, step).db.messages && OutboxNext(w, step).db.messages[m].state == Delivered
    ensures m in w.db.messages && w.db.messages[m].state in {Sending, Delivered}
  {
  }

  lemma DeliveryNeedsReport(w: World, w': World, m: Id)
    requires Follows(w, w') && m in w'.db.messages && w'.db.messages[m].state == Delivered
    ensures (m in w.db.messages && w.db.messages[m].state == Delivered) || Reported(w, w', m, true)
  {
    if ByOutbox(w, w') {
      var step: OutboxStep :| w' == OutboxNext(w, step);
      OutboxDelivers(w, step, m);
      if w.db.messages[m].state == Sending { OutboxSending(w, step, m); }
    } else {
      OnlyOutboxSends(w, w', m);
    }
  }

  /** A message is DELIVERED only if, at some moment of the run, a sender that held a claim on it
      reported success while it was being sent. */
  lemma {:induction false} DeliveredWasReported(run: seq<World>, m: Id)
    requires IsRun(run) && run[0].db.messages == map[]
    requires var db := run[|run| - 1].db; m in db.messages && db.messages[m].state == Delivered
    ensures exists i | 0 < i < |run| :: Reported(run[i - 1], run[i], m, true)
    decreases |run|
  {
    if |run| > 1 {
      var init := run[..|run| - 1];
      RunEndsWithAStep(run);
      DeliveryNeedsReport(run[|run| - 2], run[|run| - 1], m);
      if !Reported(run[|run| - 2], run[|run| - 1], m, true) {
        DeliveredWasReported(init, m);
        var i :| 0 < i < |init| && Reported(init[i - 1], init[i], m, true);
        assert Reported(run[i - 1], run[i], m, true);
      }
    }
  }
}
