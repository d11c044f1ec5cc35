/**
 What the other transactions of the channel service do, in the columns of the tables: events and
 credentials, replies and their delivery, attachment scans, the usage sweep.
 */
module ChannelTransactions {
  import opened Wrappers
  import opened ChannelTables
  import opened ChannelWorld
  import opened ChannelPasses

  /** Some message of this binding and direction already has the key. */
  predicate HasMessage(db: Tables, binding: Id, key: EventKey, direction: Direction) {
    exists m :: m in db.messages && db.messages[m].binding == binding && db.messages[m].key == key
                && db.messages[m].direction == direction
  }

  /** One row is new or changed, the others are as they were. */
  ghost predicate OnlyRow(db: Tables, db': Tables, m: Id) {
    && m in db'.messages && db'.messages.Keys == db.messages.Keys + {m}
    && forall k | k in db.messages && k != m :: db'.messages[k] == db.messages[k]
  }

  /** One use more of one grant, the others as they were. */
  ghost predicate OneUse(db: Tables, db': Tables, g: Id) {
    && g in db.grants && db'.grants.Keys == db.grants.Keys
    && db'.grants[g] == db.grants[g].(useCount := db.grants[g].useCount + 1)
    && forall k | k in db.grants && k != g :: db'.grants[k] == db.grants[k]
  }

  /** An inbound message as it arrives. */
  ghost predicate Arrived(row: Message, binding: Id, key: EventKey, now: int, attachments: bool) {
    && row.binding == binding && row.key == key && row.direction == Inbound && row.state == Received
    && row.attempts == 0 && row.updated == now && row.scanAttempts == 0 && row.scanToken.None? && row.scanLease.None?
    && row.scan == (if attachments then ScanPending else NotRequired)
    && row.nextScan == (if attachments then Some(now) else None)
  }

  // ---- Inbound events and credentials ----

  /** A connector event is admitted exactly once per key and only against a live grant; then it leaves
      its message and one use, otherwise nothing. */
  lemma EventExactly(db: Tables, binding: Id, key: EventKey, grant: Option<Id>, message: Id)
    requires message !in db.messages
    ensures
      var db' := AdmitEvent(db, binding, key, grant, message);
      if !HasMessage(db, binding, key, Inbound) && Live(db.grants, grant, EventsReceive, db.now)
      then
        && OnlyRow(db, db', message) && Arrived(db'.messages[message], binding, key, db.now, false)
        && OneUse(db, db', grant.value)
        && db' == db.(messages := db'.messages, grants := db'.grants, journal := db'.journal)
      else db' == db
  {
    LiveExactly(db.grants, grant, EventsReceive, db.now);
  }

  lemma ChannelMessageExactly(db: Tables, binding: Id, event: string, attachments: bool, message: Id)
    requires message !in db.messages
    ensures
      var db' := AdmitChannelMessage(db, binding, event, attachments, message);
      if HasMessage(db, binding, ChannelKey(event), Inbound) then db' == db
      else
        && OnlyRow(db, db', message) && Arrived(db'.messages[message], binding, ChannelKey(event), db.now, attachments)
        && db' == db.(messages := db'.messages)
  {
  }

  /** A secret is handed out exactly for a live grant of the binding whose secret is known, at the
      price of one use. */
  lemma CredentialExactly(db: Tables, binding: Id, grant: Id, operation: Operation, secretKnown: bool)
    ensures
      var db' := IssueCredential(db, binding, Some(grant), operation, secretKnown);
      if Live(db.grants, Some(grant), operation, db.now) && db.grants[grant].binding == binding && db.grants[grant].slackApi
         && secretKnown
      then OneUse(db, db', grant) && db' == db.(grants := db'.grants, journal := db.journal + [CredentialIssued(Some(grant))])
      else db' == db
  {
    LiveExactly(db.grants, Some(grant), operation, db.now);
  }

  lemma TurnExactly(db: Tables, m: Id)
    ensures
      var db' := CreateTurn(db, m);
      if m in db.messages && db.messages[m].state == Received
      then OnlyRow(db, db', m) && db'.messages[m] == db.messages[m].(state := TurnCreated, updated := db.now)
           && db' == db.(messages := db'.messages)
      else db' == db
  {
  }

  // ---- Replies and their delivery ----

  /** A message whose turn was created gets a reply to deliver, once, against a live grant of its
      binding. */
  lemma ReplyExactly(db: Tables, inbound: Id, grant: Id, message: Id)
    requires message !in db.messages
    ensures
      var db' := EnqueueReply(db, inbound, grant, message);
      if && inbound in db.messages && db.messages[inbound].direction == Inbound && db.messages[inbound].state == TurnCreated
         && Live(db.grants, Some(grant), PostMessage, db.now)
         && db.grants[grant].binding == db.messages[inbound].binding && db.grants[grant].slackApi
         && !HasMessage(db, db.messages[inbound].binding, ReplyKey(db.messages[inbound].key), Outbound)
      then
        && OnlyRow(db, db', message) && db' == db.(messages := db'.messages)
        && var row := db'.messages[message];
           && row.binding == db.messages[inbound].binding && row.key == ReplyKey(db.messages[inbound].key)
           && row.direction == Outbound && row.state == PendingDelivery && row.grant == Some(grant) && row.attempts == 0
           && row.nextAttempt.None? && row.scan == NotRequired
      else db' == db
  {
    LiveExactly(db.grants, Some(grant), PostMessage, db.now);
  }

  /** Recovery puts back exactly the messages in sending whose claim is over two minutes old. */
  lemma RecoveryExactly(db: Tables, m: Id)
    requires m in db.messages
    ensures
      var db', row := RecoverClaims(db), db.messages[m];
      && db'.messages.Keys == db.messages.Keys && db' == db.(messages := db'.messages)
      && db'.messages[m] ==
           if row.direction == Outbound && row.state == Sending && row.updated < db.now - 120 * 1_000_000_000
           then row.(state := Failed, nextAttempt := Some(db.now), updated := db.now) else row
  {
  }

  /** The message waits for delivery, its retry time has come, and its binding and grant are known. */
  predicate DueForDelivery(db: Tables, m: Id) {
    && m in db.messages && db.messages[m].direction == Outbound
    && (db.messages[m].state == PendingDelivery || db.messages[m].state == Failed)
    && (db.messages[m].nextAttempt.Some? ==> db.messages[m].nextAttempt.value <= db.now)
    && db.messages[m].binding in db.bindings
    && db.messages[m].grant.Some? && db.messages[m].grant.value in db.grants
  }

  /** Too often tried, or no longer allowed. */
  predicate Hopeless(db: Tables, m: Id)
    requires DueForDelivery(db, m)
  {
    db.bindings[db.messages[m].binding].revoked || db.messages[m].attempts >= 10
  }

  predicate Deliverable(db: Tables, m: Id, wallNow: int, secretKnown: bool)
    requires DueForDelivery(db, m)
  {
    var g := db.grants[db.messages[m].grant.value];
    g.slackApi && wallNow < g.expires && secretKnown && Live(db.grants, db.messages[m].grant, PostMessage, db.now)
  }

  /** A delivery claim: nothing for a message that is not due, rejection when there is no hope or no
      grant, a quarter of an hour's wait in quiet hours, and otherwise a claim that counts itself and
      one use of the grant. */
  lemma DeliveryExactly(db: Tables, m: Id, wallNow: int, hour: int, secretKnown: bool)
    ensures
      var db' := ClaimDelivery(db, m, wallNow, hour, secretKnown);
      var claims := ClaimResult(db, m, wallNow, hour, secretKnown).Claims?;
      if !DueForDelivery(db, m) then db' == db && !claims
      else
        var row, quiet := db.messages[m], InQuietHours(db.bindings[db.messages[m].binding], hour);
        && OnlyRow(db, db', m)
        && (claims <==> !Hopeless(db, m) && !quiet && Deliverable(db, m, wallNow, secretKnown))
        && if claims
           then
             && db'.messages[m] == row.(state := Sending, attempts := row.attempts + 1, updated := db.now)
             && OneUse(db, db', row.grant.value)
             && db' == db.(messages := db'.messages, grants := db'.grants, journal := db.journal + [DeliveryClaimed(row.grant, m)])
           else
             && db' == db.(messages := db'.messages)
             && db'.messages[m] ==
                  if !Hopeless(db, m) && quiet
                  then row.(nextAttempt := Some(db.now + 15 * 60 * 1_000_000_000), updated := db.now)
                  else row.(state := Rejected, updated := db.now)
  {
    if DueForDelivery(db, m) { LiveExactly(db.grants, db.messages[m].grant, PostMessage, db.now); }
  }

  /** A report on a message in sending: delivered, or failed with a retry after the backed-off delay. */
  lemma ReportExactly(db: Tables, m: Id, delivered: bool)
    ensures
      var db' := Settle(db, m, delivered);
      if m in db.messages && db.messages[m].state == Sending
      then
        && OnlyRow(db, db', m) && db' == db.(messages := db'.messages)
        && db'.messages[m] ==
             if delivered then db.messages[m].(state := Delivered, updated := db.now)
             else db.messages[m].(state := Failed, updated := db.now,
                                  nextAttempt := Some(db.now + RetryDelay(db.messages[m].attempts) * 1_000_000_000))
      else db' == db
  {
  }

  /** The delay doubles with every attempt, from two seconds after the first to 256 from the eighth on. */
  lemma RetryDelays(attempts: int)
    ensures RetryDelay(1) == 2 && RetryDelay(8) == 256
    ensures 1 <= attempts < 8 ==> RetryDelay(attempts + 1) == 2 * RetryDelay(attempts)
    ensures attempts >= 8 ==> RetryDelay(attempts) == 256
  {
    PowersOfTwo();
    if attempts < 8 { assert attempts >= 1 ==> Pow2(attempts + 1) == 2 * Pow2(attempts); }
    SmallPowers(attempts);
  }

  lemma PowersOfTwo()
    ensures Pow2(0) == 1 && Pow2(1) == 2 && Pow2(8) == 256 && Pow2(9) == 512
  {
    assert Pow2(2) == 4 && Pow2(3) == 8 && Pow2(4) == 16;
    assert Pow2(5) == 32 && Pow2(6) == 64 && Pow2(7) == 128;
  }

  lemma {:induction false} PowersGrow(m: nat, n: nat)
    requires m <= n
    ensures Pow2(m) <= Pow2(n)
  {
    if m < n { PowersGrow(m, n - 1); }
  }

  lemma SmallPowers(attempts: int)
    ensures 0 <= attempts <= 8 ==> Pow2(attempts) <= 256
    ensures attempts >= 9 ==> Pow2(attempts) >= 512
  {
    PowersOfTwo();
    if 0 <= attempts <= 8 { PowersGrow(attempts, 8); }
    if attempts >= 9 { PowersGrow(9, attempts); }
  }

  // ---- Attachment scans ----

  /** A received message that waits and whose retry time has come, or whose claim has expired. */
  predicate OpenToScan(db: Tables, m: Id) {
    && m in db.messages && db.messages[m].direction == Inbound && db.messages[m].state == Received
    && var row := db.messages[m];
       || (row.scan == ScanPending && (row.nextScan.Some? ==> row.nextScan.value <= db.now))
       || (row.scan == ScanClaimed && row.scanLease.Some? && row.scanLease.value <= db.now)
  }

  lemma ScannableExactly(db: Tables, m: Id)
    ensures Scannable(db, m) <==> OpenToScan(db, m)
  {
  }

  /** A claim is for five minutes and counts itself. */
  lemma ScanClaimDoes(db: Tables, m: Id, token: nat)
    requires Scannable(db, m)
    ensures
      var db' := ClaimScan(db, m, token);
      && OnlyRow(db, db', m) && db' == db.(messages := db'.messages, journal := db'.journal)
      && db'.messages[m] == db.messages[m].(
           scan := ScanClaimed, scanToken := Some(token), scanLease := Some(db.now + 300 * 1_000_000_000),
           scanAttempts := db.messages[m].scanAttempts + 1, updated := db.now)
  {
  }

  /** A free scanner with a fresh token gets exactly the messages open to scanning. */
  lemma ScanClaimExactly(w: World, worker: nat, m: Id, token: nat)
    requires worker !in w.scans && token !in w.tokens
    ensures
      var w' := ScanNext(w, ScannerClaims(worker, m, token));
      if OpenToScan(w.db, m)
      then
        && Scannable(w.db, m) && w'.db == ClaimScan(w.db, m, token)
        && w'.scans == w.scans[worker := Scan(m, token, w.db.messages[m].scanAttempts + 1, false)]
        && w'.tokens == w.tokens + {token}
      else w' == w
  {
    ScannableExactly(w.db, m);
  }

  lemma ScanCompletionExactly(db: Tables, m: Id, token: nat)
    ensures
      var db' := CompleteScan(db, m, token);
      if m in db.messages && db.messages[m].scanToken == Some(token)
      then
        && OnlyRow(db, db', m) && db' == db.(messages := db'.messages)
        && db'.messages[m] == db.messages[m].(scan := ScanClean, scanToken := None, scanLease := None, nextScan := None,
                                              updated := db.now)
      else db' == db
  {
  }

  /** A failure is recorded for the current claim of a received message; from the fifth attempt on it
      rejects the message, before that it puts it back for later. */
  lemma ScanFailureExactly(db: Tables, m: Id, token: nat, attempt: int)
    ensures
      var db' := FailScan(db, m, token, attempt);
      if m in db.messages && db.messages[m].state == Received && db.messages[m].scanToken == Some(token)
      then
        var row := db.messages[m].(scanToken := None, scanLease := None, updated := db.now);
        && OnlyRow(db, db', m) && db' == db.(messages := db'.messages, journal := db.journal + [ScanFailed(m)])
        && db'.messages[m] ==
             if attempt >= 5 then row.(scan := ScanRejected, state := Rejected, nextScan := None)
             else row.(scan := ScanPending, nextScan := Some(db.now + ScanDelay(row.scanAttempts) * 1_000_000_000))
      else db' == db
  {
  }

  /** The delay doubles with every attempt, from two seconds after the first, and stops at five minutes
      from the ninth on. */
  lemma ScanDelays(attempts: int)
    ensures ScanDelay(1) == 2 && ScanDelay(8) == 256
    ensures 1 <= attempts < 8 ==> ScanDelay(attempts + 1) == 2 * ScanDelay(attempts)
    ensures attempts >= 9 ==> ScanDelay(attempts) == 300
  {
    PowersOfTwo();
    SmallPowers(attempts);
    if 1 <= attempts < 8 { SmallPowers(attempts + 1); }
  }

  // ---- The sweep, and when grants are used ----

  /** The sweep keeps exactly the usage of windows that began within the last ninety days. */
  lemma SweepExactly(db: Tables, window: (Id, int))
    ensures
      var db' := SweepUsage(db);
      && db' == db.(usage := db'.usage)
      && (window in db'.usage <==>
            window in db.usage && window.1 * 1_000_000_000 >= db.now - 90 * 24 * 60 * 60 * 1_000_000_000)
      && (window in db'.usage ==> db'.usage[window] == db.usage[window])
  {
  }

  /** A grant is used only while it is in force: not revoked, not used up, not expired at the time of the
      transaction, which is now or when a trigger pass began. */
  ghost predicate UsedLive(w: World, w': World, g: Id) {
    g in w.db.grants && g in w'.db.grants && w'.db.grants[g].useCount != w.db.grants[g].useCount ==>
      && !w.db.grants[g].revoked && w.db.grants[g].useCount < w.db.grants[g].maximumUses
      && (|| w.db.now < w.db.grants[g].expires
          || exists worker | worker in w.passes && w.passes[worker].Firing? :: w.passes[worker].txNow < w.db.grants[g].expires)
  }

  lemma TriggerUsesLive(w: World, step: TriggerStep, g: Id)
    ensures UsedLive(w, TriggerNext(w, step), g)
  {
  }

  lemma InboxUsesLive(w: World, step: InboxStep, g: Id)
    ensures UsedLive(w, InboxNext(w, step), g)
  {
  }

  lemma OutboxUsesLive(w: World, step: OutboxStep, g: Id)
    ensures UsedLive(w, OutboxNext(w, step), g)
  {
  }

  lemma OthersUseNothing(w: World, scan: ScanStep, admin: AdminStep, g: Id)
    ensures UsedLive(w, ScanNext(w, scan), g) && UsedLive(w, AdminNext(w, admin), g)
  {
  }

  lemma UsesAreLive(w: World, w': World, g: Id)
    requires Follows(w, w')
    ensures UsedLive(w, w', g)
  {
    if ByTrigger(w, w') {
      var step: TriggerStep :| w' == TriggerNext(w, step);
      TriggerUsesLive(w, step, g);
    } else if ByInbox(w, w') {
      var step: InboxStep :| w' == InboxNext(w, step);
      InboxUsesLive(w, step, g);
    } else if ByOutbox(w, w') {
      var step: OutboxStep :| w' == OutboxNext(w, step);
      OutboxUsesLive(w, step, g);
    } else if ByScan(w, w') {
      var step: ScanStep :| w' == ScanNext(w, step);
      OthersUseNothing(w, step, Clock(0), g);
    } else {
      var step: AdminStep :| w' == AdminNext(w, step);
      OthersUseNothing(w, ScannerDies(0), step, g);
    }
  }

  // ---- Replicas issue these transactions ----

  /** A free sender's claim and its report; a sender keeps exactly the message it claimed until then. */
  lemma SendersExactly(w: World, worker: nat, m: Id, wallNow: int, hour: int, secretKnown: bool, delivered: bool)
    requires worker !in w.senders
    ensures
      var claimed := OutboxNext(w, SenderClaims(worker, m, wallNow, hour, secretKnown));
      && claimed.db == ClaimDelivery(w.db, m, wallNow, hour, secretKnown)
      && (worker in claimed.senders <==> ClaimResult(w.db, m, wallNow, hour, secretKnown).Claims?)
      && (worker in claimed.senders ==>
            && claimed.senders == w.senders[worker := m]
            && var settled := OutboxNext(claimed, SenderSettles(worker, delivered));
               settled.db == Settle(claimed.db, m, delivered) && settled.senders == claimed.senders - {worker})
  {
  }

  /** A scanner's reports are about the message and under the token and attempt it was given. */
  lemma ScannersExactly(w: World, worker: nat)
    requires worker in w.scans
    ensures
      var scan := w.scans[worker];
      var failed, admitted := ScanNext(w, ScannerFails(worker)), ScanNext(w, ScannerAdmits(worker));
      && failed.db == FailScan(w.db, scan.message, scan.token, scan.attempt) && failed.scans == w.scans - {worker}
      && admitted.db == CreateTurn(w.db, scan.message) && admitted.scans == w.scans[worker := scan.(admitted := true)]
      && (scan.admitted ==>
            var completed := ScanNext(w, ScannerCompletes(worker));
            completed.db == CompleteScan(w.db, scan.message, scan.token) && completed.scans == w.scans - {worker})
  {
  }
}
