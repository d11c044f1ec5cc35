/**
 The leased scan queue over whole runs: every claim is accounted for, a claim whose lease runs belongs
 to its holder, one that was taken over is dead for good, and a message records at most five failures
 before it is rejected.
 */
module ChannelScans {
  import opened Wrappers
  import opened ChannelTables
  import opened ChannelWorld

  function FailureCount(journal: seq<Effect>, m: Id): nat { multiset(journal)[ScanFailed(m)] }

  function TakeoverCount(journal: seq<Effect>, m: Id): nat { multiset(journal)[ClaimTakenOver(m)] }

  predicate IsScanEffect(e: Effect) { e.ScanFailed? || e.ClaimTakenOver? }

  /** Claims that are neither failed nor taken over: the current one, or the one that succeeded. */
  function OpenClaims(row: Message): nat { if row.scan in {ScanClaimed, ScanClean} then 1 else 0 }

  /** The account of a message's claims, and how far its failures may have got. */
  ghost predicate ClaimsOk(db: Tables, m: Id) {
    var failures, takeovers := FailureCount(db.journal, m), TakeoverCount(db.journal, m);
    if m in db.messages then
      var row := db.messages[m];
      && row.scanAttempts == failures + takeovers + OpenClaims(row)
      && failures <= MAX_SCAN_ATTEMPTS
      && (row.scan != ScanRejected ==> failures < MAX_SCAN_ATTEMPTS)
      && (row.scan == ScanRejected ==> row.scanAttempts >= MAX_SCAN_ATTEMPTS)
      && (row.scan == ScanClaimed <==> row.scanToken.Some?)
      && (row.direction == Inbound && row.state == Rejected ==> row.scan == ScanRejected)
      && (row.state == Received ==> row.scan != ScanRejected && row.scan != ScanClean)
    else failures == 0 && takeovers == 0
  }

  /** Workers know the attempt they were given, and tokens on rows have been handed out. */
  ghost predicate ClaimantsOk(w: World, m: Id) {
    && (m in w.db.messages && w.db.messages[m].scanToken.Some? ==> w.db.messages[m].scanToken.value in w.tokens)
    && (forall worker | worker in w.scans && w.scans[worker].message == m ::
          && w.scans[worker].token in w.tokens
          && m in w.db.messages
          && (w.scans[worker].admitted ==> w.db.messages[m].state != Received)
          && (w.db.messages[m].scanToken == Some(w.scans[worker].token) ==>
                w.scans[worker].attempt == w.db.messages[m].scanAttempts))
  }

  /** What components other than the scanner may do to a row and to the queue. */
  ghost predicate NoScan(w: World, w': World, m: Id) {
    && w'.scans == w.scans && w'.tokens == w.tokens
    && (w'.db.journal == w.db.journal || exists e: Effect :: w'.db.journal == w.db.journal + [e] && !IsScanEffect(e))
    && (m in w.db.messages ==>
          && m in w'.db.messages
          && var row, row' := w.db.messages[m], w'.db.messages[m];
             && SameClaim(row, row') && row'.direction == row.direction
             && (row'.state == Received ==> row.state == Received)
             && (row.direction == Inbound && row'.state == Rejected ==> row.state == Rejected))
    && (m !in w.db.messages && m in w'.db.messages ==>
          var row' := w'.db.messages[m];
          row'.scan in {NotRequired, ScanPending} && row'.scanToken.None? && row'.scanAttempts == 0 && row'.state != Rejected)
  }

  /** The scan columns of a row are untouched. */
  ghost predicate SameClaim(row: Message, row': Message) {
    && row'.scan == row.scan && row'.scanToken == row.scanToken && row'.scanLease == row.scanLease
    && row'.scanAttempts == row.scanAttempts && row'.nextScan == row.nextScan
  }

  lemma NoScanKeeps(w: World, w': World, m: Id)
    requires ClaimsOk(w.db, m) && ClaimantsOk(w, m) && NoScan(w, w', m)
    ensures ClaimsOk(w'.db, m) && ClaimantsOk(w', m)
  {
  }

  lemma OutcomeDoesNotScan(w: World, w': World, trigger: Id, message: Id, outcome: PassOutcome, m: Id)
    requires trigger in w.db.triggers && message !in w.db.messages
    requires w'.db == Apply(w.db, trigger, message, outcome) && w'.scans == w.scans && w'.tokens == w.tokens
    ensures NoScan(w, w', m)
  {
  }

  lemma TriggerDoesNotScan(w: World, step: TriggerStep, m: Id)
    ensures NoScan(w, TriggerNext(w, step), m)
  {
    if step.PassCommits? && Ready(w, step.worker) && step.message !in w.db.messages {
      var pass := w.passes[step.worker];
      OutcomeDoesNotScan(w, TriggerNext(w, step), pass.trigger, step.message,
                         Outcome(w.db, pass.trigger, pass.txNow, step.wallNow, step.hour), m);
    }
  }

  lemma InboxDoesNotScan(w: World, step: InboxStep, m: Id)
    ensures NoScan(w, InboxNext(w, step), m)
  {
  }

  lemma RecoveryDoesNotScan(w: World, m: Id)
    ensures NoScan(w, OutboxNext(w, ClaimsRecovered), m)
  {
  }

  lemma ClaimDoesNotScan(w: World, step: OutboxStep, m: Id)
    requires step.SenderClaims?
    ensures NoScan(w, OutboxNext(w, step), m)
  {
  }

  lemma OutboxDoesNotScan(w: World, step: OutboxStep, m: Id)
    ensures NoScan(w, OutboxNext(w, step), m)
  {
    match step
    case SenderClaims(_, _, _, _, _) => ClaimDoesNotScan(w, step, m);
    case ClaimsRecovered => RecoveryDoesNotScan(w, m);
    case _ =>
  }

  lemma AdminDoesNotScan(w: World, step: AdminStep, m: Id)
    ensures NoScan(w, AdminNext(w, step), m)
  {
  }

  /** Whatever is not the scanner's doing leaves the queue alone. */
  lemma OnlyScannerScans(w: World, w': World, m: Id)
    requires Follows(w, w') && !ByScan(w, w')
    ensures NoScan(w, w', m)
  {
    if ByTrigger(w, w') {
      var step: TriggerStep :| w' == TriggerNext(w, step);
      TriggerDoesNotScan(w, step, m);
    } else if ByInbox(w, w') {
      var step: InboxStep :| w' == InboxNext(w, step);
      InboxDoesNotScan(w, step, m);
    } else if ByOutbox(w, w') {
      var step: OutboxStep :| w' == OutboxNext(w, step);
      OutboxDoesNotScan(w, step, m);
    } else {
      var step: AdminStep :| w' == AdminNext(w, step);
      AdminDoesNotScan(w, step, m);
    }
  }

  // ---- The account of claims ----

  lemma ScanKeepsClaimants(w: World, step: ScanStep, m: Id)
    requires ClaimantsOk(w, m)
    ensures ClaimantsOk(ScanNext(w, step), m)
  {
  }

  lemma FailureKeepsClaims(db: Tables, message: Id, token: nat, attempt: int, m: Id)
    requires ClaimsOk(db, m)
    requires m == message && m in db.messages && db.messages[m].scanToken == Some(token) ==>
               attempt == db.messages[m].scanAttempts
    ensures ClaimsOk(FailScan(db, message, token, attempt), m)
  {
  }

  lemma ClaimKeepsClaims(db: Tables, message: Id, token: nat, m: Id)
    requires ClaimsOk(db, m) && Scannable(db, message)
    ensures ClaimsOk(ClaimScan(db, message, token), m)
  {
  }

  lemma ScanKeepsClaims(w: World, step: ScanStep, m: Id)
    requires ClaimsOk(w.db, m) && ClaimantsOk(w, m)
    ensures ClaimsOk(ScanNext(w, step).db, m)
  {
    if step.ScannerFails? && step.worker in w.scans {
      var scan := w.scans[step.worker];
      FailureKeepsClaims(w.db, scan.message, scan.token, scan.attempt, m);
    } else if step.ScannerClaims? && Scannable(w.db, step.message) {
      ClaimKeepsClaims(w.db, step.message, step.token, m);
    }
  }

  lemma FollowsKeepsScans(w: World, w': World, m: Id)
    requires Follows(w, w') && ClaimsOk(w.db, m) && ClaimantsOk(w, m)
    ensures ClaimsOk(w'.db, m) && ClaimantsOk(w', m)
  {
    if ByScan(w, w') {
      var step: ScanStep :| w' == ScanNext(w, step);
      ScanKeepsClaimants(w, step, m);
      ScanKeepsClaims(w, step, m);
    } else {
      OnlyScannerScans(w, w', m);
      NoScanKeeps(w, w', m);
    }
  }

  lemma {:induction false} ScansKept(run: seq<World>, m: Id)
    requires IsRun(run) && Starting(run[0]) && run[0].db.messages == map[]
    ensures ClaimsOk(run[|run| - 1].db, m) && ClaimantsOk(run[|run| - 1], m)
    decreases |run|
  {
    if |run| > 1 {
      RunEndsWithAStep(run);
      ScansKept(run[..|run| - 1], m);
      FollowsKeepsScans(run[|run| - 2], run[|run| - 1], m);
    }
  }

  /** From an empty message table: at most five failures are ever recorded for a message, fewer than
      five while it is still waiting, however many claims expired in between, and an inbound message
      is rejected only after five claims. */
  lemma FailureLaw(run: seq<World>, m: Id)
    requires IsRun(run) && Starting(run[0]) && run[0].db.messages == map[]
    ensures var db := run[|run| - 1].db;
      && FailureCount(db.journal, m) <= MAX_SCAN_ATTEMPTS
      && (m in db.messages && db.messages[m].state == Received ==> FailureCount(db.journal, m) < MAX_SCAN_ATTEMPTS)
      && (m in db.messages && db.messages[m].direction == Inbound && db.messages[m].state == Rejected ==>
            db.messages[m].scanAttempts >= MAX_SCAN_ATTEMPTS)
  {
    ScansKept(run, m);
  }

  /** Every claim failed, was taken over, is current or succeeded. So claims pass five exactly when
      failures and takeovers do, and never as long as no claim was taken over. */
  lemma ClaimsLaw(run: seq<World>, m: Id)
    requires IsRun(run) && Starting(run[0]) && run[0].db.messages == map[] && m in run[|run| - 1].db.messages
    ensures
      var db := run[|run| - 1].db;
      var row, failures, takeovers := db.messages[m], FailureCount(db.journal, m), TakeoverCount(db.journal, m);
      && row.scanAttempts == failures + takeovers + OpenClaims(row)
      && (takeovers == 0 ==> row.scanAttempts <= MAX_SCAN_ATTEMPTS)
  {
    ScansKept(run, m);
  }

  // ---- Claims are not bounded ----

  const EMPTY_SERVICE: World := World(Tables(map[], map[], map[], map[], map[], 0, []), map[], map[], map[], {}, {})

  /** The message was claimed `n` times, the lease of the last claim has run out and its worker is gone. */
  ghost predicate Expired(w: World, n: nat) {
    && w.scans == map[] && (forall t | t in w.tokens :: t < n)
    && 0 in w.db.messages
    && var row := w.db.messages[0];
       && row.direction == Inbound && row.state == Received && row.scanAttempts == n
       && if n == 0 then row.scan == ScanPending && row.nextScan == Some(w.db.now)
          else row.scan == ScanClaimed && row.scanLease == Some(w.db.now)
  }

  lemma ClaimDiesAndExpires(w: World, n: nat) returns (run: seq<World>)
    requires Expired(w, n)
    ensures IsRun(run) && run[0] == w && Expired(run[|run| - 1], n + 1)
  {
    var claimed := ScanNext(w, ScannerClaims(0, 0, n));
    var dead := ScanNext(claimed, ScannerDies(0));
    var later := AdminNext(dead, Clock(dead.db.now + SCAN_LEASE));
    assert ByScan(w, claimed) && ByScan(claimed, dead) && ByAdmin(dead, later);
    run := [w, claimed, dead, later];
  }

  lemma RunsJoin(a: seq<World>, b: seq<World>)
    requires IsRun(a) && IsRun(b) && a[|a| - 1] == b[0]
    ensures IsRun(a + b[1..]) && (a + b[1..])[|a + b[1..]| - 1] == b[|b| - 1]
  {
    var run := a + b[1..];
    forall i | 0 < i < |run| ensures Follows(run[i - 1], run[i]) {
      if i < |a| {
        assert Follows(a[i - 1], a[i]);
      } else {
        assert Follows(b[i - |a|], b[i - |a| + 1]);
      }
    }
  }

  /** Workers that die under their claims are not counted against a message: for every `n` there is a
      run in which it has been claimed `n` times, six included, without a single recorded failure. */
  lemma {:induction false} ClaimsAreUnbounded(n: nat) returns (run: seq<World>)
    ensures IsRun(run) && run[0] == EMPTY_SERVICE && Expired(run[|run| - 1], n)
    ensures run[|run| - 1].db.messages[0].state == Received && run[|run| - 1].db.messages[0].scanAttempts == n
  {
    if n == 0 {
      var arrived := InboxNext(EMPTY_SERVICE, SlackEvent(0, "", true, 0));
      assert ByInbox(EMPTY_SERVICE, arrived);
      run := [EMPTY_SERVICE, arrived];
    } else {
      var before := ClaimsAreUnbounded(n - 1);
      var round := ClaimDiesAndExpires(before[|before| - 1], n - 1);
      RunsJoin(before, round);
      run := before + round[1..];
    }
  }

  // ---- A claim that was taken over ----

  /** The token was handed out and the row no longer carries it. */
  ghost predicate Superseded(w: World, m: Id, token: nat) {
    token in w.tokens && m in w.db.messages && w.db.messages[m].scanToken != Some(token)
  }

  lemma ScanKeepsSuperseded(w: World, step: ScanStep, m: Id, token: nat)
    requires Superseded(w, m, token)
    ensures Superseded(ScanNext(w, step), m, token)
  {
  }

  /** Once another claim replaced it, a worker's report has no effect on the message, whenever it
      comes: neither scan state nor claim, lease, retry time or message state changes. */
  lemma {:induction false} SupersededClaimIsDead(run: seq<World>, m: Id, token: nat, attempt: int)
    requires IsRun(run) && Superseded(run[0], m, token)
    ensures var w := run[|run| - 1];
      && Superseded(w, m, token)
      && CompleteScan(w.db, m, token) == w.db
      && FailScan(w.db, m, token, attempt) == w.db
    decreases |run|
  {
    if |run| > 1 {
      var before, last := run[|run| - 2], run[|run| - 1];
      RunEndsWithAStep(run);
      SupersededClaimIsDead(run[..|run| - 1], m, token, attempt);
      if ByScan(before, last) {
        var step: ScanStep :| last == ScanNext(before, step);
        ScanKeepsSuperseded(before, step, m, token);
      } else {
        OnlyScannerScans(before, last, m);
      }
    }
  }

  /** A fresh claim supersedes the one before it. */
  lemma NewClaimSupersedes(w: World, worker: nat, m: Id, token: nat, stale: nat)
    requires Scannable(w.db, m) && worker !in w.scans && token !in w.tokens && stale in w.tokens
    ensures Superseded(ScanNext(w, ScannerClaims(worker, m, token)), m, stale)
  {
  }

  /** What a worker can still do after its claim was taken over: create the turn of a message that has
      none, and nothing else. From then on the new holder's failures are not recorded either. */
  lemma StaleScannerMayAdmit(w: World, worker: nat, token: nat, attempt: int)
    requires worker in w.scans && Superseded(w, w.scans[worker].message, w.scans[worker].token)
    ensures
      var m, w' := w.scans[worker].message, ScanNext(w, ScannerAdmits(worker));
      var row, row' := w.db.messages[m], w'.db.messages[m];
      && row' == row.(state := if row.state == Received then TurnCreated else row.state,
                      updated := if row.state == Received then w.db.now else row.updated)
      && w'.db == w.db.(messages := w.db.messages[m := row'])
      && FailScan(w'.db, m, token, attempt) == w'.db
  {
  }

  /** And it does happen: a claim expires, another worker takes it over, and the first one creates the
      turn while the second holds the claim. */
  lemma StaleScannerAdmits() returns (run: seq<World>)
    ensures IsRun(run) && run[0] == EMPTY_SERVICE && |run| >= 2
    ensures
      var before, after := run[|run| - 2], run[|run| - 1];
      && 1 in before.scans && 2 in before.scans
      && before.scans[1].message == before.scans[2].message == 0 && Superseded(before, 0, before.scans[1].token)
      && 0 in before.db.messages && before.db.messages[0].scanToken == Some(before.scans[2].token)
      && before.db.messages[0].state == Received
      && after == ScanNext(before, ScannerAdmits(1))
      && 0 in after.db.messages && after.db.messages[0].state == TurnCreated
  {
    run := TakeoverHappens();
    var before := run[|run| - 1];
    var after := ScanNext(before, ScannerAdmits(1));
    assert ByScan(before, after);
    RunGoesOn(run, after);
    run := run + [after];
  }

  /** The first worker has its claim, and it has expired. */
  ghost predicate FirstExpired(w: World) {
    && w.scans == map[1 := Scan(0, 10, 1, false)] && w.tokens == {10} && 0 in w.db.messages
    && var row := w.db.messages[0];
       && row.direction == Inbound && row.state == Received && row.scan == ScanClaimed && row.scanAttempts == 1
       && row.scanLease == Some(w.db.now)
  }

  lemma FirstClaimExpires(w: World) returns (run: seq<World>)
    requires Expired(w, 0)
    ensures IsRun(run) && run[0] == w && FirstExpired(run[|run| - 1])
  {
    var first := ScanNext(w, ScannerClaims(1, 0, 10));
    var later := AdminNext(first, Clock(first.db.now + SCAN_LEASE));
    assert ByScan(w, first) && ByAdmin(first, later);
    run := [w, first, later];
  }

  lemma TakeoverHappens() returns (run: seq<World>)
    ensures IsRun(run) && run[0] == EMPTY_SERVICE
    ensures
      var w := run[|run| - 1];
      && w.scans == map[1 := Scan(0, 10, 1, false), 2 := Scan(0, 20, 2, false)] && 10 in w.tokens
      && 0 in w.db.messages && w.db.messages[0].scanToken == Some(20) && w.db.messages[0].state == Received
  {
    var arrival := ClaimsAreUnbounded(0);
    var claim := FirstClaimExpires(arrival[|arrival| - 1]);
    RunsJoin(arrival, claim);
    run := arrival + claim[1..];
    var before := run[|run| - 1];
    assert FirstExpired(before);
    var after := ScanNext(before, ScannerClaims(2, 0, 20));
    assert ByScan(before, after);
    RunGoesOn(run, after);
    run := run + [after];
  }

  // ---- A claim whose lease runs ----

  /** A worker holding this claim reports that it completed or failed. */
  ghost predicate Reports(w: World, w': World, worker: nat, m: Id, token: nat) {
    && worker in w.scans && w.scans[worker].message == m && w.scans[worker].token == token
    && (w' == ScanNext(w, ScannerCompletes(worker)) || w' == ScanNext(w, ScannerFails(worker)))
  }

  ghost predicate HolderReports(w: World, w': World, m: Id, token: nat) {
    exists worker :: Reports(w, w', worker, m, token)
  }

  /** The claim with this token and lease is on the row. */
  ghost predicate Holding(w: World, m: Id, token: nat, lease: int) {
    && m in w.db.messages && w.db.messages[m].scan == ScanClaimed
    && w.db.messages[m].scanToken == Some(token) && w.db.messages[m].scanLease == Some(lease)
  }

  /** A report under another token, or about another message, leaves this row alone. */
  lemma OtherReportsMiss(db: Tables, message: Id, token: nat, attempt: int, m: Id)
    requires m in db.messages && !(message == m && db.messages[m].scanToken == Some(token))
    ensures m in CompleteScan(db, message, token).messages && m in FailScan(db, message, token, attempt).messages
    ensures CompleteScan(db, message, token).messages[m] == db.messages[m]
    ensures FailScan(db, message, token, attempt).messages[m] == db.messages[m]
  {
  }

  lemma ScannerRespectsLease(w: World, step: ScanStep, m: Id, token: nat, lease: int)
    requires Holding(w, m, token, lease) && w.db.now < lease
    ensures HolderReports(w, ScanNext(w, step), m, token)
         || (m in ScanNext(w, step).db.messages && SameClaim(w.db.messages[m], ScanNext(w, step).db.messages[m]))
  {
    if step.ScannerClaims? {
      assert !Scannable(w.db, m);
    } else if (step.ScannerCompletes? || step.ScannerFails?) && step.worker in w.scans {
      var scan := w.scans[step.worker];
      if scan.message == m && scan.token == token {
        assert Reports(w, ScanNext(w, step), step.worker, m, token);
      } else {
        OtherReportsMiss(w.db, scan.message, scan.token, scan.attempt, m);
      }
    }
  }

  lemma StepRespectsLease(w: World, w': World, m: Id, token: nat, lease: int)
    requires Follows(w, w') && Holding(w, m, token, lease) && w.db.now < lease
    ensures HolderReports(w, w', m, token) || (m in w'.db.messages && SameClaim(w.db.messages[m], w'.db.messages[m]))
  {
    if ByScan(w, w') {
      var step: ScanStep :| w' == ScanNext(w, step);
      ScannerRespectsLease(w, step, m, token, lease);
    } else {
      OnlyScannerScans(w, w', m);
    }
  }

  /** Before every step of the run the lease still ran, and no step was a report of the claim's holder. */
  ghost predicate Unreported(run: seq<World>, m: Id, token: nat, lease: int) {
    |run| > 1 ==>
      && Unreported(run[..|run| - 1], m, token, lease)
      && run[|run| - 2].db.now < lease && !HolderReports(run[|run| - 2], run[|run| - 1], m, token)
  }

  /** Over a run in which its lease does not run out and its holder does not report, a claim stays as
      it is; the holder's death, and whatever anybody else does, changes nothing. */
  lemma {:induction false} LeaseProtects(run: seq<World>, m: Id, token: nat, lease: int)
    requires IsRun(run) && Holding(run[0], m, token, lease) && Unreported(run, m, token, lease)
    ensures m in run[|run| - 1].db.messages && SameClaim(run[0].db.messages[m], run[|run| - 1].db.messages[m])
    decreases |run|
  {
    if |run| > 1 {
      RunEndsWithAStep(run);
      LeaseProtects(run[..|run| - 1], m, token, lease);
      StepRespectsLease(run[|run| - 2], run[|run| - 1], m, token, lease);
    }
  }
}
