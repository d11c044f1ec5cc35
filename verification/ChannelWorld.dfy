/**
 Any number of replicas of the channel service over one database. A transaction whose guards are
 all re-evaluated by its own statements is one step; the trigger pass selects first and commits
 later, so that grants can be used up or revoked in between. Replicas may die at any time
 (`PassDies`, `SenderDies`, `ScannerDies`). A step that is not enabled changes nothing.
 */
module ChannelWorld {
  import opened Wrappers
  import opened ChannelTables

  /** A worker inside a trigger pass: it holds the row lock, or it has rolled back and will pause
      the trigger in a statement of its own. */
  datatype Pass = Firing(trigger: Id, txNow: int) | Pausing(trigger: Id)

  /** A worker scanning a message; `admitted` once it has created the turn. */
  datatype Scan = Scan(message: Id, token: nat, attempt: int, admitted: bool)

  datatype World = World(
    db: Tables,
    passes: map<nat, Pass>,
    senders: map<nat, Id>,
    scans: map<nat, Scan>,
    // History: claim tokens ever used, usage windows ever swept away.
    tokens: set<nat>,
    swept: set<(Id, int)>)

  datatype TriggerStep =
    | PassSelects(worker: nat, trigger: Id)
    | PassCommits(worker: nat, wallNow: int, hour: int, message: Id)
    | PassPauses(worker: nat)
    | PassDies(worker: nat)
    | UsageSwept

  datatype InboxStep =
    | ConnectorEvent(trigger: Id, event: string, message: Id)
    | SlackEvent(binding: Id, event: string, attachments: bool, message: Id)
    | Credential(binding: Id, grant: Id, operation: Operation, secretKnown: bool)
    | TurnAdmitted(message: Id)

  datatype OutboxStep =
    | ReplyEnqueued(inbound: Id, grant: Id, message: Id)
    | ClaimsRecovered
    | SenderClaims(worker: nat, message: Id, wallNow: int, hour: int, secretKnown: bool)
    | SenderSettles(worker: nat, delivered: bool)
    | SenderDies(worker: nat)

  datatype ScanStep =
    | ScannerClaims(worker: nat, message: Id, token: nat)
    | ScannerAdmits(worker: nat)
    | ScannerCompletes(worker: nat)
    | ScannerFails(worker: nat)
    | ScannerDies(worker: nat)

  datatype AdminStep =
    | TriggerSet(trigger: Id, active: bool)
    | GrantRevoked(grant: Id)
    | BindingRevoked(binding: Id)
    | Clock(time: int)

  predicate RowLocked(w: World, trigger: Id) {
    exists worker | worker in w.passes :: w.passes[worker].Firing? && w.passes[worker].trigger == trigger
  }

  predicate Selectable(db: Tables, id: Id) {
    && id in db.triggers && db.triggers[id].binding in db.bindings
    && db.triggers[id].active && db.triggers[id].nextFire <= db.now
    && !db.bindings[db.triggers[id].binding].revoked
    && (db.triggers[id].kind.Scheduled? || CanUse(db.grants, db.triggers[id].grant, TriggersFire, db.now))
  }

  function SetActive(db: Tables, id: Id, active: bool): Tables {
    if id in db.triggers then db.(triggers := db.triggers[id := db.triggers[id].(active := active)]) else db
  }

  predicate Ready(w: World, worker: nat) {
    && worker in w.passes && w.passes[worker].Firing?
    && w.passes[worker].trigger in w.db.triggers
    && w.db.triggers[w.passes[worker].trigger].binding in w.db.bindings
  }

  function CommitPass(w: World, worker: nat, wallNow: int, hour: int, message: Id): World
    requires Ready(w, worker)
  {
    var pass := w.passes[worker];
    var outcome := Outcome(w.db, pass.trigger, pass.txNow, wallNow, hour);
    w.(db := Apply(w.db, pass.trigger, message, outcome),
       passes := if outcome.LosesGrant? then w.passes[worker := Pausing(pass.trigger)] else w.passes - {worker})
  }

  function TriggerNext(w: World, step: TriggerStep): World {
    match step
    case PassSelects(worker, trigger) =>
      if worker !in w.passes && !RowLocked(w, trigger) && Selectable(w.db, trigger)
      then w.(passes := w.passes[worker := Firing(trigger, w.db.now)]) else w
    case PassCommits(worker, wallNow, hour, message) =>
      if Ready(w, worker) && message !in w.db.messages then CommitPass(w, worker, wallNow, hour, message) else w
    case PassPauses(worker) =>
      if worker in w.passes && w.passes[worker].Pausing? && !RowLocked(w, w.passes[worker].trigger)
      then w.(db := SetActive(w.db, w.passes[worker].trigger, false), passes := w.passes - {worker}) else w
    case PassDies(worker) => w.(passes := w.passes - {worker})
    case UsageSwept => w.(db := SweepUsage(w.db), swept := w.swept + (w.db.usage.Keys - SweepUsage(w.db).usage.Keys))
  }

  function InboxNext(w: World, step: InboxStep): World {
    var db := w.db;
    w.(db := match step
    case ConnectorEvent(trigger, event, message) =>
      if trigger in db.triggers && message !in db.messages
      then AdmitEvent(db, db.triggers[trigger].binding, ConnectorKey(trigger, event), db.triggers[trigger].grant, message)
      else db
    case SlackEvent(binding, event, attachments, message) =>
      if message !in db.messages then AdmitChannelMessage(db, binding, event, attachments, message) else db
    case Credential(binding, grant, operation, secretKnown) =>
      IssueCredential(db, binding, Some(grant), operation, secretKnown)
    // Messages with attachments get their turn from a scanner.
    case TurnAdmitted(message) =>
      if message in db.messages && db.messages[message].scan == NotRequired then CreateTurn(db, message) else db)
  }

  function OutboxNext(w: World, step: OutboxStep): World {
    match step
    case ReplyEnqueued(inbound, grant, message) =>
      if message !in w.db.messages then w.(db := EnqueueReply(w.db, inbound, grant, message)) else w
    case ClaimsRecovered => w.(db := RecoverClaims(w.db))
    case SenderClaims(worker, message, wallNow, hour, secretKnown) =>
      if worker in w.senders then w
      else w.(db := ClaimDelivery(w.db, message, wallNow, hour, secretKnown),
              senders := if ClaimResult(w.db, message, wallNow, hour, secretKnown).Claims?
                         then w.senders[worker := message] else w.senders)
    case SenderSettles(worker, delivered) =>
      if worker in w.senders
      then w.(db := Settle(w.db, w.senders[worker], delivered), senders := w.senders - {worker}) else w
    case SenderDies(worker) => w.(senders := w.senders - {worker})
  }

  function ScanNext(w: World, step: ScanStep): World {
    match step
    case ScannerClaims(worker, message, token) =>
      if worker !in w.scans && token !in w.tokens && Scannable(w.db, message)
      then w.(db := ClaimScan(w.db, message, token), tokens := w.tokens + {token},
              scans := w.scans[worker := Scan(message, token, w.db.messages[message].scanAttempts + 1, false)])
      else w
    // The turn is created without a look at the claim.
    case ScannerAdmits(worker) =>
      if worker in w.scans
      then w.(db := CreateTurn(w.db, w.scans[worker].message), scans := w.scans[worker := w.scans[worker].(admitted := true)])
      else w
    case ScannerCompletes(worker) =>
      if worker in w.scans && w.scans[worker].admitted
      then w.(db := CompleteScan(w.db, w.scans[worker].message, w.scans[worker].token), scans := w.scans - {worker}) else w
    case ScannerFails(worker) =>
      if worker in w.scans
      then w.(db := FailScan(w.db, w.scans[worker].message, w.scans[worker].token, w.scans[worker].attempt),
              scans := w.scans - {worker})
      else w
    case ScannerDies(worker) => w.(scans := w.scans - {worker})
  }

  function AdminNext(w: World, step: AdminStep): World {
    match step
    case TriggerSet(trigger, active) =>
      if RowLocked(w, trigger) then w else w.(db := SetActive(w.db, trigger, active))
    case GrantRevoked(grant) =>
      if grant in w.db.grants
      then w.(db := w.db.(grants := w.db.grants[grant := w.db.grants[grant].(revoked := true)])) else w
    case BindingRevoked(binding) =>
      if binding in w.db.bindings
      then w.(db := w.db.(bindings := w.db.bindings[binding := w.db.bindings[binding].(revoked := true)])) else w
    case Clock(time) => if time >= w.db.now then w.(db := w.db.(now := time)) else w
  }

  ghost predicate ByTrigger(w: World, w': World) { exists step: TriggerStep :: w' == TriggerNext(w, step) }

  ghost predicate ByInbox(w: World, w': World) { exists step: InboxStep :: w' == InboxNext(w, step) }

  ghost predicate ByOutbox(w: World, w': World) { exists step: OutboxStep :: w' == OutboxNext(w, step) }

  ghost predicate ByScan(w: World, w': World) { exists step: ScanStep :: w' == ScanNext(w, step) }

  ghost predicate ByAdmin(w: World, w': World) { exists step: AdminStep :: w' == AdminNext(w, step) }

  /** One step of any replica, or of an administrator, or of time. */
  ghost predicate Follows(w: World, w': World) {
    ByTrigger(w, w') || ByInbox(w, w') || ByOutbox(w, w') || ByScan(w, w') || ByAdmin(w, w')
  }

  /** A run: any worlds that follow one another. */
  ghost predicate IsRun(run: seq<World>) {
    |run| > 0 && forall i | 0 < i < |run| :: Follows(run[i - 1], run[i])
  }

  /** A run without its last step is a run. */
  lemma RunEndsWithAStep(run: seq<World>)
    requires IsRun(run) && |run| > 1
    ensures IsRun(run[..|run| - 1]) && Follows(run[|run| - 2], run[|run| - 1])
  {
    var init := run[..|run| - 1];
    forall i | 0 < i < |init| ensures Follows(init[i - 1], init[i]) {
      assert Follows(run[i - 1], run[i]);
    }
  }

  /** A run goes on with any step. */
  lemma RunGoesOn(run: seq<World>, w: World)
    requires IsRun(run) && Follows(run[|run| - 1], w)
    ensures IsRun(run + [w])
  {
  }

  /** A service starting over a database: no worker is at anything and no effect is recorded. */
  ghost predicate Starting(w: World) {
    w.passes == map[] && w.senders == map[] && w.scans == map[] && w.swept == {} && w.db.journal == []
  }
}
