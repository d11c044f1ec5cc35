/**
 The rows of the channel service and what one transaction does to them. Tables are maps, `journal`
 is the history of committed effects that the laws about counters are stated over. `now` is the
 database clock in nanoseconds.
 */
module ChannelTables {
  import opened Wrappers
  import opened TriggerSchedule

  type Id = nat

  const MAX_TEXT_BYTES: nat := 64 * 1024
  const MAX_DELIVERY_CLAIMS: int := 10
  const MAX_SCAN_ATTEMPTS: int := 5
  const DELIVERY_CLAIM_AGE: int := 120 * SECOND
  const QUIET_DELAY: int := 15 * 60 * SECOND
  const SCAN_LEASE: int := 5 * 60 * SECOND
  const USAGE_RETENTION: int := 90 * 24 * 60 * 60

  datatype Binding = Binding(revoked: bool, destinations: set<string>, quietStart: int, quietEnd: int)

  predicate InQuietHours(b: Binding, hour: int) {
    || (b.quietStart <= b.quietEnd && b.quietStart <= hour < b.quietEnd)
    || (b.quietStart > b.quietEnd && (hour >= b.quietStart || hour < b.quietEnd))
  }

  datatype Operation = EventsReceive | TriggersFire | PostMessage | FilesDownload

  datatype Grant = Grant(
    binding: Id,
    slackApi: bool,
    operations: set<Operation>,
    revoked: bool,
    expires: int,
    useCount: int,
    maximumUses: int)

  datatype Budget = Budget(
    windowSeconds: int,
    maximumFires: int,
    maximumTurns: int,
    maximumTokens: int,
    maximumCost: int,
    tokensPerFire: int,
    costPerFire: int)
  {
    predicate Valid() {
      && 60 <= windowSeconds <= 86400
      && maximumFires > 0 && maximumTurns > 0
      && 0 <= tokensPerFire <= maximumTokens
      && 0 <= costPerFire <= maximumCost
    }
  }

  datatype Usage = Usage(fires: int, turns: int, tokens: int, cost: int)

  datatype TriggerKind = Scheduled | ByConnector

  /** `content` is the destination and text of the schedule, when it has both. */
  datatype Trigger = Trigger(
    binding: Id,
    kind: TriggerKind,
    grant: Option<Id>,
    interval: Option<int>,
    content: Option<(string, string)>,
    budget: Option<Budget>,
    maxDelay: int,
    policy: Policy,
    maxCatchUp: int,
    active: bool,
    nextFire: int,
    fireCount: int,
    skippedCount: int,
    misfireCount: int)

  /** The external event id of a message; the formatted texts are taken to be unambiguous. */
  datatype EventKey =
    | TriggerKey(trigger: Id, second: int)
    | ConnectorKey(connector: Id, event: string)
    | ChannelKey(event: string)
    | ReplyKey(of: EventKey)

  datatype Direction = Inbound | Outbound

  datatype MessageState = Received | TurnCreated | Rejected | PendingDelivery | Sending | Failed | Delivered

  datatype ScanState = NotRequired | ScanPending | ScanClaimed | ScanClean | ScanRejected

  datatype Message = Message(
    binding: Id,
    key: EventKey,
    direction: Direction,
    state: MessageState,
    grant: Option<Id>,
    attempts: int,
    updated: int,
    nextAttempt: Option<int>,
    scan: ScanState,
    scanToken: Option<nat>,
    scanLease: Option<int>,
    scanAttempts: int,
    nextScan: Option<int>)

  function InboundMessage(binding: Id, key: EventKey, now: int, attachments: bool): Message {
    Message(binding, key, Inbound, Received, None, 0, now, None,
            if attachments then ScanPending else NotRequired, None, None, 0, if attachments then Some(now) else None)
  }

  function ReplyMessage(inbound: Message, grant: Id, now: int): Message {
    Message(inbound.binding, ReplyKey(inbound.key), Outbound, PendingDelivery, Some(grant), 0, now, None,
            NotRequired, None, None, 0, None)
  }

  /** What committed transactions did, in commit order. */
  datatype Effect =
    | Fired(trigger: Id, second: int, window: int, grant: Option<Id>)
    | EventAdmitted(grant: Option<Id>, message: Id)
    | CredentialIssued(grant: Option<Id>)
    | DeliveryClaimed(grant: Option<Id>, message: Id)
    | ScanFailed(message: Id)
    | ClaimTakenOver(message: Id)

  datatype Tables = Tables(
    bindings: map<Id, Binding>,
    triggers: map<Id, Trigger>,
    usage: map<(Id, int), Usage>,
    grants: map<Id, Grant>,
    messages: map<Id, Message>,
    now: int,
    journal: seq<Effect>)

  /** The unique index over binding, external event id and direction. */
  predicate KeyTaken(messages: map<Id, Message>, binding: Id, key: EventKey, direction: Direction) {
    exists m | m in messages ::
      messages[m].binding == binding && messages[m].key == key && messages[m].direction == direction
  }

  predicate CanUse(grants: map<Id, Grant>, grant: Option<Id>, operation: Operation, now: int) {
    && grant.Some? && grant.value in grants
    && !grants[grant.value].revoked
    && grants[grant.value].expires > now
    && grants[grant.value].useCount < grants[grant.value].maximumUses
    && operation in grants[grant.value].operations
  }

  function Used(grants: map<Id, Grant>, grant: Option<Id>): map<Id, Grant> {
    if grant.Some? && grant.value in grants
    then grants[grant.value := grants[grant.value].(useCount := grants[grant.value].useCount + 1)]
    else grants
  }

  // ---- The trigger pass ----

  /** Window starts are whole seconds since the epoch, aligned to the window length. */
  function WindowStart(now: int, windowSeconds: int): int
    requires windowSeconds > 0
  {
    now / (windowSeconds * SECOND) * windowSeconds
  }

  /** The upsert of a usage row: a first fire is not compared with the maxima, a later one is. */
  function Reserve(row: Option<Usage>, b: Budget): Option<Usage> {
    match row
    case None => Some(Usage(1, 1, b.tokensPerFire, b.costPerFire))
    case Some(u) =>
      if u.fires + 1 <= b.maximumFires && u.turns + 1 <= b.maximumTurns
         && u.tokens + b.tokensPerFire <= b.maximumTokens && u.cost + b.costPerFire <= b.maximumCost
      then Some(Usage(u.fires + 1, u.turns + 1, u.tokens + b.tokensPerFire, u.cost + b.costPerFire))
      else None
  }

  datatype PassOutcome =
    | Pauses
    | Advances(next: int, skipped: int)
    | Fires(second: int, next: int, skipped: int, window: int, usage: Usage)
    | LosesGrant
    | IsDuplicate

  /** From the budget on: what a pass with an admissible message comes to. */
  function FiringOutcome(db: Tables, id: Id, txNow: int, effectiveDue: int, next: int, skipped: int): PassOutcome
    requires id in db.triggers && db.triggers[id].budget.Some? && db.triggers[id].budget.value.Valid()
  {
    var t := db.triggers[id];
    var window := WindowStart(txNow, t.budget.value.windowSeconds);
    var reserved := Reserve(Lookup(db.usage, (id, window)), t.budget.value);
    var second := effectiveDue / SECOND;
    if reserved.None? then Pauses
    else if t.kind.ByConnector? && !CanUse(db.grants, t.grant, TriggersFire, txNow) then LosesGrant
    else if KeyTaken(db.messages, t.binding, TriggerKey(id, second), Inbound) then IsDuplicate
    else Fires(second, next, skipped, window, reserved.value)
  }

  /** What a pass over a locked trigger row comes to. `txNow` is the transaction's time stamp,
      `wallNow` and `hour` are the service's own clock readings. */
  function Outcome(db: Tables, id: Id, txNow: int, wallNow: int, hour: int): PassOutcome
    requires id in db.triggers && db.triggers[id].binding in db.bindings
  {
    var t := db.triggers[id];
    if t.interval.None? then Pauses
    else
      match Decide(t.nextFire, wallNow, t.interval.value, t.maxDelay, t.policy, t.maxCatchUp)
      case None => Pauses
      case Some(Skip(next, skipped)) => Advances(next, skipped)
      case Some(Fire(effectiveDue, next, skipped)) =>
        if t.content.None? || |t.content.value.1| > MAX_TEXT_BYTES then Pauses
        else if t.content.value.0 !in db.bindings[t.binding].destinations || InQuietHours(db.bindings[t.binding], hour)
        then Advances(next, skipped + 1)
        else if t.budget.None? || !t.budget.value.Valid() then Pauses
        else FiringOutcome(db, id, txNow, effectiveDue, next, skipped)
  }

  /** The grant a fire of this trigger consumes. */
  function FiringGrant(t: Trigger): Option<Id> {
    if t.kind.ByConnector? then t.grant else None
  }

  /** A pass commits all of its effects or none of them. */
  function Apply(db: Tables, id: Id, message: Id, outcome: PassOutcome): Tables
    requires id in db.triggers
  {
    var t := db.triggers[id];
    match outcome
    case Pauses => db.(triggers := db.triggers[id := t.(active := false)])
    case Advances(next, skipped) =>
      db.(triggers := db.triggers[id := t.(nextFire := next, skippedCount := t.skippedCount + skipped,
                                           misfireCount := t.misfireCount + 1)])
    case Fires(second, next, skipped, window, usage) =>
      db.(triggers := db.triggers[id := t.(nextFire := next, fireCount := t.fireCount + 1,
                                           skippedCount := t.skippedCount + skipped,
                                           misfireCount := t.misfireCount + (if skipped > 0 then 1 else 0))],
          usage := db.usage[(id, window) := usage],
          grants := Used(db.grants, FiringGrant(t)),
          messages := db.messages[message := InboundMessage(t.binding, TriggerKey(id, second), db.now, false)],
          journal := db.journal + [Fired(id, second, window, FiringGrant(t))])
    case LosesGrant => db
    case IsDuplicate => db
  }

  // ---- Inbound events, credentials, turns ----

  /** One connector event: a new message and one use of the trigger's grant, or neither. */
  function AdmitEvent(db: Tables, binding: Id, key: EventKey, grant: Option<Id>, message: Id): Tables {
    if KeyTaken(db.messages, binding, key, Inbound) || !CanUse(db.grants, grant, EventsReceive, db.now) then db
    else db.(messages := db.messages[message := InboundMessage(binding, key, db.now, false)],
             grants := Used(db.grants, grant),
             journal := db.journal + [EventAdmitted(grant, message)])
  }

  function AdmitChannelMessage(db: Tables, binding: Id, event: string, attachments: bool, message: Id): Tables {
    if KeyTaken(db.messages, binding, ChannelKey(event), Inbound) then db
    else db.(messages := db.messages[message := InboundMessage(binding, ChannelKey(event), db.now, attachments)])
  }

  /** A live grant's secret is handed out once its use is committed; a missing secret rolls back. */
  function IssueCredential(db: Tables, binding: Id, grant: Option<Id>, operation: Operation, secretKnown: bool): Tables {
    if CanUse(db.grants, grant, operation, db.now) && db.grants[grant.value].binding == binding
       && db.grants[grant.value].slackApi && secretKnown
    then db.(grants := Used(db.grants, grant), journal := db.journal + [CredentialIssued(grant)])
    else db
  }

  function Rewrite(db: Tables, message: Id, row: Message): Tables {
    db.(messages := db.messages[message := row])
  }

  function CreateTurn(db: Tables, message: Id): Tables {
    if message in db.messages && db.messages[message].state == Received
    then Rewrite(db, message, db.messages[message].(state := TurnCreated, updated := db.now))
    else db
  }

  // ---- The outbox ----

  function EnqueueReply(db: Tables, inbound: Id, grant: Id, message: Id): Tables {
    if && inbound in db.messages && db.messages[inbound].direction == Inbound && db.messages[inbound].state == TurnCreated
       && CanUse(db.grants, Some(grant), PostMessage, db.now)
       && db.grants[grant].binding == db.messages[inbound].binding && db.grants[grant].slackApi
       && !KeyTaken(db.messages, db.messages[inbound].binding, ReplyKey(db.messages[inbound].key), Outbound)
    then Rewrite(db, message, ReplyMessage(db.messages[inbound], grant, db.now))
    else db
  }

  predicate Abandoned(db: Tables, row: Message) {
    row.direction == Outbound && row.state == Sending && row.updated < db.now - DELIVERY_CLAIM_AGE
  }

  /** Messages whose sender has not reported for two minutes go back to the queue. */
  function RecoverClaims(db: Tables): Tables {
    db.(messages := map m | m in db.messages ::
          if Abandoned(db, db.messages[m])
          then db.messages[m].(state := Failed, nextAttempt := Some(db.now), updated := db.now)
          else db.messages[m])
  }

  datatype ClaimOutcome = NotClaimable | Refused | Deferred | Claims

  function ClaimResult(db: Tables, message: Id, wallNow: int, hour: int, secretKnown: bool): ClaimOutcome {
    if message !in db.messages then NotClaimable
    else
      var row := db.messages[message];
      if row.direction != Outbound || row.state !in {PendingDelivery, Failed}
         || (row.nextAttempt.Some? && row.nextAttempt.value > db.now)
         || row.binding !in db.bindings || row.grant.None? || row.grant.value !in db.grants
      then NotClaimable
      else if db.bindings[row.binding].revoked || row.attempts >= MAX_DELIVERY_CLAIMS then Refused
      else if InQuietHours(db.bindings[row.binding], hour) then Deferred
      else
        var grant := db.grants[row.grant.value];
        if !grant.slackApi || grant.revoked || grant.expires <= wallNow || PostMessage !in grant.operations || !secretKnown
           || !CanUse(db.grants, row.grant, PostMessage, db.now)
        then Refused
        else Claims
  }

  function ClaimDelivery(db: Tables, message: Id, wallNow: int, hour: int, secretKnown: bool): Tables {
    match ClaimResult(db, message, wallNow, hour, secretKnown)
    case NotClaimable => db
    case Refused => Rewrite(db, message, db.messages[message].(state := Rejected, updated := db.now))
    case Deferred => Rewrite(db, message, db.messages[message].(nextAttempt := Some(db.now + QUIET_DELAY), updated := db.now))
    case Claims =>
      var row := db.messages[message];
      Rewrite(db, message, row.(state := Sending, attempts := row.attempts + 1, updated := db.now))
        .(grants := Used(db.grants, row.grant), journal := db.journal + [DeliveryClaimed(row.grant, message)])
  }

  function Pow2(n: nat): nat { if n == 0 then 1 else 2 * Pow2(n - 1) }

  /** Seconds until the next delivery attempt: doubling up to 256, never over five minutes. */
  function RetryDelay(attempts: int): int {
    var seconds := if attempts < 0 then 0 else Pow2(if attempts < 8 then attempts else 8);
    if seconds < 300 then seconds else 300
  }

  /** A sender reports. It need not be the one whose claim is current. */
  function Settle(db: Tables, message: Id, delivered: bool): Tables {
    if message in db.messages && db.messages[message].state == Sending
    then
      var row := db.messages[message];
      Rewrite(db, message,
              if delivered then row.(state := Delivered, updated := db.now)
              else row.(state := Failed, nextAttempt := Some(db.now + RetryDelay(row.attempts) * SECOND), updated := db.now))
    else db
  }

  // ---- The attachment scan queue ----

  predicate Scannable(db: Tables, message: Id) {
    && message in db.messages
    && db.messages[message].direction == Inbound && db.messages[message].state == Received
    && match db.messages[message].scan
       case ScanPending => db.messages[message].nextScan.None? || db.messages[message].nextScan.value <= db.now
       case ScanClaimed => db.messages[message].scanLease.Some? && db.messages[message].scanLease.value <= db.now
       case _ => false
  }

  /** Claims a waiting message, or takes over a claim whose lease ran out. */
  function ClaimScan(db: Tables, message: Id, token: nat): Tables
    requires Scannable(db, message)
  {
    var row := db.messages[message];
    Rewrite(db, message, row.(scan := ScanClaimed, scanToken := Some(token), scanLease := Some(db.now + SCAN_LEASE),
                              scanAttempts := row.scanAttempts + 1, updated := db.now))
      .(journal := if row.scan == ScanClaimed then db.journal + [ClaimTakenOver(message)] else db.journal)
  }

  function CompleteScan(db: Tables, message: Id, token: nat): Tables {
    if message in db.messages && db.messages[message].scanToken == Some(token)
    then Rewrite(db, message, db.messages[message].(scan := ScanClean, scanToken := None, scanLease := None, nextScan := None,
                                                     updated := db.now))
    else db
  }

  /** Seconds until the next scan attempt: doubling, at most five minutes. */
  function ScanDelay(attempts: int): int {
    var seconds := if attempts < 0 then 0 else Pow2(attempts);
    if seconds < 300 then seconds else 300
  }

  /** `attempt` is the attempt number the worker was given when it claimed. */
  function FailScan(db: Tables, message: Id, token: nat, attempt: int): Tables {
    if message in db.messages && db.messages[message].state == Received && db.messages[message].scanToken == Some(token)
    then
      var row := db.messages[message];
      var failed :=
        if attempt >= MAX_SCAN_ATTEMPTS
        then row.(scan := ScanRejected, state := Rejected, scanToken := None, scanLease := None, nextScan := None, updated := db.now)
        else row.(scan := ScanPending, scanToken := None, scanLease := None,
                  nextScan := Some(db.now + ScanDelay(row.scanAttempts) * SECOND), updated := db.now);
      Rewrite(db, message, failed).(journal := db.journal + [ScanFailed(message)])
    else db
  }

  /** The retention sweep drops usage windows that started more than ninety days ago. */
  function SweepUsage(db: Tables): Tables {
    db.(usage := map w | w in db.usage && w.1 * SECOND >= db.now - USAGE_RETENTION * SECOND :: db.usage[w])
  }
}
