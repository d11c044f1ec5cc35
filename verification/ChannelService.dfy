/**
 The channel transactions as the service issues them, statement by statement against the tables.
 Each is tied to the all-at-once effect that `ChannelTables` gives it: whatever a transaction has
 written before it rolls back leaves no trace.
 */
module ChannelService {
  import opened Wrappers
  import opened TriggerSchedule
  import opened ChannelTables

  class ChannelDatabase {
    var bindings: map<Id, Binding>
    var triggers: map<Id, Trigger>
    var usage: map<(Id, int), Usage>
    var grants: map<Id, Grant>
    var messages: map<Id, Message>
    var now: int
    var journal: seq<Effect>

    constructor (tables: Tables)
      ensures View() == tables
    {
      bindings, triggers, usage, grants, messages, now, journal :=
        tables.bindings, tables.triggers, tables.usage, tables.grants, tables.messages, tables.now, tables.journal;
    }

    function View(): Tables
      reads this
    {
      Tables(bindings, triggers, usage, grants, messages, now, journal)
    }

    method Pause(id: Id)
      requires id in triggers
      modifies this`triggers
      ensures triggers == old(triggers)[id := old(triggers)[id].(active := false)]
    {
      triggers := triggers[id := triggers[id].(active := false)];
    }

    /** INSERT ... ON CONFLICT DO UPDATE ... WHERE: answers whether a row was written. */
    method ReserveBudget(id: Id, window: int, b: Budget) returns (admitted: bool)
      modifies this`usage
      ensures var reserved := Reserve(Lookup(old(usage), (id, window)), b);
        && (admitted <==> reserved.Some?)
        && usage == if reserved.Some? then old(usage)[(id, window) := reserved.value] else old(usage)
    {
      var key := (id, window);
      if key !in usage {
        usage := usage[key := Usage(1, 1, b.tokensPerFire, b.costPerFire)];
        return true;
      }
      var row := usage[key];
      if row.fires + 1 <= b.maximumFires && row.turns + 1 <= b.maximumTurns
         && row.tokens + b.tokensPerFire <= b.maximumTokens && row.cost + b.costPerFire <= b.maximumCost
      {
        row := row.(fires := row.fires + 1);
        row := row.(turns := row.turns + 1);
        row := row.(tokens := row.tokens + b.tokensPerFire);
        row := row.(cost := row.cost + b.costPerFire);
        usage := usage[key := row];
        return true;
      }
      return false;
    }

    /** UPDATE ... SET use_count = use_count + 1 WHERE the grant is live: answers whether it matched. */
    method ConsumeGrant(grant: Option<Id>, operation: Operation, txNow: int) returns (consumed: bool)
      modifies this`grants
      ensures consumed <==> CanUse(old(grants), grant, operation, txNow)
      ensures grants == if consumed then Used(old(grants), grant) else old(grants)
    {
      if grant.None? || grant.value !in grants {
        return false;
      }
      var row := grants[grant.value];
      if row.revoked || row.expires <= txNow || row.useCount >= row.maximumUses || operation !in row.operations {
        return false;
      }
      grants := grants[grant.value := row.(useCount := row.useCount + 1)];
      return true;
    }

    /** INSERT ... ON CONFLICT DO NOTHING: answers whether a row was inserted. */
    method InsertMessage(message: Id, row: Message) returns (inserted: bool)
      requires message !in messages
      modifies this`messages
      ensures inserted <==> !KeyTaken(old(messages), row.binding, row.key, row.direction)
      ensures messages == if inserted then old(messages)[message := row] else old(messages)
    {
      if KeyTaken(messages, row.binding, row.key, row.direction) {
        return false;
      }
      messages := messages[message := row];
      return true;
    }

    /** The part of a trigger pass after its row was selected and locked. Budget, counters, grant and
        message are written one after the other and committed together, or rolled back together. */
    method TriggerPass(id: Id, txNow: int, wallNow: int, hour: int, message: Id) returns (outcome: PassOutcome)
      requires id in triggers && triggers[id].binding in bindings && message !in messages
      modifies this
      ensures outcome == Outcome(old(View()), id, txNow, wallNow, hour)
      ensures View() == Apply(old(View()), id, message, outcome)
    {
      var t := triggers[id];
      if t.interval.None? {
        Pause(id);
        return Pauses;
      }
      var decision := Decide(t.nextFire, wallNow, t.interval.value, t.maxDelay, t.policy, t.maxCatchUp);
      if decision.None? {
        Pause(id);
        return Pauses;
      }
      var next, skipped := decision.value.next, decision.value.skipped;
      if decision.value.Skip? {
        Advance(id, next, skipped);
        return Advances(next, skipped);
      }
      if t.content.None? || |t.content.value.1| > MAX_TEXT_BYTES {
        Pause(id);
        return Pauses;
      }
      var binding := bindings[t.binding];
      if t.content.value.0 !in binding.destinations || InQuietHours(binding, hour) {
        Advance(id, next, skipped + 1);
        return Advances(next, skipped + 1);
      }
      if t.budget.None? || !t.budget.value.Valid() {
        Pause(id);
        return Pauses;
      }
      outcome := Fire(id, txNow, decision.value.effectiveDue, next, skipped, message);
    }

    method Advance(id: Id, next: int, skipped: int)
      requires id in triggers
      modifies this`triggers
      ensures View() == Apply(old(View()), id, 0, Advances(next, skipped))
    {
      var t := triggers[id];
      triggers := triggers[id := t.(nextFire := next, misfireCount := t.misfireCount + 1,
                                    skippedCount := t.skippedCount + skipped)];
    }

    /** From the budget on: five statements and three ways out. */
    method Fire(id: Id, txNow: int, effectiveDue: int, next: int, skipped: int, message: Id)
      returns (outcome: PassOutcome)
      requires id in triggers && message !in messages
      requires triggers[id].budget.Some? && triggers[id].budget.value.Valid()
      modifies this
      ensures outcome == FiringOutcome(old(View()), id, txNow, effectiveDue, next, skipped)
      ensures View() == Apply(old(View()), id, message, outcome)
    {
      var savedTriggers, savedUsage := triggers, usage;
      var t := triggers[id];
      var b := t.budget.value;
      var window := WindowStart(txNow, b.windowSeconds);
      var admitted := ReserveBudget(id, window, b);
      if !admitted {
        Pause(id);
        return Pauses;
      }
      var second := effectiveDue / SECOND;
      triggers := triggers[id := t.(fireCount := t.fireCount + 1, nextFire := next,
                                    misfireCount := t.misfireCount + (if skipped > 0 then 1 else 0),
                                    skippedCount := t.skippedCount + skipped)];
      outcome := Complete(id, t, txNow, Fires(second, next, skipped, window, usage[(id, window)]), message, savedTriggers,
                          savedUsage);
    }

    /** The grant and the message; a transaction that gets neither rolls back to the saved tables. */
    method Complete(id: Id, t: Trigger, txNow: int, fire: PassOutcome, message: Id, savedTriggers: map<Id, Trigger>,
                    savedUsage: map<(Id, int), Usage>)
      returns (outcome: PassOutcome)
      requires fire.Fires? && message !in messages && id in savedTriggers && savedTriggers[id] == t
      requires
        var written := Apply(View().(triggers := savedTriggers, usage := savedUsage), id, message, fire);
        triggers == written.triggers && usage == written.usage
      modifies this
      ensures
        outcome == if t.kind.ByConnector? && !CanUse(old(grants), t.grant, TriggersFire, txNow) then LosesGrant
                   else if KeyTaken(old(messages), t.binding, TriggerKey(id, fire.second), Inbound) then IsDuplicate
                   else fire
      ensures View() == Apply(old(View()).(triggers := savedTriggers, usage := savedUsage), id, message, outcome)
    {
      var savedGrants := grants;
      var authorized := Authorize(t, txNow);
      if !authorized {
        triggers, usage := savedTriggers, savedUsage;
        return LosesGrant;
      }
      var inserted := InsertMessage(message, InboundMessage(t.binding, TriggerKey(id, fire.second), now, false));
      if !inserted {
        triggers, usage, grants := savedTriggers, savedUsage, savedGrants;
        return IsDuplicate;
      }
      journal := journal + [Fired(id, fire.second, fire.window, FiringGrant(t))];
      return fire;
    }

    /** Only connector triggers fire against a grant. */
    method Authorize(t: Trigger, txNow: int) returns (authorized: bool)
      modifies this`grants
      ensures authorized <==> t.kind.ByConnector? ==> CanUse(old(grants), t.grant, TriggersFire, txNow)
      ensures grants == if authorized then Used(old(grants), FiringGrant(t)) else old(grants)
    {
      authorized := true;
      if t.kind.ByConnector? {
        authorized := ConsumeGrant(t.grant, TriggersFire, txNow);
      }
    }

    /** A connector event: the insert, then the grant; an exhausted grant takes the insert back. */
    method ConnectorEvent(trigger: Id, event: string, message: Id) returns (admitted: bool)
      requires trigger in triggers && message !in messages
      modifies this
      ensures View() == AdmitEvent(old(View()), old(triggers)[trigger].binding, ConnectorKey(trigger, event),
                                   old(triggers)[trigger].grant, message)
      ensures admitted <==> message in messages
    {
      var savedMessages := messages;
      var t := triggers[trigger];
      var inserted := InsertMessage(message, InboundMessage(t.binding, ConnectorKey(trigger, event), now, false));
      if inserted {
        var consumed := ConsumeGrant(t.grant, EventsReceive, now);
        if !consumed {
          messages := savedMessages;
          return false;
        }
        journal := journal + [EventAdmitted(t.grant, message)];
      }
      return inserted;
    }

    /** A delivery claim: refusals, quiet hours, then the grant and the claim in one transaction. */
    method DeliveryClaim(message: Id, wallNow: int, hour: int, secretKnown: bool) returns (claimed: bool)
      modifies this
      ensures View() == ClaimDelivery(old(View()), message, wallNow, hour, secretKnown)
      ensures claimed <==> ClaimResult(old(View()), message, wallNow, hour, secretKnown).Claims?
    {
      if message !in messages {
        return false;
      }
      var row := messages[message];
      if row.direction != Outbound || row.state !in {PendingDelivery, Failed}
         || (row.nextAttempt.Some? && row.nextAttempt.value > now)
         || row.binding !in bindings || row.grant.None? || row.grant.value !in grants
      {
        return false;
      }
      if bindings[row.binding].revoked || row.attempts >= MAX_DELIVERY_CLAIMS {
        Reject(message);
        return false;
      }
      if InQuietHours(bindings[row.binding], hour) {
        messages := messages[message := row.(nextAttempt := Some(now + QUIET_DELAY), updated := now)];
        return false;
      }
      var grant := grants[row.grant.value];
      if !grant.slackApi || grant.revoked || grant.expires <= wallNow || PostMessage !in grant.operations || !secretKnown {
        Reject(message);
        return false;
      }
      var consumed := ConsumeGrant(row.grant, PostMessage, now);
      if !consumed {
        Reject(message);
        return false;
      }
      messages := messages[message := row.(state := Sending, attempts := row.attempts + 1, updated := now)];
      journal := journal + [DeliveryClaimed(row.grant, message)];
      return true;
    }

    method Reject(message: Id)
      requires message in messages
      modifies this`messages
      ensures messages == old(messages)[message := old(messages)[message].(state := Rejected, updated := now)]
    {
      messages := messages[message := messages[message].(state := Rejected, updated := now)];
    }

    /** A scan attempt fails: rejected after the fifth attempt, otherwise back to the queue. */
    method ScanFailure(message: Id, token: nat, attempt: int) returns (recorded: bool)
      modifies this
      ensures View() == FailScan(old(View()), message, token, attempt)
      ensures recorded <==> |journal| == |old(journal)| + 1
    {
      if message !in messages || messages[message].state != Received || messages[message].scanToken != Some(token) {
        return false;
      }
      var row := messages[message];
      if attempt >= MAX_SCAN_ATTEMPTS {
        row := row.(scan := ScanRejected, state := Rejected, nextScan := None);
      } else {
        row := row.(scan := ScanPending, nextScan := Some(now + ScanDelay(row.scanAttempts) * SECOND));
      }
      messages := messages[message := row.(scanToken := None, scanLease := None, updated := now)];
      journal := journal + [ScanFailed(message)];
      return true;
    }
  }
}
