/**
 Message rows over whole runs: identity and final states are permanent, no two rows share an event
 key, and replies answer messages one to one.
 */
module ChannelMessages {
  import opened ChannelTables
  import opened ChannelWorld

  predicate Final(state: MessageState) { state in {TurnCreated, Rejected, Delivered} }

  /** The states a message of one direction may be in. */
  predicate Proper(row: Message) {
    match row.direction
    case Inbound => row.state in {Received, TurnCreated, Rejected}
    case Outbound => row.state in {PendingDelivery, Sending, Failed, Delivered, Rejected} && row.key.ReplyKey?
  }

  /** What may become of an existing row: its identity stays, a final state stays, and an inbound
      row still received may only take a turn or be rejected. */
  ghost predicate RowKept(row: Message, row': Message) {
    && row'.binding == row.binding && row'.key == row.key && row'.direction == row.direction
    && (Final(row.state) ==> row'.state == row.state)
    && (Proper(row) ==> Proper(row'))
  }

  /** A row that is new was inserted under a key nobody had. */
  ghost predicate Inserted(db: Tables, row: Message) {
    Proper(row) && !KeyTaken(db.messages, row.binding, row.key, row.direction)
  }

  /** How one step treats the message table. */
  ghost predicate Kept(db: Tables, db': Tables, m: Id) {
    if m in db.messages then m in db'.messages && RowKept(db.messages[m], db'.messages[m])
    else m in db'.messages ==> Inserted(db, db'.messages[m])
  }

  /** At most one row is new in a step. */
  ghost predicate OneInsert(db: Tables, db': Tables, m: Id, n: Id) {
    m !in db.messages && n !in db.messages && m in db'.messages && n in db'.messages ==> m == n
  }

  lemma TriggerKeepsRow(w: World, step: TriggerStep, m: Id, n: Id)
    ensures Kept(w.db, TriggerNext(w, step).db, m) && OneInsert(w.db, TriggerNext(w, step).db, m, n)
  {
  }

  lemma InboxKeepsRow(w: World, step: InboxStep, m: Id, n: Id)
    ensures Kept(w.db, InboxNext(w, step).db, m) && OneInsert(w.db, InboxNext(w, step).db, m, n)
  {
  }

  lemma ClaimKeepsRow(db: Tables, message: Id, wallNow: int, hour: int, secretKnown: bool, m: Id)
    ensures var db' := ClaimDelivery(db, message, wallNow, hour, secretKnown);
            Kept(db, db', m) && db'.messages.Keys == db.messages.Keys
  {
  }

  lemma RecoverKeepsRow(db: Tables, m: Id)
    ensures Kept(db, RecoverClaims(db), m) && RecoverClaims(db).messages.Keys == db.messages.Keys
  {
  }

  lemma OutboxKeepsRow(w: World, step: OutboxStep, m: Id, n: Id)
    ensures Kept(w.db, OutboxNext(w, step).db, m) && OneInsert(w.db, OutboxNext(w, step).db, m, n)
  {
    match step
    case SenderClaims(_, message, wallNow, hour, secretKnown) =>
      ClaimKeepsRow(w.db, message, wallNow, hour, secretKnown, m);
    case ClaimsRecovered => RecoverKeepsRow(w.db, m);
    case _ =>
  }

  lemma ScanKeepsRow(w: World, step: ScanStep, m: Id, n: Id)
    ensures Kept(w.db, ScanNext(w, step).db, m) && OneInsert(w.db, ScanNext(w, step).db, m, n)
  {
  }

  lemma AdminKeepsRow(w: World, step: AdminStep, m: Id, n: Id)
    ensures Kept(w.db, AdminNext(w, step).db, m) && OneInsert(w.db, AdminNext(w, step).db, m, n)
  {
  }

  lemma FollowsKeepsRow(w: World, w': World, m: Id, n: Id)
    requires Follows(w, w')
    ensures Kept(w.db, w'.db, m) && OneInsert(w.db, w'.db, m, n)
  {
    if ByTrigger(w, w') {
      var step: TriggerStep :| w' == TriggerNext(w, step);
      TriggerKeepsRow(w, step, m, n);
    } else if ByInbox(w, w') {
      var step: InboxStep :| w' == InboxNext(w, step);
      InboxKeepsRow(w, step, m, n);
    } else if ByOutbox(w, w') {
      var step: OutboxStep :| w' == OutboxNext(w, step);
      OutboxKeepsRow(w, step, m, n);
    } else if ByScan(w, w') {
      var step: ScanStep :| w' == ScanNext(w, step);
      ScanKeepsRow(w, step, m, n);
    } else {
      var step: AdminStep :| w' == AdminNext(w, step);
      AdminKeepsRow(w, step, m, n);
    }
  }

  /** Through any run a row keeps its identity, and a state that is final is never left. */
  lemma {:induction false} RowLaw(run: seq<World>, m: Id)
    requires IsRun(run) && m in run[0].db.messages
    ensures m in run[|run| - 1].db.messages && RowKept(run[0].db.messages[m], run[|run| - 1].db.messages[m])
    decreases |run|
  {
    if |run| > 1 {
      RunEndsWithAStep(run);
      RowLaw(run[..|run| - 1], m);
      FollowsKeepsRow(run[|run| - 2], run[|run| - 1], m, m);
    }
  }

  ghost predicate SameKey(a: Message, b: Message) {
    a.binding == b.binding && a.key == b.key && a.direction == b.direction
  }

  ghost predicate Distinct(db: Tables, m: Id, n: Id) {
    m in db.messages && n in db.messages && SameKey(db.messages[m], db.messages[n]) ==> m == n
  }

  lemma FollowsKeepsDistinct(w: World, w': World, m: Id, n: Id)
    requires Follows(w, w') && Distinct(w.db, m, n)
    ensures Distinct(w'.db, m, n)
  {
    FollowsKeepsRow(w, w', m, n);
    FollowsKeepsRow(w, w', n, m);
  }

  /** From an empty message table no two rows ever share binding, event key and direction. */
  lemma {:induction false} KeysAreUnique(run: seq<World>, m: Id, n: Id)
    requires IsRun(run) && run[0].db.messages == map[]
    ensures Distinct(run[|run| - 1].db, m, n)
    decreases |run|
  {
    if |run| > 1 {
      RunEndsWithAStep(run);
      KeysAreUnique(run[..|run| - 1], m, n);
      FollowsKeepsDistinct(run[|run| - 2], run[|run| - 1], m, n);
    }
  }

  /** So an inbound message has at most one reply, and a reply answers at most one message. */
  lemma OneReplyPerMessage(run: seq<World>, a: Id, b: Id, reply: Id, other: Id)
    requires IsRun(run) && run[0].db.messages == map[]
    requires var rows := run[|run| - 1].db.messages;
      && a in rows && b in rows && reply in rows && other in rows
      && rows[a].direction == Inbound && rows[b].direction == Inbound
      && rows[reply].direction == Outbound && rows[other].direction == Outbound
      && rows[reply].binding == rows[a].binding && rows[reply].key == ReplyKey(rows[a].key)
      && rows[other].binding == rows[b].binding && rows[other].key == ReplyKey(rows[b].key)
    ensures a == b <==> reply == other
  {
    KeysAreUnique(run, a, b);
    KeysAreUnique(run, reply, other);
  }
}
