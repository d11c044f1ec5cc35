/**
 Trigger fires over whole runs: a trigger's counter, the journal and the message table agree, and
 each occurrence of a schedule fires at most once.
 */
module ChannelFires {
  import opened Wrappers
  import opened TriggerSchedule
  import opened ChannelTables
  import opened ChannelWorld
  import opened ChannelSchedule
  import opened ChannelMessages

  predicate IsFire(e: Effect, id: Id, second: Option<int>) {
    e.Fired? && e.trigger == id && (second.Some? ==> e.second == second.value)
  }

  /** Committed fires of a trigger, of one occurrence or of all. */
  function FireCount(journal: seq<Effect>, id: Id, second: Option<int>): nat {
    if journal == [] then 0
    else FireCount(journal[..|journal| - 1], id, second) + if IsFire(journal[|journal| - 1], id, second) then 1 else 0
  }

  lemma FireCountAppend(journal: seq<Effect>, e: Effect, id: Id, second: Option<int>)
    ensures FireCount(journal + [e], id, second) == FireCount(journal, id, second) + if IsFire(e, id, second) then 1 else 0
  {
    assert (journal + [e])[..|journal|] == journal;
  }

  predicate Taken(db: Tables, binding: Id, id: Id, second: int) {
    KeyTaken(db.messages, binding, TriggerKey(id, second), Inbound)
  }

  /** The counter has moved with the journal, and an occurrence has a message exactly when it fired,
      which it did at most once. */
  ghost predicate FireOk(start: Trigger, db: Tables, id: Id, second: int) {
    && id in db.triggers && db.triggers[id].binding == start.binding
    && db.triggers[id].fireCount == start.fireCount + FireCount(db.journal, id, None)
    && FireCount(db.journal, id, Some(second)) == if Taken(db, start.binding, id, second) then 1 else 0
  }

  lemma FiringKeepsFire(start: Trigger, db: Tables, trigger: Id, message: Id, outcome: PassOutcome, id: Id, second: int)
    requires FireOk(start, db, id, second) && trigger in db.triggers && message !in db.messages
    requires outcome.Fires? && !Taken(db, db.triggers[trigger].binding, trigger, outcome.second)
    ensures FireOk(start, Apply(db, trigger, message, outcome), id, second)
  {
    var e := Fired(trigger, outcome.second, outcome.window, FiringGrant(db.triggers[trigger]));
    FireCountAppend(db.journal, e, id, None);
    FireCountAppend(db.journal, e, id, Some(second));
    InsertTakes(db.messages, message, Apply(db, trigger, message, outcome).messages[message], start.binding,
                TriggerKey(id, second));
  }

  /** Whatever a pass comes to, provided it fires only occurrences without a message. */
  lemma OutcomeKeepsFire(start: Trigger, db: Tables, trigger: Id, message: Id, outcome: PassOutcome, id: Id, second: int)
    requires FireOk(start, db, id, second) && trigger in db.triggers && message !in db.messages
    requires outcome.Fires? ==> !Taken(db, db.triggers[trigger].binding, trigger, outcome.second)
    ensures FireOk(start, Apply(db, trigger, message, outcome), id, second)
  {
    if outcome.Fires? {
      FiringKeepsFire(start, db, trigger, message, outcome, id, second);
    }
  }

  lemma FiresOnlyUntaken(db: Tables, id: Id, txNow: int, wallNow: int, hour: int)
    requires id in db.triggers && db.triggers[id].binding in db.bindings
    ensures var outcome := Outcome(db, id, txNow, wallNow, hour);
            outcome.Fires? ==> !Taken(db, db.triggers[id].binding, id, outcome.second)
  {
  }

  lemma CommitKeepsFire(start: Trigger, w: World, worker: nat, wallNow: int, hour: int, message: Id, id: Id, second: int)
    requires FireOk(start, w.db, id, second) && Ready(w, worker) && message !in w.db.messages
    ensures FireOk(start, CommitPass(w, worker, wallNow, hour, message).db, id, second)
  {
    var pass := w.passes[worker];
    var outcome := Outcome(w.db, pass.trigger, pass.txNow, wallNow, hour);
    FiresOnlyUntaken(w.db, pass.trigger, pass.txNow, wallNow, hour);
    OutcomeKeepsFire(start, w.db, pass.trigger, message, outcome, id, second);
  }

  /** After an insert a key is taken if it was before, or if it is the inserted one. */
  lemma InsertTakes(messages: map<Id, Message>, m: Id, row: Message, binding: Id, key: EventKey)
    requires m !in messages
    ensures KeyTaken(messages[m := row], binding, key, Inbound) <==>
              KeyTaken(messages, binding, key, Inbound) || (row.binding == binding && row.key == key && row.direction == Inbound)
  {
    var after := messages[m := row];
    if KeyTaken(messages, binding, key, Inbound) {
      var k :| k in messages && messages[k].binding == binding && messages[k].key == key && messages[k].direction == Inbound;
      assert after[k] == messages[k];
    }
    if row.binding == binding && row.key == key && row.direction == Inbound {
      assert m in after && after[m] == row;
    }
  }

  lemma TriggerKeepsFire(start: Trigger, w: World, step: TriggerStep, id: Id, second: int)
    requires FireOk(start, w.db, id, second)
    ensures FireOk(start, TriggerNext(w, step).db, id, second)
  {
    if step.PassCommits? && Ready(w, step.worker) && step.message !in w.db.messages {
      CommitKeepsFire(start, w, step.worker, step.wallNow, step.hour, step.message, id, second);
    }
  }

  /** What the other components may do: keep every row, and insert no trigger messages. */
  ghost predicate NoFire(db: Tables, db': Tables) {
    && (forall m :: Kept(db, db', m))
    && (forall m | m in db'.messages && m !in db.messages :: !db'.messages[m].key.TriggerKey?)
    && (db'.journal == db.journal || exists e: Effect :: db'.journal == db.journal + [e] && !e.Fired?)
  }

  lemma NoFireKeepsTaken(db: Tables, db': Tables, binding: Id, id: Id, second: int)
    requires NoFire(db, db')
    ensures Taken(db', binding, id, second) <==> Taken(db, binding, id, second)
  {
    if Taken(db, binding, id, second) {
      var m :| m in db.messages && db.messages[m].binding == binding && db.messages[m].key == TriggerKey(id, second)
               && db.messages[m].direction == Inbound;
      assert Kept(db, db', m);
    }
    if Taken(db', binding, id, second) {
      var m :| m in db'.messages && db'.messages[m].binding == binding && db'.messages[m].key == TriggerKey(id, second)
               && db'.messages[m].direction == Inbound;
      assert Kept(db, db', m);
    }
  }

  lemma NoFireKeepsFire(start: Trigger, db: Tables, db': Tables, id: Id, second: int)
    requires FireOk(start, db, id, second) && NoFire(db, db')
    requires id in db'.triggers && db'.triggers[id].binding == db.triggers[id].binding
    requires db'.triggers[id].fireCount == db.triggers[id].fireCount
    ensures FireOk(start, db', id, second)
  {
    NoFireKeepsTaken(db, db', start.binding, id, second);
    if db'.journal != db.journal {
      var e: Effect :| db'.journal == db.journal + [e] && !e.Fired?;
      FireCountAppend(db.journal, e, id, None);
      FireCountAppend(db.journal, e, id, Some(second));
    }
  }

  lemma InboxDoesNotFire(w: World, step: InboxStep)
    ensures NoFire(w.db, InboxNext(w, step).db)
  {
    forall m ensures Kept(w.db, InboxNext(w, step).db, m) { InboxKeepsRow(w, step, m, m); }
  }

  lemma OutboxDoesNotFire(w: World, step: OutboxStep)
    ensures NoFire(w.db, OutboxNext(w, step).db)
  {
    forall m ensures Kept(w.db, OutboxNext(w, step).db, m) { OutboxKeepsRow(w, step, m, m); }
  }

  lemma ScanDoesNotFire(w: World, step: ScanStep)
    ensures NoFire(w.db, ScanNext(w, step).db)
  {
    forall m ensures Kept(w.db, ScanNext(w, step).db, m) { ScanKeepsRow(w, step, m, m); }
  }

  lemma AdminDoesNotFire(w: World, step: AdminStep)
    ensures NoFire(w.db, AdminNext(w, step).db)
  {
    forall m ensures Kept(w.db, AdminNext(w, step).db, m) { AdminKeepsRow(w, step, m, m); }
  }

  lemma FollowsKeepsFire(start: Trigger, w: World, w': World, id: Id, second: int)
    requires Follows(w, w') && FireOk(start, w.db, id, second)
    ensures FireOk(start, w'.db, id, second)
  {
    if ByTrigger(w, w') {
      var step: TriggerStep :| w' == TriggerNext(w, step);
      TriggerKeepsFire(start, w, step, id, second);
    } else if ByInbox(w, w') {
      var step: InboxStep :| w' == InboxNext(w, step);
      InboxDoesNotFire(w, step);
      InboxKeepsTriggers(w, step);
      NoFireKeepsFire(start, w.db, w'.db, id, second);
    } else if ByOutbox(w, w') {
      var step: OutboxStep :| w' == OutboxNext(w, step);
      OutboxDoesNotFire(w, step);
      OutboxKeepsTriggers(w, step);
      NoFireKeepsFire(start, w.db, w'.db, id, second);
    } else if ByScan(w, w') {
      var step: ScanStep :| w' == ScanNext(w, step);
      ScanDoesNotFire(w, step);
      ScanKeepsTriggers(w, step);
      NoFireKeepsFire(start, w.db, w'.db, id, second);
    } else {
      var step: AdminStep :| w' == AdminNext(w, step);
      AdminDoesNotFire(w, step);
      AdminOnlyActivates(w, step, id);
      NoFireKeepsFire(start, w.db, w'.db, id, second);
    }
  }

  lemma {:induction false} FireKept(run: seq<World>, id: Id, second: int)
    requires IsRun(run) && Starting(run[0]) && run[0].db.messages == map[] && id in run[0].db.triggers
    ensures FireOk(run[0].db.triggers[id], run[|run| - 1].db, id, second)
    decreases |run|
  {
    if |run| > 1 {
      RunEndsWithAStep(run);
      FireKept(run[..|run| - 1], id, second);
      FollowsKeepsFire(run[0].db.triggers[id], run[|run| - 2], run[|run| - 1], id, second);
    }
  }

  /** Over any run: the fire counter moved by the committed fires, and no occurrence fired twice. */
  lemma FireLaw(run: seq<World>, id: Id, second: int)
    requires IsRun(run) && Starting(run[0]) && run[0].db.messages == map[] && id in run[0].db.triggers
    ensures var start, db := run[0].db.triggers[id], run[|run| - 1].db;
      && id in db.triggers
      && db.triggers[id].fireCount == start.fireCount + FireCount(db.journal, id, None)
      && FireCount(db.journal, id, Some(second)) <= 1
      && (FireCount(db.journal, id, Some(second)) == 1 <==>
            KeyTaken(db.messages, start.binding, TriggerKey(id, second), Inbound))
  {
    FireKept(run, id, second);
  }

  /** A late CATCH_UP trigger does not get past an occurrence it has fired: until the clock reaches
      the occurrence after the retained ones, every pass decides the same one again, fires nothing
      and leaves the due time and both counters where they were. */
  lemma CatchUpWaitsOut(db: Tables, id: Id, due: int, firedAt: int, txNow: int, wallNow: int, hour: int, message: Id)
    requires id in db.triggers && db.triggers[id].binding in db.bindings
    requires var t := db.triggers[id];
      && t.policy == CatchUp && t.interval.Some?
      && Decide(due, firedAt, t.interval.value, t.maxDelay, CatchUp, t.maxCatchUp).Some?
      && Late(due, firedAt, t.maxDelay) && firedAt <= wallNow
      && t.nextFire == Decide(due, firedAt, t.interval.value, t.maxDelay, CatchUp, t.maxCatchUp).value.next
      && Late(t.nextFire, wallNow, t.maxDelay)
    requires var t := db.triggers[id];
      var fired := Decide(due, firedAt, t.interval.value, t.maxDelay, CatchUp, t.maxCatchUp).value;
      && fired.Fire?
      && wallNow < Occurrence(fired.effectiveDue, t.interval.value, t.maxCatchUp)
      && Taken(db, t.binding, id, fired.effectiveDue / SECOND)
    ensures
      var t, outcome := db.triggers[id], Outcome(db, id, txNow, wallNow, hour);
      var db' := Apply(db, id, message, outcome);
      && !outcome.Fires? && db'.journal == db.journal && db'.messages == db.messages
      && db'.triggers[id].nextFire == t.nextFire
      && db'.triggers[id].fireCount == t.fireCount && db'.triggers[id].skippedCount == t.skippedCount
  {
    var t := db.triggers[id];
    var interval := t.interval.value;
    CatchUpRepeatsItself(due, firedAt, wallNow, interval, t.maxDelay, t.maxCatchUp);
    var again := Decide(t.nextFire, wallNow, interval, t.maxDelay, CatchUp, t.maxCatchUp).value;
    DecisionStaysOnSchedule(t.nextFire, wallNow, interval, t.maxDelay, CatchUp, t.maxCatchUp);
    assert again.next == t.nextFire;
    NoMoveNoCount(t.nextFire, interval, again.skipped + 1);
    RepeatedPass(db, id, txNow, wallNow, hour, again);
  }

  lemma NoMoveNoCount(due: int, interval: int, k: int)
    requires interval > 0 && Occurrence(due, interval, k) == due
    ensures k == 0
  {
    if k > 0 { MulMono(1, k, Period(interval)); }
    if k < 0 { MulMono(k, -1, Period(interval)); }
  }

  /** A pass whose decision is an occurrence already fired comes to one of four things. */
  lemma RepeatedPass(db: Tables, id: Id, txNow: int, wallNow: int, hour: int, decision: Decision)
    requires id in db.triggers && db.triggers[id].binding in db.bindings && db.triggers[id].interval.Some?
    requires var t := db.triggers[id];
      && Decide(t.nextFire, wallNow, t.interval.value, t.maxDelay, t.policy, t.maxCatchUp) == Some(decision)
      && decision.Fire? && Taken(db, t.binding, id, decision.effectiveDue / SECOND)
    ensures Outcome(db, id, txNow, wallNow, hour) in
              {Pauses, Advances(decision.next, decision.skipped + 1), LosesGrant, IsDuplicate}
  {
  }
}
