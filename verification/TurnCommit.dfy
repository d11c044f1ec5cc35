/**
 One native turn over a coding session: claim before the first durable request, commit as soon as
 the work is known good, and only then the optional archive, inside what the deadline leaves.
 */
module TurnCommit {
  import opened Wrappers
  import opened AtomicFile
  import opened ThreadRecord
  import opened CodingSessions
  import opened ThreadWorld

  // Durations and instants are counted in nanoseconds.
  const ARCHIVE_TIMEOUT: int := 10_000_000_000
  const DELIVERY_RESERVE: int := 5_000_000_000

  /** The largest archive time, up to the flat timeout, that still leaves the delivery reserve. */
  function ArchiveBudget(deadline: Option<int>, now: int): (budget: Option<int>)
    ensures budget.None? <==> deadline.Some? && deadline.value <= now + 5_000_000_000
    ensures budget.Some? ==> 0 < budget.value <= 10_000_000_000
    ensures budget.Some? && deadline.Some? ==> now + budget.value + DELIVERY_RESERVE <= deadline.value
    ensures budget.Some? && budget.value < ARCHIVE_TIMEOUT ==>
              deadline.Some? && now + budget.value + DELIVERY_RESERVE == deadline.value
  {
    if deadline.None? then Some(ARCHIVE_TIMEOUT)
    else
      var remaining := if deadline.value < now then 0 else deadline.value - now;
      var afterReserve := if remaining < DELIVERY_RESERVE then 0 else remaining - DELIVERY_RESERVE;
      var budget := if afterReserve < ARCHIVE_TIMEOUT then afterReserve else ARCHIVE_TIMEOUT;
      if budget == 0 then None else Some(budget)
  }

  /** What the app server does with `thread/archive`. */
  datatype Archive = Answered(ok: bool, took: nat) | Silent

  predicate ArchivedInTime(archive: Archive, budget: Option<int>) {
    archive.Answered? && archive.ok && budget.Some? && archive.took <= budget.value
  }

  /** A receipt, with a note when a wanted close could not be recorded. */
  datatype TurnReceipt = TurnReceipt(receipt: Receipt, closeError: bool)

  /** How the operations of a turn turn out; every field is the environment's choice. */
  datatype Weather = Weather(
    begin: SaveOutcome,
    finish: SaveOutcome,
    close: SaveOutcome,
    archive: Archive)

  /** Waits for the archive at most `budget`; answers whether it succeeded and the time spent. */
  method AwaitArchive(archive: Archive, budget: int) returns (ok: bool, spent: int)
    requires 0 < budget
    ensures ok <==> ArchivedInTime(archive, Some(budget))
    ensures ok <==> archive.Answered? && archive.ok && archive.took <= budget
    ensures 0 <= spent <= budget
  {
    match archive
    case Answered(answer, took) =>
      if took <= budget {
        ok, spent := answer, took;
      } else {
        ok, spent := false, budget;
      }
    case Silent => ok, spent := false, budget;
  }

  /** Durable before optional: whatever the archive does, a saved result stays on disk. */
  method FinishThread(session: CodingSession?, threadId: string, patch: string, closeAfterTurn: bool,
                      deadline: Option<int>, now: int, minted: Checkpoint, weather: Weather)
    returns (r: Result<Option<TurnReceipt>, ()>, spent: int)
    modifies if session == null then {} else {session, session.directory}
    ensures session == null ==> r == Ok(None) && spent == 0
    ensures session != null ==> session.directory.locked == old(session.directory.locked)
    ensures session != null ==> session.directory.clock == old(session.directory.clock)
    ensures session != null ==> (r.Ok? <==> weather.finish.Saved?)
    ensures session != null && r.Err? ==>
      && spent == 0
      && Replaced(old(session.directory.disk), session.directory.disk, session.key,
                  Written(Lookup(old(session.directory.disk), session.key),
                          Committed(old(session.state), threadId, patch, minted, false), weather.finish, session.directory.clock))
    ensures session != null && r.Ok? ==>
      var archived := closeAfterTurn && ArchivedInTime(weather.archive, ArchiveBudget(deadline, now));
      var record := Committed(old(session.state), threadId, patch, minted, archived && Replaces(weather.close));
      && Replaced(old(session.directory.disk), session.directory.disk, session.key,
                  Some(Stored(record, session.directory.clock)))
      && r.value.Some?
      && r.value.value.receipt ==
           Receipt(record.sessionRef, Some(minted), if archived && weather.close.Saved? then Closed else Ready)
      && (r.value.value.closeError <==> closeAfterTurn && r.value.value.receipt.phase != Closed)
    // The record in its fields, and when it is closed.
    ensures session != null && r.Ok? ==>
      var budget := ArchiveBudget(deadline, now);
      var archived := closeAfterTurn && budget.Some? && weather.archive.Answered? && weather.archive.ok
                      && weather.archive.took <= budget.value;
      && session.key in session.directory.disk
      && HoldsResult(old(session.state), session.directory.disk[session.key].record, threadId, patch, minted,
                     if archived && !weather.close.FailedBefore? then Closed else Ready)
      && r.value.value.receipt == Receipt(old(session.state).sessionRef, Some(minted),
                                          if archived && weather.close.Saved? then Closed else Ready)
    ensures 0 <= spent && (deadline.Some? && spent > 0 ==> now + spent + DELIVERY_RESERVE <= deadline.value)
  {
    spent := 0;
    if session == null {
      return Ok(None), 0;
    }
    var receipt := session.Finish(threadId, patch, false, minted, weather.finish);
    if receipt.None? {
      return Err(()), 0;
    }
    if !closeAfterTurn {
      return Ok(Some(TurnReceipt(receipt.value, false))), 0;
    }
    var budget := ArchiveBudget(deadline, now);
    var closed: Option<Receipt> := None;
    if budget.Some? {
      var ok;
      ok, spent := AwaitArchive(weather.archive, budget.value);
      if ok {
        closed := session.MarkClosed(weather.close);
      }
    }
    if closed.Some? {
      r := Ok(Some(TurnReceipt(closed.value, false)));
    } else {
      r := Ok(Some(TurnReceipt(receipt.value, true)));
    }
  }

  /** Where a turn stops early: before the claim, or between the claim and the commit. */
  datatype Stop = Preflight | Native | Nowhere

  /** One turn as the worker was asked for it, together with how its environment behaves. */
  datatype Turn = Turn(
    dedicatedClose: bool,
    closeAfterTurn: bool,
    stop: Stop,
    answeredThread: string,
    patch: string,
    deadline: Option<int>,
    now: int,
    minted: Checkpoint,
    weather: Weather)
  {
    /** The archive request of this turn succeeds within its budget. */
    predicate Archives() { ArchivedInTime(weather.archive, ArchiveBudget(deadline, now)) }

    /** The turn reaches its commit: nothing stopped it, the claim was acknowledged, the native side
        answered for the same thread, and a dedicated close was archived. */
    predicate Commits(threadId: Option<string>) {
      && stop.Nowhere? && weather.begin.Saved?
      && (threadId.Some? ==> threadId.value == answeredThread)
      && (dedicatedClose ==> Archives())
    }

    /** The committed turn goes on to record an archived thread. */
    predicate ClosesAfter() { !dedicatedClose && weather.finish.Saved? && closeAfterTurn && Archives() }

    function Result(state: Record, closed: bool): Record {
      Committed(Claimed(state), answeredThread, if dedicatedClose then "" else patch, minted, closed)
    }
  }

  /** The app server archived the thread in the time that the deadline and the delivery reserve leave. */
  ghost predicate ArchivedWithin(turn: Turn) {
    && turn.weather.archive.Answered? && turn.weather.archive.ok
    && turn.weather.archive.took <= ARCHIVE_TIMEOUT
    && (turn.deadline.Some? ==> turn.deadline.value > turn.now + DELIVERY_RESERVE
                                && turn.now + turn.weather.archive.took + DELIVERY_RESERVE <= turn.deadline.value)
  }

  lemma ArchivesWithin(turn: Turn)
    ensures turn.Archives() <==> ArchivedWithin(turn)
  {
  }

  /** What a turn leaves on disk, given what was there and the session's record. */
  function TurnLeaves(file: Option<Stored>, state: Record, turn: Turn, clock: int): Option<Stored> {
    if turn.stop.Preflight? then file
    else if !turn.Commits(state.threadId) then Written(file, Claimed(state), turn.weather.begin, clock)
    else
      var closed := turn.dedicatedClose || (turn.ClosesAfter() && Replaces(turn.weather.close));
      Written(Some(Stored(Claimed(state), clock)), turn.Result(state, closed), turn.weather.finish, clock)
  }

  /** The order of a whole turn: preflight, claim, native work, commit, optional archive. */
  method RunTurn(session: CodingSession, turn: Turn) returns (r: Result<TurnReceipt, ()>)
    modifies session, session.directory
    ensures session.directory.locked == old(session.directory.locked)
    ensures Replaced(old(session.directory.disk), session.directory.disk, session.key,
                     TurnLeaves(Lookup(old(session.directory.disk), session.key), old(session.state), turn,
                                session.directory.clock))
    ensures r.Ok? <==> turn.Commits(old(session.state).threadId) && turn.weather.finish.Saved?
    ensures r.Ok? <==>
      && turn.stop.Nowhere? && turn.weather.begin.Saved? && turn.weather.finish.Saved?
      && (old(session.state).threadId.Some? ==> old(session.state).threadId.value == turn.answeredThread)
      && (turn.dedicatedClose ==> ArchivedWithin(turn))
    ensures r.Ok? ==> r.value.receipt.checkpoint == Some(turn.minted)
                      && r.value.receipt.sessionRef == old(session.state).sessionRef
    // The record in its fields: a dedicated close carries no patch.
    ensures r.Ok? ==>
      && session.key in session.directory.disk
      && HoldsResult(old(session.state), session.directory.disk[session.key].record, turn.answeredThread,
                     if turn.dedicatedClose then "" else turn.patch, turn.minted,
                     if turn.dedicatedClose || (turn.closeAfterTurn && ArchivedWithin(turn) && !turn.weather.close.FailedBefore?)
                     then Closed else Ready)
    ensures r.Ok? && r.value.receipt.phase == Closed ==>
              session.key in session.directory.disk && session.directory.disk[session.key].record.phase == Closed
  {
    ArchivesWithin(turn);
    if turn.stop.Preflight? {
      return Err(());
    }
    var begun := session.Begin(turn.weather.begin);
    if !begun || turn.stop.Native? {
      return Err(());
    }
    if session.state.threadId.Some? && session.state.threadId.value != turn.answeredThread {
      return Err(());
    }
    if turn.dedicatedClose {
      var budget := ArchiveBudget(turn.deadline, turn.now);
      if budget.None? {
        return Err(());
      }
      var ok, _ := AwaitArchive(turn.weather.archive, budget.value);
      if !ok {
        return Err(());
      }
      var receipt := session.Finish(turn.answeredThread, "", true, turn.minted, turn.weather.finish);
      if receipt.None? {
        return Err(());
      }
      return Ok(TurnReceipt(receipt.value, false));
    }
    var result, _ := FinishThread(session, turn.answeredThread, turn.patch, turn.closeAfterTurn, turn.deadline, turn.now,
                                  turn.minted, turn.weather);
    if result.Err? {
      return Err(());
    }
    return Ok(result.value.value);
  }

  /** What the workflow can rely on: a turn leaves the record as it was, or claimed and not committed,
      or committed under the new checkpoint, and exactly when it leaves which. Past an acknowledged
      claim the old READY record is gone. */
  lemma TurnIsAtMostOnce(file: Option<Stored>, state: Record, turn: Turn, clock: int)
    ensures
      var left := TurnLeaves(file, state, turn, clock);
      var claims := !turn.stop.Preflight? && !turn.weather.begin.FailedBefore?;
      var commits :=
        && turn.stop.Nowhere? && turn.weather.begin.Saved? && !turn.weather.finish.FailedBefore?
        && (state.threadId.Some? ==> state.threadId.value == turn.answeredThread)
        && (turn.dedicatedClose ==> ArchivedWithin(turn));
      && (!claims ==> left == file)
      && (claims && !commits ==> left.Some? && left.value.modified == clock && HoldsPhase(state, left.value.record, InFlight))
      && (commits ==>
            && left.Some? && left.value.modified == clock
            && HoldsResult(state, left.value.record, turn.answeredThread, if turn.dedicatedClose then "" else turn.patch,
                           turn.minted,
                           if turn.dedicatedClose || (turn.closeAfterTurn && turn.weather.finish.Saved? && ArchivedWithin(turn)
                                                      && !turn.weather.close.FailedBefore?)
                           then Closed else Ready))
  {
    ArchivesWithin(turn);
  }

  /** The shared-directory steps a turn amounts to. */
  function TurnSteps(key: Key, s: nat, threadId: Option<string>, turn: Turn): seq<Step> {
    if turn.stop.Preflight? then []
    else if !turn.Commits(threadId) then [Begin(key, s, turn.weather.begin)]
    else
      [Begin(key, s, turn.weather.begin),
       Finish(key, s, turn.answeredThread, if turn.dedicatedClose then "" else turn.patch, turn.dedicatedClose,
              turn.minted, turn.weather.finish)]
      + if turn.ClosesAfter() then [MarkClosed(key, s, turn.weather.close)] else []
  }

  lemma RunUpToThree(w: World, steps: seq<Step>)
    requires |steps| <= 3
    ensures Run(w, steps) ==
              if |steps| == 0 then w
              else if |steps| == 1 then Next(w, steps[0])
              else if |steps| == 2 then Next(Next(w, steps[0]), steps[1])
              else Next(Next(Next(w, steps[0]), steps[1]), steps[2])
    decreases |steps|
  {
    if |steps| > 1 { RunUpToThree(Next(w, steps[0]), steps[1..]); }
  }

  /** The steps of a session write exactly what its methods write. */
  lemma SessionStep(w: World, step: Step)
    requires step.Begin? || step.Finish? || step.MarkClosed?
    requires Lives(w, step.key, step.s) && (step.Finish? ==> step.checkpoint !in w.minted)
    ensures
      var w', memory := Next(w, step), At(w, step.key).owner.memory;
      var record := match step
        case Begin(_, _, _) => Claimed(memory)
        case Finish(_, _, threadId, patch, closed, checkpoint, _) => Committed(memory, threadId, patch, checkpoint, closed)
        case MarkClosed(_, _, _) => Archived(memory);
      && At(w', step.key) == Slot(Written(At(w, step.key).file, record, step.outcome, w.now), Session(step.s, record))
      && w'.now == w.now
      && (step.Begin? ==> w'.minted == w.minted)
  {
  }

  /** A turn left to itself: what its methods leave on disk is what its steps leave there. */
  lemma TurnAlone(w: World, key: Key, s: nat, turn: Turn)
    requires Lives(w, key, s) && turn.minted !in w.minted
    ensures
      var state := At(w, key).owner.memory;
      var w' := Run(w, TurnSteps(key, s, state.threadId, turn));
      Lives(w', key, s) && At(w', key).file == TurnLeaves(At(w, key).file, state, turn, w.now)
  {
    var state := At(w, key).owner.memory;
    var steps := TurnSteps(key, s, state.threadId, turn);
    RunUpToThree(w, steps);
    if |steps| >= 1 {
      SessionStep(w, steps[0]);
      if |steps| >= 2 {
        SessionStep(Next(w, steps[0]), steps[1]);
        if |steps| == 3 {
          SessionStep(Next(Next(w, steps[0]), steps[1]), steps[2]);
        }
      }
    }
  }

  // ---- Turns among other processes ----

  predicate Own(step: Step, key: Key, s: nat) {
    && (step.SetAdapter? || step.Begin? || step.Finish? || step.MarkClosed? || step.Drop?)
    && step.key == key && step.s == s
  }

  function OwnSteps(steps: seq<Step>, key: Key, s: nat): seq<Step> {
    if steps == [] then [] else (if Own(steps[0], key, s) then [steps[0]] else []) + OwnSteps(steps[1..], key, s)
  }

  /** The checkpoint of a turn is minted by the turn's own commit and by nobody else's. */
  predicate MintedByOwn(steps: seq<Step>, key: Key, s: nat, c: Checkpoint) {
    forall i | 0 <= i < |steps| && steps[i].Finish? :: steps[i].checkpoint == c <==> Own(steps[i], key, s)
  }

  function RecordOf(file: Option<Stored>): Option<Record> {
    if file.Some? then Some(file.value.record) else None
  }

  /** Two worlds in which the session stands the same; they may differ in anything else. */
  ghost predicate SameTurn(u: World, v: World, key: Key, s: nat, c: Checkpoint) {
    && Lives(u, key, s) && At(v, key).owner == At(u, key).owner
    && RecordOf(At(v, key).file) == RecordOf(At(u, key).file)
    && (c in v.minted <==> c in u.minted)
  }

  lemma OtherStepKeepsTurn(u: World, v: World, step: Step, key: Key, s: nat, c: Checkpoint)
    requires SameTurn(u, v, key, s, c) && !Own(step, key, s) && (step.Finish? ==> step.checkpoint != c)
    ensures SameTurn(Next(u, step), v, key, s, c)
  {
  }

  lemma OwnStepKeepsTurn(u: World, v: World, step: Step, key: Key, s: nat, c: Checkpoint)
    requires SameTurn(u, v, key, s, c) && Own(step, key, s) && !step.Drop? && (step.Finish? ==> step.checkpoint == c)
    ensures SameTurn(Next(u, step), Next(v, step), key, s, c)
  {
  }

  /** What others do between the steps of a session makes no difference to it. */
  lemma {:induction false} OthersMakeNoDifference(u: World, v: World, steps: seq<Step>, key: Key, s: nat, c: Checkpoint)
    requires SameTurn(u, v, key, s, c) && MintedByOwn(steps, key, s, c)
    requires forall step | step in OwnSteps(steps, key, s) :: !step.Drop?
    ensures SameTurn(Run(u, steps), Run(v, OwnSteps(steps, key, s)), key, s, c)
    decreases |steps|
  {
    if steps != [] {
      var step, rest, own := steps[0], steps[1..], OwnSteps(steps, key, s);
      if Own(step, key, s) {
        assert own[0] == step && own[1..] == OwnSteps(rest, key, s);
        OwnStepKeepsTurn(u, v, step, key, s, c);
        OthersMakeNoDifference(Next(u, step), Next(v, step), rest, key, s, c);
      } else {
        assert own == OwnSteps(rest, key, s);
        OtherStepKeepsTurn(u, v, step, key, s, c);
        OthersMakeNoDifference(Next(u, step), v, rest, key, s, c);
      }
    }
  }

  /** A turn is a run of the shared-directory world, whatever other processes do between its steps: the
      record that its methods leave on disk is the one that the run leaves there, so everything proved
      of runs holds of turns. */
  lemma TurnRefinesWorld(w: World, key: Key, s: nat, turn: Turn, steps: seq<Step>)
    requires Lives(w, key, s) && turn.minted !in w.minted && MintedByOwn(steps, key, s, turn.minted)
    requires OwnSteps(steps, key, s) == TurnSteps(key, s, At(w, key).owner.memory.threadId, turn)
    ensures
      var w' := Run(w, steps);
      && Lives(w', key, s)
      && RecordOf(At(w', key).file) == RecordOf(TurnLeaves(At(w, key).file, At(w, key).owner.memory, turn, w.now))
  {
    OthersMakeNoDifference(w, w, steps, key, s, turn.minted);
    TurnAlone(w, key, s, turn);
  }

  /** The claim alone, or the claim and a commit that did not reach the disk. */
  lemma UncommittedSteps(w: World, key: Key, s: nat, turn: Turn, own: seq<Step>)
    requires Lives(w, key, s) && turn.minted !in w.minted && Replaces(turn.weather.begin)
    requires own != [] && own <= TurnSteps(key, s, At(w, key).owner.memory.threadId, turn)
    requires |own| == 1 || turn.weather.finish.FailedBefore?
    ensures RecordOf(At(Run(w, own), key).file) == Some(Claimed(At(w, key).owner.memory))
  {
    RunUpToThree(w, own);
    SessionStep(w, own[0]);
    if |own| >= 2 { SessionStep(Next(w, own[0]), own[1]); }
  }

  /** A turn that claimed its thread and failed or was killed before its commit reached the disk, with
      other processes active all along, can never be resumed, closed or restarted, whatever any
      process does afterwards. */
  lemma UncommittedTurnIsNeverReplayed(w: World, key: Key, s: nat, turn: Turn, steps: seq<Step>, later: seq<Step>,
                                       control: Control, binding: string)
    requires Lives(w, key, s) && turn.minted !in w.minted && control.sessionRef == key.sessionRef
    requires MintedByOwn(steps, key, s, turn.minted) && Replaces(turn.weather.begin)
    requires OwnSteps(steps, key, s) != []
    requires OwnSteps(steps, key, s) <= TurnSteps(key, s, At(w, key).owner.memory.threadId, turn)
    requires |OwnSteps(steps, key, s)| == 1 || turn.weather.finish.FailedBefore?
    ensures
      var killed := Next(Run(w, steps), Drop(key, s));
      && RecordOf(At(Run(killed, later), key).file).Some?
      && HoldsPhase(At(w, key).owner.memory, RecordOf(At(Run(killed, later), key).file).value, InFlight)
      && Admission(Run(killed, later), key.scope, control, binding).Err?
  {
    OthersMakeNoDifference(w, w, steps, key, s, turn.minted);
    UncommittedSteps(w, key, s, turn, OwnSteps(steps, key, s));
    var killed := Next(Run(w, steps), Drop(key, s));
    LostAttemptIsNeverReplayed(killed, later, key, control, binding, 0);
  }
}
