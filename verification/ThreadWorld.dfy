/**
 Any number of worker processes sharing one directory of thread records. Each key has a file and a
 `flock` with at most one owner; a session keeps its record in memory for as long as it owns the
 lock. Every process may be killed between any two steps; a kill forgets its memory and releases
 its lock (`Drop`, `PruneGiveUp`). A step that is not enabled leaves the world as it is, so a run
 is any list of steps.
 */
module ThreadWorld {
  import opened Wrappers
  import opened AtomicFile
  import opened ThreadRecord

  datatype Owner =
    | Free
    | Session(id: nat, memory: Record)
    | Pruner(id: nat, startedAt: int)

  datatype Slot = Slot(file: Option<Stored>, owner: Owner)

  datatype World = World(
    slots: map<Key, Slot>,
    // Reclamation passes under way, with the clock reading each started from.
    passes: map<nat, int>,
    now: int,
    // History: the key each session ever opened, the key each checkpoint was minted for, and
    // which session wrote over a record that carried a checkpoint.
    home: map<nat, Key>,
    minted: map<Checkpoint, Key>,
    advanced: set<(Checkpoint, nat)>)

  datatype Step =
    | Open(s: nat, scope: string, control: Control, binding: string)
    | SetAdapter(key: Key, s: nat, adapter: string)
    | Begin(key: Key, s: nat, outcome: SaveOutcome)
    | Finish(key: Key, s: nat, threadId: string, patch: string, closed: bool, checkpoint: Checkpoint,
             outcome: SaveOutcome)
    | MarkClosed(key: Key, s: nat, outcome: SaveOutcome)
    | Drop(key: Key, s: nat)
    | PruneStart(p: nat)
    | PruneLock(key: Key, p: nat)
    | PruneDecide(key: Key, p: nat)
    | PruneGiveUp(key: Key, p: nat)
    | PruneEnd(p: nat)
    | Clock(time: int)

  function At(w: World, key: Key): Slot {
    if key in w.slots then w.slots[key] else Slot(None, Free)
  }

  predicate Lives(w: World, key: Key, s: nat) {
    At(w, key).owner.Session? && At(w, key).owner.id == s
  }

  predicate Prunes(w: World, key: Key, p: nat) {
    At(w, key).owner.Pruner? && At(w, key).owner.id == p
  }

  function Put(w: World, key: Key, slot: Slot): World {
    w.(slots := w.slots[key := slot])
  }

  function Admission(w: World, scope: string, control: Control, binding: string): Result<Record, OpenError> {
    var slot := At(w, Key(scope, control.sessionRef));
    Admit(scope, control, binding, slot.owner.Free?, slot.file)
  }

  function OpenStep(w: World, s: nat, scope: string, control: Control, binding: string): World {
    var key := Key(scope, control.sessionRef);
    match Admission(w, scope, control, binding)
    case Err(_) => w
    case Ok(record) =>
      if s in w.home then w
      else Put(w, key, At(w, key).(owner := Session(s, record))).(home := w.home[s := key])
  }

  /** The history entry of a write: whoever replaces a file that carried a checkpoint advances it. */
  function Advance(file: Option<Stored>, s: nat, outcome: SaveOutcome): set<(Checkpoint, nat)> {
    if Replaces(outcome) && file.Some? && file.value.record.checkpoint.Some?
    then {(file.value.record.checkpoint.value, s)} else {}
  }

  /** A session saves `record`: its memory changes whether or not the file was replaced. */
  function Save(w: World, key: Key, s: nat, record: Record, outcome: SaveOutcome): World {
    var file := At(w, key).file;
    Put(w, key, Slot(Written(file, record, outcome, w.now), Session(s, record)))
      .(advanced := w.advanced + Advance(file, s, outcome))
  }

  function FinishStep(w: World, key: Key, s: nat, threadId: string, patch: string, closed: bool,
                      checkpoint: Checkpoint, outcome: SaveOutcome): World
    requires Lives(w, key, s)
  {
    Save(w.(minted := w.minted[checkpoint := key]), key, s,
         Committed(At(w, key).owner.memory, threadId, patch, checkpoint, closed), outcome)
  }

  function DecideStep(w: World, key: Key): World
    requires At(w, key).owner.Pruner?
  {
    var slot := At(w, key);
    Put(w, key, Slot(if slot.file.Some? && Reclaimable(slot.file.value, slot.owner.startedAt - CLOSED_RETENTION) then None else slot.file, Free))
  }

  function Next(w: World, step: Step): World {
    match step
    case Open(s, scope, control, binding) => OpenStep(w, s, scope, control, binding)
    case SetAdapter(key, s, adapter) =>
      if Lives(w, key, s)
      then Put(w, key, At(w, key).(owner := Session(s, At(w, key).owner.memory.(adapter := Some(adapter))))) else w
    case Begin(key, s, outcome) =>
      if Lives(w, key, s) then Save(w, key, s, Claimed(At(w, key).owner.memory), outcome) else w
    case Finish(key, s, threadId, patch, closed, checkpoint, outcome) =>
      if Lives(w, key, s) && checkpoint !in w.minted
      then FinishStep(w, key, s, threadId, patch, closed, checkpoint, outcome) else w
    case MarkClosed(key, s, outcome) =>
      if Lives(w, key, s) then Save(w, key, s, Archived(At(w, key).owner.memory), outcome) else w
    case Drop(key, s) =>
      if Lives(w, key, s) then Put(w, key, At(w, key).(owner := Free)) else w
    case PruneStart(p) =>
      if p in w.passes then w else w.(passes := w.passes[p := w.now])
    case PruneLock(key, p) =>
      if p in w.passes && At(w, key).owner.Free?
      then Put(w, key, At(w, key).(owner := Pruner(p, w.passes[p]))) else w
    case PruneDecide(key, p) => if Prunes(w, key, p) then DecideStep(w, key) else w
    case PruneGiveUp(key, p) => if Prunes(w, key, p) then Put(w, key, At(w, key).(owner := Free)) else w
    case PruneEnd(p) => w.(passes := w.passes - {p})
    case Clock(time) => w.(now := time)
  }

  function Run(w: World, steps: seq<Step>): World
    decreases |steps|
  {
    if steps == [] then w else Run(Next(w, steps[0]), steps[1..])
  }

  const EMPTY_WORLD: World := World(map[], map[], 0, map[], map[], {})

  // ---- What every reachable world satisfies ----

  /** A checkpoint carried by a record was minted for exactly that record's key. */
  ghost predicate Carries(w: World, key: Key, record: Record) {
    record.checkpoint.Some? ==>
      record.checkpoint.value in w.minted && w.minted[record.checkpoint.value] == key
  }

  ghost predicate NeverAdvanced(w: World, c: Checkpoint) {
    forall a | a in w.advanced :: a.0 != c
  }

  /** No session other than `s` has written over checkpoint `c`. */
  ghost predicate OnlyBy(w: World, c: Option<Checkpoint>, s: nat) {
    c.Some? ==> forall a | a in w.advanced && a.0 == c.value :: a.1 == s
  }

  ghost predicate FileOk(w: World, key: Key, record: Record) {
    && record.phase != Unclaimed
    && record.sessionRef == key.sessionRef
    && Carries(w, key, record)
    && (record.phase == Ready ==> record.checkpoint.Some? && NeverAdvanced(w, record.checkpoint.value))
  }

  ghost predicate SessionOk(w: World, key: Key, s: nat, memory: Record, file: Option<Stored>) {
    && s in w.home && w.home[s] == key
    && memory.sessionRef == key.sessionRef
    && Carries(w, key, memory)
    && OnlyBy(w, memory.checkpoint, s)
    && (file.Some? ==>
          && memory.binding == file.value.record.binding
          && OnlyBy(w, file.value.record.checkpoint, s))
  }

  ghost predicate SlotOk(w: World, key: Key) {
    var slot := At(w, key);
    && (slot.file.Some? ==> FileOk(w, key, slot.file.value.record))
    && (slot.owner.Session? ==> SessionOk(w, key, slot.owner.id, slot.owner.memory, slot.file))
  }

  ghost predicate HistoryOk(w: World) {
    && (forall a | a in w.advanced :: a.0 in w.minted)
    && (forall a, b | a in w.advanced && b in w.advanced && a.0 == b.0 :: a.1 == b.1)
  }

  ghost predicate Inv(w: World) {
    HistoryOk(w) && forall key | key in w.slots :: SlotOk(w, key)
  }

  /** History may grow, as long as no new advance concerns a checkpoint minted for this key. */
  lemma SlotFrame(w: World, w': World, key: Key)
    requires SlotOk(w, key) && At(w', key) == At(w, key)
    requires forall s | s in w.home :: s in w'.home && w'.home[s] == w.home[s]
    requires forall c | c in w.minted :: c in w'.minted && w'.minted[c] == w.minted[c]
    requires forall a | a in w'.advanced && a !in w.advanced :: a.0 in w.minted && w.minted[a.0] != key
    ensures SlotOk(w', key)
  {
  }

  lemma OpenKeepsInv(w: World, s: nat, scope: string, control: Control, binding: string)
    requires Inv(w)
    ensures Inv(OpenStep(w, s, scope, control, binding))
  {
    var w' := OpenStep(w, s, scope, control, binding);
    if w' != w {
      var key := Key(scope, control.sessionRef);
      assert SlotOk(w, key);
      assert SlotOk(w', key);
      forall k | k in w'.slots && k != key ensures SlotOk(w', k) { SlotFrame(w, w', k); }
    }
  }

  /** A write either keeps the phase away from READY or brings a checkpoint nobody advanced. */
  lemma SaveKeepsInv(w: World, key: Key, s: nat, record: Record, outcome: SaveOutcome)
    requires Inv(w) && Lives(w, key, s)
    requires record.phase != Unclaimed
    requires record.binding == At(w, key).owner.memory.binding && record.sessionRef == key.sessionRef
    requires Carries(w, key, record) && OnlyBy(w, record.checkpoint, s)
    requires record.phase == Ready ==>
               && record.checkpoint.Some? && NeverAdvanced(w, record.checkpoint.value)
               && (At(w, key).file.Some? ==> At(w, key).file.value.record.checkpoint != record.checkpoint)
    ensures Inv(Save(w, key, s, record, outcome))
  {
    var w' := Save(w, key, s, record, outcome);
    assert SlotOk(w, key);
    assert HistoryOk(w');
    assert SlotOk(w', key);
    forall k | k in w'.slots && k != key ensures SlotOk(w', k) { SlotFrame(w, w', k); }
  }

  lemma FinishKeepsInv(w: World, key: Key, s: nat, threadId: string, patch: string, closed: bool,
                       checkpoint: Checkpoint, outcome: SaveOutcome)
    requires Inv(w) && Lives(w, key, s) && checkpoint !in w.minted
    ensures Inv(FinishStep(w, key, s, threadId, patch, closed, checkpoint, outcome))
  {
    assert SlotOk(w, key);
    var minted := w.(minted := w.minted[checkpoint := key]);
    forall k | k in minted.slots ensures SlotOk(minted, k) { SlotFrame(w, minted, k); }
    SaveKeepsInv(minted, key, s, Committed(At(w, key).owner.memory, threadId, patch, checkpoint, closed), outcome);
  }

  /** A slot rewritten without touching history is well formed on its own account. */
  lemma PutKeepsInv(w: World, key: Key, slot: Slot)
    requires Inv(w) && SlotOk(Put(w, key, slot), key)
    ensures Inv(Put(w, key, slot))
  {
    var w' := Put(w, key, slot);
    forall k | k in w'.slots && k != key ensures SlotOk(w', k) { SlotFrame(w, w', k); }
  }

  lemma NextKeepsInv(w: World, step: Step)
    requires Inv(w)
    ensures Inv(Next(w, step))
  {
    match step
    case Open(s, scope, control, binding) => OpenKeepsInv(w, s, scope, control, binding);
    case Begin(key, s, outcome) =>
      if Lives(w, key, s) { SaveKeepsInv(w, key, s, Claimed(At(w, key).owner.memory), outcome); }
    case Finish(key, s, threadId, patch, closed, checkpoint, outcome) =>
      if Lives(w, key, s) && checkpoint !in w.minted {
        FinishKeepsInv(w, key, s, threadId, patch, closed, checkpoint, outcome);
      }
    case MarkClosed(key, s, outcome) =>
      if Lives(w, key, s) { SaveKeepsInv(w, key, s, Archived(At(w, key).owner.memory), outcome); }
    case PruneStart(_) => forall k | k in w.slots ensures SlotOk(Next(w, step), k) { SlotFrame(w, Next(w, step), k); }
    case PruneEnd(_) => forall k | k in w.slots ensures SlotOk(Next(w, step), k) { SlotFrame(w, Next(w, step), k); }
    case Clock(_) => forall k | k in w.slots ensures SlotOk(Next(w, step), k) { SlotFrame(w, Next(w, step), k); }
    case _ => LocalKeepsInv(w, step);
  }

  /** Steps that rewrite one slot and no history. */
  lemma LocalKeepsInv(w: World, step: Step)
    requires Inv(w)
    requires step.SetAdapter? || step.Drop? || step.PruneLock? || step.PruneDecide? || step.PruneGiveUp?
    ensures Inv(Next(w, step))
  {
    var w' := Next(w, step);
    if w' != w {
      assert SlotOk(w, step.key);
      PutKeepsInv(w, step.key, At(w', step.key));
    }
  }

  lemma {:induction false} RunKeepsInv(w: World, steps: seq<Step>)
    requires Inv(w)
    ensures Inv(Run(w, steps))
    decreases |steps|
  {
    if steps != [] {
      NextKeepsInv(w, steps[0]);
      RunKeepsInv(Next(w, steps[0]), steps[1..]);
    }
  }

  /** Every run from an empty directory: no session owns two threads, nothing unclaimed is ever on
      disk, a READY record's checkpoint has not been used, and no checkpoint is used by two sessions. */
  lemma EveryRunIsSafe(steps: seq<Step>)
    ensures var w := Run(EMPTY_WORLD, steps);
      && (forall j, k, s | Lives(w, j, s) && Lives(w, k, s) :: j == k)
      && (forall k | k in w.slots && w.slots[k].file.Some? ::
            && w.slots[k].file.value.record.phase != Unclaimed
            && (w.slots[k].file.value.record.phase == Ready ==>
                  && w.slots[k].file.value.record.checkpoint.Some?
                  && NeverAdvanced(w, w.slots[k].file.value.record.checkpoint.value)))
      && (forall a, b | a in w.advanced && b in w.advanced && a.0 == b.0 :: a.1 == b.1)
  {
    RunKeepsInv(EMPTY_WORLD, steps);
    var w := Run(EMPTY_WORLD, steps);
    forall j, k, s | Lives(w, j, s) && Lives(w, k, s) ensures j == k {
      assert SlotOk(w, j) && SlotOk(w, k);
    }
    forall k | k in w.slots && w.slots[k].file.Some? ensures FileOk(w, k, w.slots[k].file.value.record) {
      assert SlotOk(w, k);
    }
  }

  // ---- A lost attempt is never replayed ----

  /** The attempt's claim is on disk and no live session owns the thread. */
  ghost predicate Lost(w: World, key: Key) {
    && At(w, key).file.Some? && At(w, key).file.value.record.phase == InFlight
    && !At(w, key).owner.Session?
  }

  lemma LostStepStaysLost(w: World, step: Step, key: Key)
    requires Lost(w, key)
    ensures Lost(Next(w, step), key) && At(Next(w, step), key).file == At(w, key).file
  {
  }

  lemma {:induction false} LostStaysLost(w: World, steps: seq<Step>, key: Key)
    requires Lost(w, key)
    ensures Lost(Run(w, steps), key) && At(Run(w, steps), key).file == At(w, key).file
    decreases |steps|
  {
    if steps != [] {
      LostStepStaysLost(w, steps[0], key);
      LostStaysLost(Next(w, steps[0]), steps[1..], key);
    }
  }

  /** After any further steps of any processes the record still reads IN_FLIGHT, unchanged, and
      every open of the thread in whatever mode, checkpoint and binding is refused. */
  lemma LostAttemptIsNeverReplayed(w: World, steps: seq<Step>, key: Key, control: Control, binding: string, s: nat)
    requires Lost(w, key) && control.sessionRef == key.sessionRef
    ensures var w' := Run(w, steps);
      && At(w', key).file == At(w, key).file
      && Admission(w', key.scope, control, binding).Err?
      && Next(w', Open(s, key.scope, control, binding)) == w'
  {
    LostStaysLost(w, steps, key);
  }

  /** Whoever first wrote over a checkpoint used it up: no request naming it opens a thread again. */
  lemma UsedCheckpointNeverOpens(w: World, steps: seq<Step>, c: Checkpoint, s: nat,
                                 scope: string, control: Control, binding: string)
    requires Inv(w) && (c, s) in w.advanced && control.expected == Some(c)
    ensures Admission(Run(w, steps), scope, control, binding).Err?
    ensures forall t | (c, t) in Run(w, steps).advanced :: t == s
  {
    RunKeepsInv(w, steps);
    AdvancesAreKept(w, steps, (c, s));
    assert SlotOk(Run(w, steps), Key(scope, control.sessionRef));
  }

  lemma {:induction false} AdvancesAreKept(w: World, steps: seq<Step>, a: (Checkpoint, nat))
    requires a in w.advanced
    ensures a in Run(w, steps).advanced
    decreases |steps|
  {
    if steps != [] { AdvancesAreKept(Next(w, steps[0]), steps[1..], a); }
  }

  // ---- What a session that writes nothing leaves behind ----

  /** Steps that end session `s` of this key or replace its file. */
  predicate WritesOrDrops(step: Step, key: Key, s: nat) {
    match step
    case Begin(k, t, outcome) => k == key && t == s && Replaces(outcome)
    case Finish(k, t, _, _, _, _, outcome) => k == key && t == s && Replaces(outcome)
    case MarkClosed(k, t, outcome) => k == key && t == s && Replaces(outcome)
    case Drop(k, t) => k == key && t == s
    case _ => false
  }

  predicate QuietFor(steps: seq<Step>, key: Key, s: nat) {
    forall i | 0 <= i < |steps| :: !WritesOrDrops(steps[i], key, s)
  }

  lemma QuietStep(w: World, step: Step, key: Key, s: nat)
    requires Lives(w, key, s) && !WritesOrDrops(step, key, s)
    ensures Lives(Next(w, step), key, s) && At(Next(w, step), key).file == At(w, key).file
  {
  }

  lemma {:induction false} QuietRun(w: World, steps: seq<Step>, key: Key, s: nat)
    requires Lives(w, key, s) && QuietFor(steps, key, s)
    ensures Lives(Run(w, steps), key, s) && At(Run(w, steps), key).file == At(w, key).file
    decreases |steps|
  {
    if steps != [] {
      QuietStep(w, steps[0], key, s);
      QuietRun(Next(w, steps[0]), steps[1..], key, s);
    }
  }

  /** An open dropped before any write took effect, with arbitrary activity of other processes in
      between, leaves the record as it was, and the same request opens again with the same answer. */
  lemma AbandonedOpenIsInvisible(w: World, s: nat, scope: string, control: Control, binding: string, steps: seq<Step>)
    requires s !in w.home && Admission(w, scope, control, binding).Ok?
    requires QuietFor(steps, Key(scope, control.sessionRef), s)
    ensures
      var key := Key(scope, control.sessionRef);
      var w' := Next(Run(Next(w, Open(s, scope, control, binding)), steps), Drop(key, s));
      && At(w', key) == At(w, key)
      && Admission(w', scope, control, binding) == Admission(w, scope, control, binding)
  {
    QuietRun(Next(w, Open(s, scope, control, binding)), steps, Key(scope, control.sessionRef), s);
  }

  /** How attempts get lost: a claim that reached the disk, then the session gone without another
      write that took effect, whatever the other processes did meanwhile. */
  lemma InterruptedAttemptIsLost(w: World, key: Key, s: nat, outcome: SaveOutcome, steps: seq<Step>)
    requires Lives(w, key, s) && Replaces(outcome) && QuietFor(steps, key, s)
    ensures Lost(Next(Run(Next(w, Begin(key, s, outcome)), steps), Drop(key, s)), key)
  {
    QuietRun(Next(w, Begin(key, s, outcome)), steps, key, s);
  }

  // ---- What a commit promises the next turn ----

  predicate OpensThread(step: Step, key: Key) {
    step.Open? && Key(step.scope, step.control.sessionRef) == key
  }

  /** Nobody has the thread open, and it is not up for reclamation. */
  ghost predicate AtRest(w: World, key: Key) {
    At(w, key).file.Some? && At(w, key).file.value.record.phase != Closed && !At(w, key).owner.Session?
  }

  lemma RestStep(w: World, step: Step, key: Key)
    requires AtRest(w, key) && !OpensThread(step, key)
    ensures AtRest(Next(w, step), key) && At(Next(w, step), key).file == At(w, key).file
  {
  }

  lemma {:induction false} RestRun(w: World, steps: seq<Step>, key: Key)
    requires AtRest(w, key) && forall i | 0 <= i < |steps| :: !OpensThread(steps[i], key)
    ensures AtRest(Run(w, steps), key) && At(Run(w, steps), key).file == At(w, key).file
    decreases |steps|
  {
    if steps != [] {
      RestStep(w, steps[0], key);
      RestRun(Next(w, steps[0]), steps[1..], key);
    }
  }

  /** A round trip: what a turn committed is what the next open by its checkpoint finds, after any
      activity on other threads and any number of reclamation passes, however old the record is. */
  lemma CommittedRecordReopens(w: World, key: Key, s: nat, threadId: string, patch: string, checkpoint: Checkpoint,
                               steps: seq<Step>, control: Control)
    requires Lives(w, key, s) && checkpoint !in w.minted && threadId != ""
    requires forall i | 0 <= i < |steps| :: !OpensThread(steps[i], key)
    requires TrustedScope(key.scope) && control.Valid()
    requires control.sessionRef == key.sessionRef && control.expected == Some(checkpoint)
    ensures
      var memory := At(w, key).owner.memory;
      var left := Next(Next(w, Finish(key, s, threadId, patch, false, checkpoint, Saved)), Drop(key, s));
      var w' := Run(left, steps);
      && At(w', key).file.Some? && At(w', key).file.value.modified == w.now
      && HoldsResult(memory, At(w', key).file.value.record, threadId, patch, checkpoint, Ready)
      && (At(w', key).owner.Free? ==>
            var answer := Admission(w', key.scope, control, memory.binding);
            answer.Ok? && HoldsResult(memory, answer.value, threadId, patch, checkpoint, Ready))
  {
    var left := Next(Next(w, Finish(key, s, threadId, patch, false, checkpoint, Saved)), Drop(key, s));
    RestRun(left, steps, key);
  }

  /** No open of an existing thread gets past a binding, checkpoint or phase other than the record's. */
  lemma AdmittedMatchesRecord(w: World, scope: string, control: Control, binding: string)
    requires !control.mode.New? && Admission(w, scope, control, binding).Ok?
    ensures
      var slot := At(w, Key(scope, control.sessionRef));
      && slot.owner.Free? && slot.file.Some?
      && slot.file.value.record.binding == binding && slot.file.value.record.phase == Ready
      && slot.file.value.record.checkpoint == control.expected && control.expected.Some?
  {
    var slot := At(w, Key(scope, control.sessionRef));
    AdmitExactly(scope, control, binding, slot.owner.Free?, slot.file);
  }

  // ---- Reclamation ----

  ghost predicate Reclaims(w: World, step: Step, key: Key) {
    var slot := At(w, key);
    && step.PruneDecide? && step.key == key
    && slot.owner.Pruner? && slot.owner.id == step.p
    && slot.file.Some? && slot.file.value.record.phase == Closed && slot.file.value.modified < slot.owner.startedAt - CLOSED_RETENTION
  }

  lemma RunTwoMore(w: World, a: Step, b: Step, rest: seq<Step>)
    ensures Run(w, [a, b] + rest) == Run(Next(Next(w, a), b), rest)
  {
    var steps := [a, b] + rest;
    assert steps[1..][0] == b && steps[1..][1..] == rest;
    assert Run(w, steps) == Run(Next(w, a), steps[1..]);
  }

  /** One reclamation pass over a listing, without interruption. */
  function PassSteps(keys: seq<Key>, p: nat): seq<Step> {
    if keys == [] then [] else [PruneLock(keys[0], p), PruneDecide(keys[0], p)] + PassSteps(keys[1..], p)
  }

  function AfterPass(slot: Slot, cutoff: int): Slot {
    if slot.owner.Free? && slot.file.Some? && Reclaimable(slot.file.value, cutoff) then Slot(None, Free) else slot
  }

  lemma PassVisits(w: World, visited: Key, p: nat, key: Key)
    requires p in w.passes && !Prunes(w, key, p)
    ensures
      var w' := Next(Next(w, PruneLock(visited, p)), PruneDecide(visited, p));
      && w'.passes == w.passes
      && At(w', key) == if key == visited then AfterPass(At(w, key), w.passes[p] - CLOSED_RETENTION) else At(w, key)
  {
  }

  /** A pass removes exactly the listed records that nobody holds, that are CLOSED and that expired
      before it started, which is what `PruneClosed` does to its directory. */
  lemma {:induction false} PassReclaims(w: World, keys: seq<Key>, p: nat, key: Key)
    requires p in w.passes && !Prunes(w, key, p)
    ensures
      At(Run(w, PassSteps(keys, p)), key) ==
        if key in keys then AfterPass(At(w, key), w.passes[p] - CLOSED_RETENTION) else At(w, key)
    decreases |keys|
  {
    if keys != [] {
      var w' := Next(Next(w, PruneLock(keys[0], p)), PruneDecide(keys[0], p));
      PassVisits(w, keys[0], p, key);
      PassReclaims(w', keys[1..], p, key);
      RunTwoMore(w, PruneLock(keys[0], p), PruneDecide(keys[0], p), PassSteps(keys[1..], p));
    }
  }

  /** The record at `key` is still there and still the same thread's. */
  ghost predicate SameThread(w: World, w': World, key: Key) {
    && At(w, key).file.Some? && At(w', key).file.Some?
    && At(w', key).file.value.record.binding == At(w, key).file.value.record.binding
    && At(w', key).file.value.record.sessionRef == At(w, key).file.value.record.sessionRef
  }

  lemma RecordEndsOnlyByReclaim(w: World, step: Step, key: Key)
    requires Inv(w) && At(w, key).file.Some?
    ensures SameThread(w, Next(w, step), key) || (At(Next(w, step), key).file.None? && Reclaims(w, step, key))
  {
    assert SlotOk(w, key);
  }

  /** Over a whole run: either the record kept its binding and session reference throughout, or at
      some moment a pass holding its lock removed it, CLOSED and unmodified for thirty days before that pass started. */
  lemma {:induction false} RecordLifetime(w: World, steps: seq<Step>, key: Key)
    requires Inv(w) && At(w, key).file.Some?
    ensures SameThread(w, Run(w, steps), key)
         || (exists i :: 0 <= i < |steps| && Reclaims(Run(w, steps[..i]), steps[i], key))
    decreases |steps|
  {
    if steps != [] {
      var w1, rest := Next(w, steps[0]), steps[1..];
      NextKeepsInv(w, steps[0]);
      RecordEndsOnlyByReclaim(w, steps[0], key);
      if At(w1, key).file.None? {
        assert Reclaims(Run(w, steps[..0]), steps[0], key);
      } else {
        RecordLifetime(w1, rest, key);
        if !SameThread(w1, Run(w1, rest), key) {
          var i :| 0 <= i < |rest| && Reclaims(Run(w1, rest[..i]), rest[i], key);
          assert steps[..i + 1][1..] == rest[..i];
          assert Reclaims(Run(w, steps[..i + 1]), steps[i + 1], key);
        }
      }
    }
  }
}
