/**
 A native coding-thread checkpoint: what one record says, who may open it, and what each
 operation of a session writes back. These are the value-level rules; `CodingSession` carries
 them out on a directory in place, and `ThreadWorld` interleaves them over many processes.
 */
module ThreadRecord {
  import opened Wrappers
  import opened AtomicFile

  type Checkpoint = nat

  const NIL_UUID: nat := 0
  const CLOSED_RETENTION: int := 30 * 24 * 60 * 60

  /** `Unclaimed` exists in memory only: a new thread before its first write. */
  datatype Phase = Unclaimed | Ready | InFlight | Closed

  datatype Record = Record(
    binding: string,
    sessionRef: nat,
    phase: Phase,
    threadId: Option<string>,
    patch: string,
    checkpoint: Option<Checkpoint>,
    adapter: Option<string>)

  /** A record file together with its modification time. */
  datatype Stored = Stored(record: Record, modified: int)

  /** The file stem is a digest of scope and session reference, taken to be collision free. */
  datatype Key = Key(scope: string, sessionRef: nat)

  datatype Mode = New | Resume | Close

  datatype Control = Control(
    runnerId: string,
    stageId: string,
    sessionRef: nat,
    mode: Mode,
    expected: Option<Checkpoint>)
  {
    predicate Valid() {
      && 0 < |runnerId| <= 128
      && sessionRef != NIL_UUID
      && 0 < |stageId| <= 128
      && (forall i | 0 <= i < |stageId| :: StageChar(stageId[i]))
      && (mode.New? <==> expected.None?)
      && expected != Some(NIL_UUID)
    }
  }

  predicate StageChar(c: char) {
    'a' <= c <= 'z' || 'A' <= c <= 'Z' || '0' <= c <= '9' || c == '-' || c == '_' || c == '.'
  }

  predicate TrustedScope(scope: string) {
    |scope| == 71 && scope[..7] == "sha256:"
  }

  datatype OpenError =
    | InvalidControl
    | UntrustedScope
    | Busy
    | AlreadyExists
    | Unavailable
    | BindingChanged
    | ClosedOrUncertain
    | StaleCheckpoint
    | NoNativeThread

  function Fresh(binding: string, sessionRef: nat): Record {
    Record(binding, sessionRef, Unclaimed, None, "", None, None)
  }

  /** What an open answers, given whether the lock was obtained and what the file holds. */
  function Admit(scope: string, control: Control, binding: string, locked: bool, stored: Option<Stored>)
    : Result<Record, OpenError>
  {
    if !control.Valid() then Err(InvalidControl)
    else if !TrustedScope(scope) then Err(UntrustedScope)
    else if !locked then Err(Busy)
    else if control.mode.New? then
      if stored.Some? then Err(AlreadyExists) else Ok(Fresh(binding, control.sessionRef))
    else if stored.None? then Err(Unavailable)
    else
      var record := stored.value.record;
      if record.binding != binding then Err(BindingChanged)
      else if record.phase != Ready then Err(ClosedOrUncertain)
      else if record.checkpoint != control.expected then Err(StaleCheckpoint)
      else if record.threadId.None? || record.threadId.value == "" then Err(NoNativeThread)
      else Ok(record)
  }

  /** The file after a save of `record`. */
  function Written(file: Option<Stored>, record: Record, outcome: SaveOutcome, now: int): Option<Stored> {
    if Replaces(outcome) then Some(Stored(record, now)) else file
  }

  function Claimed(record: Record): Record { record.(phase := InFlight) }

  function Committed(record: Record, threadId: string, patch: string, minted: Checkpoint, closed: bool): Record {
    record.(threadId := Some(threadId), patch := patch, checkpoint := Some(minted),
            phase := if closed then Closed else Ready)
  }

  function Archived(record: Record): Record { record.(phase := Closed) }

  /** `after` is `before` with the result of a turn: its thread, its patch and a new checkpoint. */
  ghost predicate HoldsResult(before: Record, after: Record, threadId: string, patch: string, minted: Checkpoint,
                              phase: Phase) {
    && after.threadId == Some(threadId) && after.patch == patch && after.checkpoint == Some(minted) && after.phase == phase
    && after.binding == before.binding && after.sessionRef == before.sessionRef && after.adapter == before.adapter
  }

  /** Only the phase differs. */
  ghost predicate HoldsPhase(before: Record, after: Record, phase: Phase) {
    && after.phase == phase && after.threadId == before.threadId && after.patch == before.patch
    && after.checkpoint == before.checkpoint && after.binding == before.binding
    && after.sessionRef == before.sessionRef && after.adapter == before.adapter
  }

  /** Who gets a thread: a new one only where there is no record, an existing one only READY, under the
      binding and the checkpoint it was left with. Nobody gets anything else than that record. */
  lemma AdmitExactly(scope: string, control: Control, binding: string, locked: bool, stored: Option<Stored>)
    ensures
      var answer := Admit(scope, control, binding, locked, stored);
      && (answer.Ok? <==>
            && control.Valid() && |scope| == 71 && scope[..7] == "sha256:" && locked
            && match control.mode
               case New => stored.None?
               case _ =>
                 && stored.Some? && stored.value.record.binding == binding && stored.value.record.phase == Ready
                 && stored.value.record.checkpoint == control.expected
                 && stored.value.record.threadId.Some? && |stored.value.record.threadId.value| > 0)
      && (answer.Ok? && control.mode.New? ==>
            answer.value == Record(binding, control.sessionRef, Unclaimed, None, "", None, None))
      && (answer.Ok? && !control.mode.New? ==> answer.value == stored.value.record)
  {
  }

  /** And why somebody does not, the first reason in this order. */
  lemma RefusalsExactly(scope: string, control: Control, binding: string, locked: bool, stored: Option<Stored>)
    ensures
      var answer := Admit(scope, control, binding, locked, stored);
      var asks := control.Valid() && TrustedScope(scope) && locked;
      && (answer == Err(InvalidControl) <==> !control.Valid())
      && (answer == Err(UntrustedScope) <==> control.Valid() && !TrustedScope(scope))
      && (answer == Err(Busy) <==> control.Valid() && TrustedScope(scope) && !locked)
      && (answer == Err(AlreadyExists) <==> asks && control.mode.New? && stored.Some?)
      && (answer == Err(Unavailable) <==> asks && !control.mode.New? && stored.None?)
      && (asks && !control.mode.New? && stored.Some? ==>
            var record := stored.value.record;
            && (answer == Err(BindingChanged) <==> record.binding != binding)
            && (answer == Err(ClosedOrUncertain) <==> record.binding == binding && record.phase != Ready)
            && (answer == Err(StaleCheckpoint) <==>
                  record.binding == binding && record.phase == Ready && record.checkpoint != control.expected))
  {
  }

  datatype Receipt = Receipt(sessionRef: nat, checkpoint: Option<Checkpoint>, phase: Phase)

  function ReceiptOf(record: Record): Receipt {
    Receipt(record.sessionRef, record.checkpoint, record.phase)
  }

  predicate Expired(stored: Stored, cutoff: int) { stored.modified < cutoff }

  predicate Reclaimable(stored: Stored, cutoff: int) {
    Expired(stored, cutoff) && stored.record.phase == Closed
  }
}
