/**
 The thread directory and the session object as a worker uses them: records are replaced and
 removed in place, and a session changes its own record before each save. Every method is tied to
 the value-level rules of `ThreadRecord`.
 */
module CodingSessions {
  import opened Wrappers
  import opened AtomicFile
  import opened ThreadRecord

  /** `after` differs from `before` at `key` only, where it holds `file`. */
  ghost predicate Replaced(before: map<Key, Stored>, after: map<Key, Stored>, key: Key, file: Option<Stored>) {
    Lookup(after, key) == file && after - {key} == before - {key}
  }

  /** The private directory of record files and lock files. */
  class ThreadDirectory {
    var disk: map<Key, Stored>
    var locked: set<Key>
    var clock: int

    constructor ()
      ensures disk == map[] && locked == {} && clock == 0
    {
      disk, locked, clock := map[], {}, 0;
    }

    /** Listing, stale by the time a lock is taken, then a second decision under the lock. */
    method PruneClosed()
      modifies this`disk
      ensures disk == map k | k in old(disk) && (k in locked || !Reclaimable(old(disk)[k], clock - CLOSED_RETENTION))
                        :: old(disk)[k]
      ensures forall k | k in old(disk) ::
                k !in disk <==>
                  k !in locked && old(disk)[k].record.phase == Closed && old(disk)[k].modified < clock - 30 * 24 * 60 * 60
    {
      var cutoff := clock - CLOSED_RETENTION;
      var entries := disk.Keys;
      ghost var before := disk;
      while entries != {}
        invariant entries <= before.Keys
        invariant disk.Keys <= before.Keys
        invariant forall k | k in disk :: disk[k] == before[k]
        invariant forall k | k in before ::
                    k in disk <==> k in entries || k in locked || !Reclaimable(before[k], cutoff)
        decreases |entries|
      {
        var k :| k in entries;
        entries := entries - {k};
        if Expired(disk[k], cutoff) && k !in locked {
          if Reclaimable(disk[k], cutoff) {
            disk := disk - {k};
          }
        }
      }
    }

    /** Answers with a session owning the thread's lock, or changes nothing but what a
        reclamation pass removes. */
    method OpenBound(scope: string, control: Control, binding: string)
      returns (r: Result<CodingSession, OpenError>)
      modifies this`disk, this`locked
      ensures disk == if control.Valid() && TrustedScope(scope) then
                        map k | k in old(disk) && (k in old(locked) || !Reclaimable(old(disk)[k], clock - CLOSED_RETENTION))
                          :: old(disk)[k]
                      else old(disk)
      ensures
        var key := Key(scope, control.sessionRef);
        var answer := Admit(scope, control, binding, key !in old(locked), Lookup(disk, key));
        match r
        case Ok(session) =>
          && answer == Ok(session.state) && fresh(session)
          && session.directory == this && session.key == key
          && locked == old(locked) + {key}
        case Err(error) => answer == Err(error) && locked == old(locked)
    {
      var key := Key(scope, control.sessionRef);
      if !control.Valid() {
        return Err(InvalidControl);
      }
      if !TrustedScope(scope) {
        return Err(UntrustedScope);
      }
      PruneClosed();
      if key in locked {
        return Err(Busy);
      }
      var state := Fresh(binding, control.sessionRef);
      match control.mode {
        case New =>
          if key in disk {
            return Err(AlreadyExists);
          }
        case _ =>
          if key !in disk {
            return Err(Unavailable);
          }
          state := disk[key].record;
          if state.binding != binding {
            return Err(BindingChanged);
          }
          if state.phase != Ready {
            return Err(ClosedOrUncertain);
          }
          if state.checkpoint != control.expected {
            return Err(StaleCheckpoint);
          }
          if state.threadId.None? || state.threadId.value == "" {
            return Err(NoNativeThread);
          }
      }
      locked := locked + {key};
      var session := new CodingSession(this, key, state);
      return Ok(session);
    }
  }

  class CodingSession {
    const directory: ThreadDirectory
    const key: Key
    var state: Record

    constructor (directory: ThreadDirectory, key: Key, state: Record)
      ensures this.directory == directory && this.key == key && this.state == state
    {
      this.directory, this.key, this.state := directory, key, state;
    }

    method Save(outcome: SaveOutcome) returns (saved: bool)
      modifies directory`disk
      ensures Replaced(old(directory.disk), directory.disk, key, Written(Lookup(old(directory.disk), key), state, outcome, directory.clock))
      ensures saved <==> outcome.Saved?
      ensures !outcome.FailedBefore? ==> key in directory.disk && directory.disk[key] == Stored(state, directory.clock)
      ensures outcome.FailedBefore? ==> directory.disk == old(directory.disk)
    {
      if outcome.FailedBefore? {
        return false;
      }
      directory.disk := directory.disk[key := Stored(state, directory.clock)];
      return outcome.Saved?;
    }

    method SetAdapterState(adapter: string)
      modifies this`state
      ensures state == old(state).(adapter := Some(adapter))
    {
      state := state.(adapter := Some(adapter));
    }

    method Begin(outcome: SaveOutcome) returns (ok: bool)
      modifies this`state, directory`disk
      ensures state == Claimed(old(state)) && (ok <==> outcome.Saved?)
      ensures HoldsPhase(old(state), state, InFlight)
      ensures !outcome.FailedBefore? ==> key in directory.disk && directory.disk[key] == Stored(state, directory.clock)
      ensures outcome.FailedBefore? ==> directory.disk == old(directory.disk)
      ensures Replaced(old(directory.disk), directory.disk, key, Written(Lookup(old(directory.disk), key), state, outcome, directory.clock))
    {
      state := state.(phase := InFlight);
      ok := Save(outcome);
    }

    method Finish(threadId: string, patch: string, closed: bool, minted: Checkpoint, outcome: SaveOutcome)
      returns (r: Option<Receipt>)
      modifies this`state, directory`disk
      ensures state == Committed(old(state), threadId, patch, minted, closed)
      ensures HoldsResult(old(state), state, threadId, patch, minted, if closed then Closed else Ready)
      ensures !outcome.FailedBefore? ==> key in directory.disk && directory.disk[key] == Stored(state, directory.clock)
      ensures outcome.FailedBefore? ==> directory.disk == old(directory.disk)
      ensures r.Some? ==> r.value == Receipt(old(state).sessionRef, Some(minted), if closed then Closed else Ready)
      ensures Replaced(old(directory.disk), directory.disk, key, Written(Lookup(old(directory.disk), key), state, outcome, directory.clock))
      ensures r == if outcome.Saved? then Some(ReceiptOf(state)) else None
    {
      state := state.(threadId := Some(threadId));
      state := state.(patch := patch);
      state := state.(checkpoint := Some(minted));
      state := state.(phase := if closed then Closed else Ready);
      var saved := Save(outcome);
      r := if saved then Some(ReceiptOf(state)) else None;
    }

    method MarkClosed(outcome: SaveOutcome) returns (r: Option<Receipt>)
      modifies this`state, directory`disk
      ensures state == Archived(old(state))
      ensures HoldsPhase(old(state), state, Closed)
      ensures !outcome.FailedBefore? ==> key in directory.disk && directory.disk[key] == Stored(state, directory.clock)
      ensures outcome.FailedBefore? ==> directory.disk == old(directory.disk)
      ensures r.Some? ==> r.value == Receipt(old(state).sessionRef, old(state).checkpoint, Closed)
      ensures Replaced(old(directory.disk), directory.disk, key, Written(Lookup(old(directory.disk), key), state, outcome, directory.clock))
      ensures r == if outcome.Saved? then Some(ReceiptOf(state)) else None
    {
      state := state.(phase := Closed);
      var saved := Save(outcome);
      r := if saved then Some(ReceiptOf(state)) else None;
    }

    /** Dropping the session releases its lock and leaves every file alone. */
    method Drop()
      modifies directory`locked
      ensures directory.locked == old(directory.locked) - {key}
    {
      directory.locked := directory.locked - {key};
    }
  }
}
