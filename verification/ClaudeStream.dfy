/**
 The frame-by-frame acceptor of one native run: which sequences of frames it accepts, what it reports
 and what an accepted proposal may rely on.
 */
module ClaudeStream {
  import opened Wrappers
  import opened AtomicFile
  import opened ThreadRecord
  import opened CodingSessions

  const MAX_FRAME_BYTES: nat := 1024 * 1024
  const MAX_PATCH_BYTES: nat := 128 * 1024

  /** The `session_id` member of a frame. */
  datatype SessionField = Absent | Text(id: string) | NotText

  datatype ContentItem = ToolUse(id: Option<string>, name: Option<string>) | OtherContent

  datatype Denials = NotReported | Listed(count: nat) | Malformed

  datatype Kind =
    | NoType
    | Init(model: Option<string>, permission: Option<string>)
    | PermissionDenied
    | SystemNote
    | UnknownSystem
    | StreamOther
    | StreamText(text: Option<string>)
    | Conversation(content: seq<ContentItem>)
    | RateLimit
    | Final(success: bool, isError: bool, text: Option<string>, structured: bool, denials: Denials)
    | UnknownKind

  /** One line of output, as far as the acceptor looks at it. */
  datatype Frame = Frame(bytes: nat, isObject: bool, session: SessionField, kind: Kind)

  datatype Event =
    | Initialized(session: string, model: string)
    | TextDelta(text: string)
    | ToolObserved(id: string, name: string)
    | Denied

  datatype NativeResult = NativeResult(text: string, structured: bool, model: string, denials: nat)

  /** What the run was launched with. */
  datatype Launch = Launch(session: string, model: string, permission: Option<string>)

  predicate IdentifierChar(c: char) {
    'a' <= c <= 'z' || 'A' <= c <= 'Z' || '0' <= c <= '9' || c == '-' || c == '.' || c == '_'
  }

  predicate Identifier(s: string) {
    0 < |s| <= 128 && forall i | 0 <= i < |s| :: IdentifierChar(s[i])
  }

  predicate GoodTool(item: ContentItem) {
    item.ToolUse? ==>
      item.id.Some? && item.name.Some? && Identifier(item.id.value) && Identifier(item.name.value)
  }

  // ---- The language ----

  /** A frame that is acceptable in itself, whatever came before it. */
  ghost predicate Admissible(launch: Launch, frame: Frame) {
    && frame.bytes <= MAX_FRAME_BYTES
    && frame.isObject
    && (frame.session == Absent || frame.session == Text(launch.session))
    && match frame.kind
       case Init(model, permission) =>
         && frame.session == Text(launch.session) && model == Some(launch.model)
         && (launch.permission.Some? ==> permission == launch.permission)
       case StreamText(text) => text.Some?
       case Conversation(content) => forall item | item in content :: GoodTool(item)
       case Final(success, isError, text, structured, denials) =>
         && frame.session == Text(launch.session) && success && !isError
         && (text.Some? || structured) && !denials.Malformed?
       case NoType => false
       case UnknownSystem => false
       case UnknownKind => false
       case _ => true
  }

  predicate NeedsInit(kind: Kind) { kind.StreamOther? || kind.StreamText? || kind.Conversation? || kind.Final? }

  predicate HasInit(frames: seq<Frame>) {
    exists i | 0 <= i < |frames| :: frames[i].kind.Init?
  }

  /** The runs that may still be accepted: every frame admissible, nothing after a final frame, the
      initialization once and before everything that needs it. */
  ghost predicate Promising(launch: Launch, frames: seq<Frame>) {
    && (forall i | 0 <= i < |frames| :: Admissible(launch, frames[i]))
    && (forall i | 0 <= i < |frames| - 1 :: !frames[i].kind.Final?)
    && (forall i, j | 0 <= i < j < |frames| :: !(frames[i].kind.Init? && frames[j].kind.Init?))
    && (forall i | 0 <= i < |frames| && NeedsInit(frames[i].kind) :: HasInit(frames[..i]))
  }

  /** The runs that are accepted: promising, and ended by their one final frame. */
  ghost predicate Accepted(launch: Launch, frames: seq<Frame>) {
    Promising(launch, frames) && frames != [] && frames[|frames| - 1].kind.Final?
  }

  function DeniedFrames(frames: seq<Frame>): nat {
    if frames == [] then 0
    else DeniedFrames(frames[..|frames| - 1]) + if frames[|frames| - 1].kind.PermissionDenied? then 1 else 0
  }

  lemma DeniedAppend(frames: seq<Frame>, frame: Frame)
    ensures DeniedFrames(frames + [frame]) == DeniedFrames(frames) + if frame.kind.PermissionDenied? then 1 else 0
  {
    assert (frames + [frame])[..|frames|] == frames;
  }

  lemma HasInitAppend(frames: seq<Frame>, frame: Frame)
    ensures HasInit(frames + [frame]) <==> HasInit(frames) || frame.kind.Init?
  {
    var after := frames + [frame];
    assert after[|frames|] == frame;
    if HasInit(frames) {
      var i :| 0 <= i < |frames| && frames[i].kind.Init?;
      assert after[i].kind.Init?;
    }
  }

  /** When one more frame keeps a run promising. */
  lemma PromisingAppend(launch: Launch, frames: seq<Frame>, frame: Frame)
    ensures Promising(launch, frames + [frame]) <==>
      && Promising(launch, frames)
      && Admissible(launch, frame)
      && !(frames != [] && frames[|frames| - 1].kind.Final?)
      && !(frame.kind.Init? && HasInit(frames))
      && (NeedsInit(frame.kind) ==> HasInit(frames))
  {
    var after := frames + [frame];
    assert after[|frames|] == frame && after[..|frames|] == frames;
    assert forall i | 0 <= i < |frames| :: after[i] == frames[i] && after[..i] == frames[..i];
  }

  // ---- The acceptor ----

  /** What the machine's few fields say about the frames it took. */
  ghost predicate Summarizes(launch: Launch, fed: seq<Frame>, initialized: bool, denied: nat, result: Option<NativeResult>) {
    && Promising(launch, fed)
    && (initialized <==> HasInit(fed))
    && denied == DeniedFrames(fed)
    && (result.Some? <==> fed != [] && fed[|fed| - 1].kind.Final?)
    && (result.Some? ==> result.value == Report(launch, fed))
  }

  /** Whether a frame can be taken, as far as the fields can tell. */
  ghost predicate Fits(launch: Launch, frame: Frame, initialized: bool, result: Option<NativeResult>) {
    && Admissible(launch, frame) && result.None?
    && !(frame.kind.Init? && initialized) && (NeedsInit(frame.kind) ==> initialized)
  }

  function ResultAfter(launch: Launch, kind: Kind, denied: nat): Option<NativeResult> {
    if !kind.Final? then None
    else
      var listed := if kind.denials.Listed? then kind.denials.count else 0;
      Some(NativeResult(if kind.text.Some? then kind.text.value else "", kind.structured, launch.model,
                        if listed > denied then listed else denied))
  }

  /** The fields tell exactly whether the run stays promising, and how to go on summarizing it. */
  lemma OneMoreFrame(launch: Launch, fed: seq<Frame>, initialized: bool, denied: nat, result: Option<NativeResult>, frame: Frame)
    requires Summarizes(launch, fed, initialized, denied, result)
    ensures Promising(launch, fed + [frame]) <==> Fits(launch, frame, initialized, result)
    ensures Fits(launch, frame, initialized, result) ==>
      Summarizes(launch, fed + [frame], initialized || frame.kind.Init?,
                 denied + (if frame.kind.PermissionDenied? then 1 else 0), ResultAfter(launch, frame.kind, denied))
  {
    PromisingAppend(launch, fed, frame);
    HasInitAppend(fed, frame);
    DeniedAppend(fed, frame);
    assert (fed + [frame])[|fed|] == frame;
  }

  class Stream {
    const launch: Launch
    var initialized: bool
    var denied: nat
    var result: Option<NativeResult>
    ghost var fed: seq<Frame>

    constructor (launch: Launch)
      ensures this.launch == launch && fed == [] && Tracks()
    {
      this.launch, initialized, denied, result, fed := launch, false, 0, None, [];
    }

    /** The machine's few fields say all that matters about the frames it took. */
    ghost predicate Tracks()
      reads this
    {
      Summarizes(launch, fed, initialized, denied, result)
    }

    /** Takes a frame exactly when the run stays promising with it; a refusal changes nothing. */
    method Feed(frame: Frame) returns (r: Option<seq<Event>>)
      requires Tracks()
      modifies this
      ensures Tracks()
      ensures r.Some? <==> Promising(launch, old(fed) + [frame])
      ensures r.Some? ==> fed == old(fed) + [frame] && r.value == EventsOf(launch, frame)
      ensures r.None? ==>
                fed == old(fed) && initialized == old(initialized) && denied == old(denied) && result == old(result)
    {
      OneMoreFrame(launch, fed, initialized, denied, result, frame);
      r := Examine(frame);
      if r.None? {
        return;
      }
      match frame.kind {
        case Init(_, _) => initialized := true;
        case PermissionDenied => denied := denied + 1;
        case Final(_, _, text, structured, denials) =>
          var listed := if denials.Listed? then denials.count else 0;
          result := Some(NativeResult(if text.Some? then text.value else "", structured, launch.model,
                                      if listed > denied then listed else denied));
        case _ =>
      }
      fed := fed + [frame];
    }

    /** The checks of a frame against the machine's fields, and the events it is normalized to. */
    method Examine(frame: Frame) returns (r: Option<seq<Event>>)
      ensures r.Some? <==> Fits(launch, frame, initialized, result)
      ensures r.Some? ==> r.value == EventsOf(launch, frame)
    {
      if frame.bytes > MAX_FRAME_BYTES || result.Some? {
        return None;
      }
      if !frame.isObject {
        return None;
      }
      if frame.session != Absent && frame.session != Text(launch.session) {
        return None;
      }
      var events: seq<Event> := [];
      match frame.kind {
        case Init(model, permission) =>
          if initialized || frame.session != Text(launch.session) || model != Some(launch.model) {
            return None;
          }
          if launch.permission.Some? && permission != launch.permission {
            return None;
          }
          events := [Initialized(launch.session, launch.model)];
        case PermissionDenied => events := [Denied];
        case SystemNote =>
        case StreamOther =>
          if !initialized {
            return None;
          }
        case StreamText(text) =>
          if !initialized || text.None? {
            return None;
          }
          events := [TextDelta(text.value)];
        case Conversation(content) =>
          if !initialized {
            return None;
          }
          var tools := ObserveTools(content);
          if tools.None? {
            return None;
          }
          events := tools.value;
        case RateLimit =>
        case Final(success, isError, text, structured, denials) =>
          if !initialized || frame.session != Text(launch.session) || !success || isError {
            return None;
          }
          if (text.None? && !structured) || denials.Malformed? {
            return None;
          }
        case _ => return None;
      }
      return Some(events);
    }

    /** The run's result, once its final frame has been taken. */
    method Finish() returns (r: Option<NativeResult>)
      requires Tracks()
      ensures r.Some? <==> Accepted(launch, fed)
      ensures r.Some? ==> r.value == Report(launch, fed)
    {
      return result;
    }
  }

  function ToolEvents(content: seq<ContentItem>): seq<Event> {
    if content == [] then []
    else
      var item := content[0];
      (if item.ToolUse? && item.id.Some? && item.name.Some? then [ToolObserved(item.id.value, item.name.value)] else [])
      + ToolEvents(content[1..])
  }

  /** The tool observations of a message, or nothing if any of them is malformed. */
  method ObserveTools(content: seq<ContentItem>) returns (events: Option<seq<Event>>)
    ensures events.Some? <==> forall item | item in content :: GoodTool(item)
    ensures events.Some? ==> events.value == ToolEvents(content)
  {
    var seen: seq<Event> := [];
    var i := 0;
    while i < |content|
      invariant 0 <= i <= |content|
      invariant forall k | 0 <= k < i :: GoodTool(content[k])
      invariant seen + ToolEvents(content[i..]) == ToolEvents(content)
    {
      var item := content[i];
      assert content[i..][1..] == content[i + 1..];
      if item.ToolUse? {
        if item.id.None? || item.name.None? || !Identifier(item.id.value) || !Identifier(item.name.value) {
          assert !GoodTool(item);
          return None;
        }
        seen := seen + [ToolObserved(item.id.value, item.name.value)];
      }
      i := i + 1;
    }
    return Some(seen);
  }

  /** What a taken frame is normalized to. */
  function EventsOf(launch: Launch, frame: Frame): seq<Event> {
    match frame.kind
    case Init(_, _) => [Initialized(launch.session, launch.model)]
    case PermissionDenied => [Denied]
    case StreamText(text) => if text.Some? then [TextDelta(text.value)] else []
    case Conversation(content) => ToolEvents(content)
    case _ => []
  }

  /** What an accepted run reports. */
  function Report(launch: Launch, frames: seq<Frame>): NativeResult {
    if frames == [] || !frames[|frames| - 1].kind.Final? then NativeResult("", false, launch.model, 0)
    else
      var last := frames[|frames| - 1].kind;
      var listed := if last.denials.Listed? then last.denials.count else 0;
      var denied := DeniedFrames(frames);
      NativeResult(if last.text.Some? then last.text.value else "", last.structured, launch.model,
                   if listed > denied then listed else denied)
  }

  /** Feeding a whole run and finishing succeeds on exactly the accepted runs. */
  method AcceptRun(launch: Launch, frames: seq<Frame>) returns (r: Option<NativeResult>)
    ensures r.Some? <==> Accepted(launch, frames)
    ensures r.Some? ==> r.value == Report(launch, frames)
  {
    var stream := new Stream(launch);
    var i := 0;
    while i < |frames|
      invariant 0 <= i <= |frames|
      invariant fresh(stream) && stream.launch == launch
      invariant stream.Tracks() && stream.fed == frames[..i]
    {
      assert frames[..i] + [frames[i]] == frames[..i + 1];
      var taken := stream.Feed(frames[i]);
      if taken.None? {
        NeverPromisingAgain(launch, frames, i + 1);
        return None;
      }
      i := i + 1;
    }
    assert frames[..i] == frames;
    r := stream.Finish();
  }

  /** A prefix that is not promising has no promising extension. */
  lemma {:induction false} NeverPromisingAgain(launch: Launch, frames: seq<Frame>, n: nat)
    requires n <= |frames| && !Promising(launch, frames[..n])
    ensures !Promising(launch, frames)
    decreases |frames|
  {
    if n == |frames| {
      assert frames[..n] == frames;
    } else {
      var init, last := frames[..|frames| - 1], frames[|frames| - 1];
      assert init[..n] == frames[..n] && frames == init + [last];
      NeverPromisingAgain(launch, init, n);
      PromisingAppend(launch, init, last);
    }
  }

  /** An accepted run has one initialization and one final frame, its last; everything the model said
      lies after the initialization; no frame belongs to another session; and the reported denials
      cover every denial that was observed. */
  lemma AcceptedRunsAreComplete(launch: Launch, frames: seq<Frame>)
    requires Accepted(launch, frames)
    ensures exists i ::
      && 0 <= i < |frames| - 1 && frames[i].kind.Init?
      && (forall j | 0 <= j < |frames| && j != i :: !frames[j].kind.Init?)
      && (forall j | 0 <= j < |frames| && NeedsInit(frames[j].kind) :: i < j)
      && (forall j | 0 <= j < |frames| - 1 :: !frames[j].kind.Final?)
      && (forall j | 0 <= j < |frames| :: frames[j].session == Absent || frames[j].session == Text(launch.session))
    ensures Report(launch, frames).denials >= DeniedFrames(frames)
  {
    var last := |frames| - 1;
    assert HasInit(frames[..last]);
    var i :| 0 <= i < |frames[..last]| && frames[..last][i].kind.Init?;
    assert frames[i].kind.Init?;
    forall j | 0 <= j < |frames| && NeedsInit(frames[j].kind) ensures i < j {
      var k :| 0 <= k < |frames[..j]| && frames[..j][k].kind.Init?;
      assert frames[k].kind.Init?;
    }
    forall j | 0 <= j < |frames|
      ensures frames[j].session == Absent || frames[j].session == Text(launch.session)
    {
      assert Admissible(launch, frames[j]);
    }
  }

  /** A complete run, spelled out, with its initialization at `i`. */
  ghost predicate IsRun(launch: Launch, frames: seq<Frame>, i: nat) {
    && i < |frames| - 1
    // One initialization, of this session and model, with the permissions it was launched with.
    && frames[i].kind.Init? && frames[i].session == Text(launch.session) && frames[i].kind.model == Some(launch.model)
    && (launch.permission.Some? ==> frames[i].kind.permission == launch.permission)
    && (forall j | 0 <= j < |frames| && j != i :: !frames[j].kind.Init?)
    // One final frame, the last: a success with a result.
    && Succeeds(launch, frames[|frames| - 1])
    && (forall j | 0 <= j < |frames| - 1 :: !frames[j].kind.Final?)
    // Every other frame well formed, and what the model says after the initialization.
    && (forall j | 0 <= j < |frames| :: WellFormed(launch, frames[j]))
    && (forall j | 0 <= j < |frames| :: Says(frames[j].kind) ==> i < j)
  }

  predicate Says(kind: Kind) { kind.StreamOther? || kind.StreamText? || kind.Conversation? }

  ghost predicate Succeeds(launch: Launch, frame: Frame) {
    && frame.kind.Final? && frame.session == Text(launch.session) && frame.kind.success && !frame.kind.isError
    && (frame.kind.text.Some? || frame.kind.structured) && (frame.kind.denials.NotReported? || frame.kind.denials.Listed?)
  }

  /** An object of at most a mebibyte, of this session if of any, of a known kind, with sound contents. */
  ghost predicate WellFormed(launch: Launch, frame: Frame) {
    && frame.bytes <= 1_048_576 && frame.isObject && (frame.session == Absent || frame.session == Text(launch.session))
    && !frame.kind.NoType? && !frame.kind.UnknownSystem? && !frame.kind.UnknownKind?
    && (frame.kind.StreamText? ==> frame.kind.text.Some?)
    && (frame.kind.Conversation? ==> forall item | item in frame.kind.content :: GoodTool(item))
  }

  lemma AcceptedIsRun(launch: Launch, frames: seq<Frame>) returns (i: nat)
    requires Accepted(launch, frames)
    ensures IsRun(launch, frames, i)
  {
    var last := |frames| - 1;
    assert HasInit(frames[..last]);
    i :| 0 <= i < |frames[..last]| && frames[..last][i].kind.Init?;
    assert frames[i].kind.Init?;
    assert Admissible(launch, frames[i]) && Admissible(launch, frames[last]);
    forall j | 0 <= j < |frames| && Says(frames[j].kind) ensures i < j {
      var k :| 0 <= k < |frames[..j]| && frames[..j][k].kind.Init?;
      assert frames[k].kind.Init?;
    }
    forall j | 0 <= j < |frames| ensures WellFormed(launch, frames[j]) { assert Admissible(launch, frames[j]); }
  }

  lemma RunIsAccepted(launch: Launch, frames: seq<Frame>, i: nat)
    requires IsRun(launch, frames, i)
    ensures Accepted(launch, frames)
  {
    forall j | 0 <= j < |frames| ensures Admissible(launch, frames[j]) { assert WellFormed(launch, frames[j]); }
    forall j | 0 <= j < |frames| && NeedsInit(frames[j].kind) ensures HasInit(frames[..j]) {
      assert frames[..j][i] == frames[i];
    }
  }

  /** The accepted runs are exactly the complete ones. */
  lemma AcceptedExactly(launch: Launch, frames: seq<Frame>)
    ensures Accepted(launch, frames) <==> exists i: nat :: IsRun(launch, frames, i)
  {
    if Accepted(launch, frames) {
      var i := AcceptedIsRun(launch, frames);
    }
    if i: nat :| IsRun(launch, frames, i) {
      RunIsAccepted(launch, frames, i);
    }
  }

  /** What an accepted run reports: its final frame's text, if any, and the larger of the denials that
      frame lists and the denials observed. */
  lemma ReportsExactly(launch: Launch, frames: seq<Frame>)
    requires Accepted(launch, frames)
    ensures
      var report, final := Report(launch, frames), frames[|frames| - 1].kind;
      var listed := if final.denials.Listed? then final.denials.count else 0;
      && report.model == launch.model && report.structured == final.structured
      && (final.text.Some? ==> report.text == final.text.value) && (final.text.None? ==> report.text == "")
      && report.denials >= listed && report.denials >= DeniedFrames(frames)
      && (report.denials == listed || report.denials == DeniedFrames(frames))
  {
  }

  /** Each kind of frame and the event it is normalized to. */
  lemma NormalizesExactly(launch: Launch, frame: Frame)
    requires Admissible(launch, frame) && !frame.kind.Conversation?
    ensures
      var events := EventsOf(launch, frame);
      && (events == [Initialized(launch.session, launch.model)] <==> frame.kind.Init?)
      && (events == [Denied] <==> frame.kind.PermissionDenied?)
      && (forall text :: events == [TextDelta(text)] <==> frame.kind.StreamText? && frame.kind.text == Some(text))
      && (events == [] <==> frame.kind.SystemNote? || frame.kind.StreamOther? || frame.kind.RateLimit? || frame.kind.Final?)
  {
  }

  /** The tool observations of sound content are its tool uses, in order. */
  lemma {:induction false} ObservesTools(content: seq<ContentItem>)
    requires forall i | 0 <= i < |content| :: GoodTool(content[i])
    ensures |ToolEvents(content)| == ToolUses(content)
    ensures forall item | item in content && item.ToolUse? && GoodTool(item) ::
              ToolObserved(item.id.value, item.name.value) in ToolEvents(content)
  {
    if content != [] {
      ObservesTools(content[1..]);
      assert GoodTool(content[0]);
    }
  }

  function ToolUses(content: seq<ContentItem>): nat {
    if content == [] then 0 else (if content[0].ToolUse? then 1 else 0) + ToolUses(content[1..])
  }

  lemma {:induction false} NoDenialObserved(frames: seq<Frame>)
    requires DeniedFrames(frames) == 0
    ensures forall i | 0 <= i < |frames| :: !frames[i].kind.PermissionDenied?
    decreases |frames|
  {
    if frames != [] { NoDenialObserved(frames[..|frames| - 1]); }
  }

  // ---- Committing an accepted run ----

  /** Commits a proposal after its artifact was validated; otherwise the claim stays on disk. */
  method AcceptValidated(session: CodingSession, launch: Launch, frames: seq<Frame>, result: NativeResult,
                         patch: string, closeAfterTurn: bool, minted: Checkpoint, outcome: SaveOutcome)
    returns (receipt: Option<Receipt>)
    requires Accepted(launch, frames) && result == Report(launch, frames)
    modifies session`state, session.directory`disk
    ensures receipt.Some? ==>
      && (forall i | 0 <= i < |frames| :: !frames[i].kind.PermissionDenied?)
      && session.key in session.directory.disk
      && HoldsResult(old(session.state), session.directory.disk[session.key].record, launch.session, patch, minted,
                     if closeAfterTurn then Closed else Ready)
      && receipt.value.checkpoint == Some(minted)
    ensures receipt.Some? <==> result.denials == 0 && |patch| <= 131_072 && outcome.Saved?
    ensures result.denials > 0 || |patch| > MAX_PATCH_BYTES ==>
              session.state == old(session.state) && session.directory.disk == old(session.directory.disk)
  {
    if result.denials != 0 || |patch| > MAX_PATCH_BYTES {
      return None;
    }
    AcceptedRunsAreComplete(launch, frames);
    NoDenialObserved(frames);
    receipt := session.Finish(launch.session, patch, closeAfterTurn, minted, outcome);
  }
}
