/**
 The chat client: one driver that connects, waits for the agent's session frame, sends what was typed
 and reconnects. Typing, the socket and the server are inputs in any order and number; `trace` and
 `typed` record what happened so that whole chats can be spoken about.
 */
module ChatDriver {
  import opened Wrappers

  const CLOSE_REAUTHENTICATE: nat := 4401
  const NO_STATUS_CODE: nat := 1005

  datatype Command = Send(text: string) | Close

  datatype Frame =
    | Session(id: string, takesChat: bool)
    | AuthenticationRequired(admitted: bool, clientMessageId: Option<nat>)
    | Text(body: string)
    | Fault(message: string)
    | Ignored

  /** What the server side of the socket delivers. */
  datatype Incoming =
    | Message(frame: Frame)
    | Closing(code: Option<nat>)
    | Ping
    | Unhandled
    | EndOfStream
    | BrokenStream

  /** Which branch of the driver's select is taken next, and how the socket answers its writes:
      `sinkOk` for one send, `accepted` for how many queued messages go through. */
  datatype Input =
    | Typed(command: Command)
    | InitDeadline
    | HandleDropped
    | NextCommand(sinkOk: bool)
    | Arrives(incoming: Incoming, accepted: nat)

  datatype Outcome = UserClosed | Reauthenticate | Dropped(ready: bool, stable: bool) | Fatal

  datatype ChatEvent =
    | Ready(sessionId: string, resumed: bool)
    | Says(body: string)
    | NotSent
    | MayHaveBeenReceived
    | Renewed
    | Reconnecting
    | Error(message: string)
    | ChatClosed

  /** What the outside world saw of the driver. */
  datatype Trace =
    | Opened(connection: nat)
    | Greeted(connection: nat)
    | Delivered(connection: nat, text: string)

  function Deliveries(trace: seq<Trace>): seq<string> {
    if trace == [] then []
    else
      var last := trace[|trace| - 1];
      Deliveries(trace[..|trace| - 1]) + if last.Delivered? then [last.text] else []
  }

  lemma DeliveriesAppend(trace: seq<Trace>, t: Trace)
    ensures Deliveries(trace + [t]) == Deliveries(trace) + if t.Delivered? then [t.text] else []
  {
    assert (trace + [t])[..|trace|] == trace;
  }

  /** Opening and greeting deliver nothing. */
  lemma DeliveriesSkip(trace: seq<Trace>, t: Trace)
    requires GreetedFirst(trace) && !t.Delivered?
    ensures Deliveries(trace + [t]) == Deliveries(trace) && GreetedFirst(trace + [t])
  {
    DeliveriesAppend(trace, t);
    GreetedFirstAppend(trace, t);
  }

  /** The messages still waiting in the command queue. */
  function Queued(queue: seq<Command>): seq<string> {
    if queue == [] then [] else (if queue[0].Send? then [queue[0].text] else []) + Queued(queue[1..])
  }

  lemma {:induction false} QueuedAppend(queue: seq<Command>, c: Command)
    ensures Queued(queue + [c]) == Queued(queue) + if c.Send? then [c.text] else []
  {
    if queue == [] {
    } else {
      var whole, rest := queue + [c], Queued(queue[1..]);
      var head, last := if queue[0].Send? then [queue[0].text] else [], if c.Send? then [c.text] else [];
      QueuedAppend(queue[1..], c);
      assert whole[0] == queue[0] && whole[1..] == queue[1..] + [c];
      assert head + (rest + last) == (head + rest) + last;
    }
  }

  /** Every delivery comes after the session frame of the connection it went out on. */
  ghost predicate GreetedFirst(trace: seq<Trace>) {
    trace == [] ||
      var init, last := trace[..|trace| - 1], trace[|trace| - 1];
      GreetedFirst(init) && (last.Delivered? ==> Greeted(last.connection) in init)
  }

  lemma GreetedFirstAppend(trace: seq<Trace>, t: Trace)
    requires GreetedFirst(trace) && (t.Delivered? ==> Greeted(t.connection) in trace)
    ensures GreetedFirst(trace + [t])
  {
    assert (trace + [t])[..|trace|] == trace;
  }

  /** In plain terms. */
  lemma {:induction false} GreetedFirstMeans(trace: seq<Trace>, i: nat)
    requires GreetedFirst(trace) && i < |trace| && trace[i].Delivered?
    ensures Greeted(trace[i].connection) in trace[..i]
    decreases |trace|
  {
    if i < |trace| - 1 {
      GreetedFirstMeans(trace[..|trace| - 1], i);
      assert trace[..|trace| - 1][..i] == trace[..i];
    }
  }

  /** Nothing typed is lost, doubled or reordered: it is sent, held back or still queued. */
  ghost predicate Accounted(sent: seq<string>, held: seq<string>, queued: seq<string>, typed: seq<string>) {
    sent + held + queued == typed
  }

  lemma OneMoreSent(delivered: seq<string>, held: seq<string>, k: nat)
    requires k < |held|
    ensures held[k..][0] == held[k] && held[k..][1..] == held[k + 1..] && [held[k]] + held[k + 1..] == held[k..]
    ensures (delivered + held[..k]) + [held[k]] == delivered + held[..k + 1]
  {
  }

  lemma SentUpTo(delivered: seq<string>, held: seq<string>, k: nat, queued: seq<string>, typed: seq<string>)
    requires k <= |held| && Accounted(delivered, held, queued, typed)
    ensures Accounted(delivered + held[..k], held[k..], queued, typed)
  {
    assert delivered + (held[..k] + held[k..]) == (delivered + held[..k]) + held[k..];
    assert held[..k] + held[k..] == held;
  }

  lemma Sends(sent: seq<string>, message: string, held: seq<string>, queued: seq<string>, typed: seq<string>)
    ensures Accounted(sent, [message] + held, queued, typed) <==> Accounted(sent + [message], held, queued, typed)
  {
    assert sent + ([message] + held) == (sent + [message]) + held;
  }

  lemma Takes(sent: seq<string>, held: seq<string>, message: string, queued: seq<string>, typed: seq<string>)
    ensures Accounted(sent, held, [message] + queued, typed) <==> Accounted(sent, held + [message], queued, typed)
  {
    assert sent + held + ([message] + queued) == sent + (held + [message]) + queued;
  }

  lemma Queues(sent: seq<string>, held: seq<string>, queued: seq<string>, more: seq<string>, typed: seq<string>)
    requires Accounted(sent, held, queued, typed)
    ensures Accounted(sent, held, queued + more, typed + more)
  {
    assert sent + held + (queued + more) == (sent + held + queued) + more;
  }

  /** A frame that opens the session for chat. */
  predicate Greets(frame: Frame) { frame.Session? && frame.takesChat }

  /** A frame that proves the connection carried a complete exchange. */
  predicate Stabilizes(frame: Frame) { frame.Text? || frame.Fault? }

  predicate Carries(input: Input, p: Frame -> bool) {
    input.Arrives? && input.incoming.Message? && p(input.incoming.frame)
  }

  /** How a frame ends the connection, when it does. `held` messages wait for the session. */
  function FrameEnding(frame: Frame, accepted: nat, stable: bool, held: nat): Option<Outcome> {
    match frame
    case Session(_, takesChat) =>
      if !takesChat then Some(Fatal) else if held <= accepted then None else Some(Dropped(true, stable))
    case AuthenticationRequired(_, _) => Some(Reauthenticate)
    case _ => None
  }

  /** How an input ends the connection, when it does. */
  function Ending(input: Input, ready: bool, stable: bool, queue: seq<Command>, held: nat): Option<Outcome> {
    match input
    case Typed(_) => None
    case InitDeadline => if ready then None else Some(Fatal)
    case HandleDropped => Some(UserClosed)
    case NextCommand(sinkOk) =>
      if queue == [] then None
      else if queue[0].Close? then Some(UserClosed)
      else if ready && !sinkOk then Some(Dropped(ready, stable))
      else None
    case Arrives(Message(frame), accepted) => FrameEnding(frame, accepted, stable, held)
    case Arrives(Closing(code), _) =>
      Some(if code == Some(CLOSE_REAUTHENTICATE) then Reauthenticate else Dropped(ready, stable))
    case Arrives(EndOfStream, _) => Some(Dropped(ready, stable))
    case Arrives(BrokenStream, _) => Some(Dropped(ready, stable))
    case Arrives(_, _) => None
  }

  /** What a frame tells the person. */
  function FrameEvents(frame: Frame, inFlight: Option<nat>, sessionId: Option<string>): seq<ChatEvent> {
    match frame
    case Session(id, takesChat) =>
      if takesChat then [Ready(id, sessionId == Some(id))] else [Error("this agent does not take chat messages")]
    case AuthenticationRequired(admitted, clientMessageId) =>
      if inFlight.None? then []
      else if !admitted && clientMessageId == inFlight then [NotSent] else [MayHaveBeenReceived]
    case Text(body) => [Says(body)]
    case Fault(message) => [Error(message)]
    case Ignored => []
  }

  // ---- What the inputs of a connection amount to ----

  /** All that decides how a chat goes on: whether this connection was greeted and is stable, the
      commands waiting, how many messages are held back, and the session to resume. */
  datatype Standing = Standing(ready: bool, stable: bool, queue: seq<Command>, held: nat, session: Option<string>)
  {
    function Ends(input: Input): Option<Outcome> { Ending(input, ready, stable, queue, held) }

    function After(input: Input): Standing {
      match input
      case Typed(command) => this.(queue := queue + [command])
      case NextCommand(sinkOk) =>
        if queue == [] then this
        else this.(queue := queue[1..], held := if queue[0].Send? && (!ready || !sinkOk) then held + 1 else held)
      case Arrives(Message(frame), accepted) =>
        if Greets(frame)
        then this.(ready := true, session := Some(frame.id), held := if held <= accepted then 0 else held - accepted)
        else this.(stable := stable || Stabilizes(frame))
      case _ => this
    }

    /** Between connections. */
    function Disconnected(): Standing { this.(ready := false, stable := false) }
  }

  /** How many of the inputs a connection takes before it ends. */
  function Taken(c: Standing, inputs: seq<Input>): (n: nat)
    ensures n <= |inputs|
    decreases |inputs|
  {
    if inputs == [] then 0
    else if c.Ends(inputs[0]).Some? then 1
    else 1 + Taken(c.After(inputs[0]), inputs[1..])
  }

  /** The first ending along the inputs. */
  function PumpOutcome(c: Standing, inputs: seq<Input>): Option<Outcome>
    decreases |inputs|
  {
    if inputs == [] then None
    else if c.Ends(inputs[0]).Some? then c.Ends(inputs[0])
    else PumpOutcome(c.After(inputs[0]), inputs[1..])
  }

  function PumpLeaves(c: Standing, inputs: seq<Input>): Standing
    decreases |inputs|
  {
    if inputs == [] then c
    else if c.Ends(inputs[0]).Some? then c.After(inputs[0])
    else PumpLeaves(c.After(inputs[0]), inputs[1..])
  }

  /** What ends a connection, and how. */
  lemma EndsExactly(c: Standing, input: Input)
    ensures
      c.Ends(input) == Some(UserClosed) <==> input.HandleDropped? || (input.NextCommand? && c.queue != [] && c.queue[0].Close?)
    ensures
      c.Ends(input) == Some(Fatal) <==>
        || (input.InitDeadline? && !c.ready)
        || (input.Arrives? && input.incoming.Message? && input.incoming.frame.Session? && !input.incoming.frame.takesChat)
    ensures
      c.Ends(input) == Some(Reauthenticate) <==>
        && input.Arrives?
        && (|| (input.incoming.Message? && input.incoming.frame.AuthenticationRequired?)
            || (input.incoming.Closing? && input.incoming.code == Some(4401)))
    ensures
      c.Ends(input).Some? && c.Ends(input).value.Dropped? <==>
        || (input.NextCommand? && c.queue != [] && c.queue[0].Send? && c.ready && !input.sinkOk)
        || (input.Arrives? && (input.incoming.EndOfStream? || input.incoming.BrokenStream?))
        || (input.Arrives? && input.incoming.Closing? && input.incoming.code != Some(4401))
        || (input.Arrives? && input.incoming.Message? && input.incoming.frame.Session? && input.incoming.frame.takesChat
            && c.held > input.accepted)
    ensures c.Ends(input).Some? && c.Ends(input).value.Dropped? ==>
              c.Ends(input).value.stable == c.stable
              && c.Ends(input).value.ready == (c.ready || (input.Arrives? && input.incoming.Message?))
  {
  }

  /** How an input moves a connection: typing queues, taking a command removes it and holds back what
      cannot go out, a session frame greets, sends what was held and is the session to resume. */
  lemma MovesExactly(c: Standing, input: Input)
    ensures
      var c' := c.After(input);
      var greeted := input.Arrives? && input.incoming.Message? && input.incoming.frame.Session? && input.incoming.frame.takesChat;
      && c'.queue == (if input.Typed? then c.queue + [input.command]
                      else if input.NextCommand? && c.queue != [] then c.queue[1..] else c.queue)
      && c'.held == (if input.NextCommand? && c.queue != [] && c.queue[0].Send? && !(c.ready && input.sinkOk) then c.held + 1
                     else if greeted then (if c.held > input.accepted then c.held - input.accepted else 0) else c.held)
      && c'.ready == (c.ready || greeted)
      && c'.session == (if greeted then Some(input.incoming.frame.id) else c.session)
      && c'.stable == (c.stable || (input.Arrives? && input.incoming.Message?
                                    && (input.incoming.frame.Text? || input.incoming.frame.Fault?)))
  {
  }

  /** What a frame tells the person: that the last message was not sent, only if the server says so of
      the very message in flight; that it may have been, in every other case of a renewed sign-in. */
  lemma TellsExactly(frame: Frame, inFlight: Option<nat>, sessionId: Option<string>)
    ensures
      var told := FrameEvents(frame, inFlight, sessionId);
      && |told| <= 1
      && (NotSent in told <==>
            frame.AuthenticationRequired? && inFlight.Some? && !frame.admitted && frame.clientMessageId == inFlight)
      && (MayHaveBeenReceived in told <==>
            frame.AuthenticationRequired? && inFlight.Some? && (frame.admitted || frame.clientMessageId != inFlight))
      && (forall id, resumed :: Ready(id, resumed) in told <==>
            frame.Session? && frame.takesChat && frame.id == id && (resumed <==> sessionId == Some(id)))
      && (forall body :: Says(body) in told <==> frame.Text? && frame.body == body)
  {
  }

  /** Where a connection has come to after some inputs. */
  function Moved(c: Standing, inputs: seq<Input>): Standing
    decreases |inputs|
  {
    if inputs == [] then c else Moved(c.After(inputs[0]), inputs[1..])
  }

  /** A connection takes its inputs up to the first that ends it, and no other. */
  lemma {:induction false} TakesUpToFirstEnding(c: Standing, inputs: seq<Input>, i: nat)
    requires i < Taken(c, inputs)
    ensures
      var n, outcome := Taken(c, inputs), PumpOutcome(c, inputs);
      && (i < n - 1 ==> Moved(c, inputs[..i]).Ends(inputs[i]).None?)
      && (i == n - 1 ==> Moved(c, inputs[..i]).Ends(inputs[i]) == outcome)
    decreases |inputs|
  {
    if i > 0 {
      TakesUpToFirstEnding(c.After(inputs[0]), inputs[1..], i - 1);
      assert inputs[..i][1..] == inputs[1..][..i - 1];
    }
  }

  lemma {:induction false} LeavesWhatItMovedTo(c: Standing, inputs: seq<Input>)
    ensures PumpLeaves(c, inputs) == Moved(c, inputs[..Taken(c, inputs)])
    ensures PumpOutcome(c, inputs).None? ==> Taken(c, inputs) == |inputs|
    ensures inputs != [] ==> Taken(c, inputs) > 0
    decreases |inputs|
  {
    if inputs != [] {
      var n := Taken(c, inputs);
      assert inputs[..n][1..] == inputs[1..][..n - 1];
      if c.Ends(inputs[0]).None? { LeavesWhatItMovedTo(c.After(inputs[0]), inputs[1..]); }
    }
  }

  /** A connection that took `n` inputs has come to `now`, and has ended if `outcome` says so. */
  ghost predicate Pumping(c: Standing, inputs: seq<Input>, n: nat, now: Standing, outcome: Option<Outcome>) {
    && n <= |inputs|
    && PumpOutcome(c, inputs) == (if outcome.Some? then outcome else PumpOutcome(now, inputs[n..]))
    && PumpLeaves(c, inputs) == (if outcome.Some? then now else PumpLeaves(now, inputs[n..]))
    && Taken(c, inputs) == n + if outcome.Some? then 0 else Taken(now, inputs[n..])
  }

  lemma PumpBegins(c: Standing, inputs: seq<Input>)
    ensures Pumping(c, inputs, 0, c, None)
  {
    assert inputs[0..] == inputs;
  }

  lemma PumpStep(c: Standing, inputs: seq<Input>, n: nat, now: Standing)
    requires Pumping(c, inputs, n, now, None) && n < |inputs|
    ensures Pumping(c, inputs, n + 1, now.After(inputs[n]), now.Ends(inputs[n]))
  {
    assert inputs[n..][0] == inputs[n] && inputs[n..][1..] == inputs[n + 1..];
  }

  lemma PumpStops(c: Standing, inputs: seq<Input>, n: nat, now: Standing, outcome: Option<Outcome>)
    requires Pumping(c, inputs, n, now, outcome) && (outcome.Some? || n == |inputs|)
    ensures outcome == PumpOutcome(c, inputs) && n == Taken(c, inputs) && now == PumpLeaves(c, inputs)
  {
  }

  /** The messages typed among some inputs. */
  function TypedIn(inputs: seq<Input>): seq<string> {
    if inputs == [] then []
    else
      var last := inputs[|inputs| - 1];
      TypedIn(inputs[..|inputs| - 1]) + if last.Typed? && last.command.Send? then [last.command.text] else []
  }

  lemma TypedInAppend(inputs: seq<Input>, input: Input)
    ensures TypedIn(inputs + [input]) ==
              TypedIn(inputs) + if input.Typed? && input.command.Send? then [input.command.text] else []
  {
    assert (inputs + [input])[..|inputs|] == inputs;
  }

  /** One of the inputs carries such a frame. */
  predicate SomeCarries(inputs: seq<Input>, p: Frame -> bool) {
    exists i | 0 <= i < |inputs| :: Carries(inputs[i], p)
  }

  lemma SomeCarriesCons(input: Input, rest: seq<Input>, p: Frame -> bool)
    ensures SomeCarries([input] + rest, p) <==> Carries(input, p) || SomeCarries(rest, p)
  {
    var all := [input] + rest;
    if Carries(input, p) { assert Carries(all[0], p); }
    if SomeCarries(rest, p) {
      var i :| 0 <= i < |rest| && Carries(rest[i], p);
      assert Carries(all[i + 1], p);
    }
  }

  /** What a drop reports about its connection is so: it was greeted, or stable, exactly if a frame
      among the inputs it took made it so. */
  lemma {:induction false} DropsTellTheTruth(c: Standing, inputs: seq<Input>)
    requires PumpOutcome(c, inputs).Some? && PumpOutcome(c, inputs).value.Dropped?
    ensures
      var outcome, taken := PumpOutcome(c, inputs).value, inputs[..Taken(c, inputs)];
      && (outcome.ready <==> c.ready || SomeCarries(taken, Greets))
      && (outcome.stable <==> c.stable || SomeCarries(taken, Stabilizes))
    decreases |inputs|
  {
    var taken := inputs[..Taken(c, inputs)];
    assert taken == [inputs[0]] + taken[1..];
    SomeCarriesCons(inputs[0], taken[1..], Greets);
    SomeCarriesCons(inputs[0], taken[1..], Stabilizes);
    if c.Ends(inputs[0]).None? {
      DropsTellTheTruth(c.After(inputs[0]), inputs[1..]);
      assert taken[1..] == inputs[1..][..Taken(c.After(inputs[0]), inputs[1..])];
    }
  }

  /** A session is known after a connection exactly if it was before or a frame it took brought one. */
  lemma {:induction false} SessionsComeFromFrames(c: Standing, inputs: seq<Input>)
    ensures PumpLeaves(c, inputs).session.Some? <==> c.session.Some? || SomeCarries(inputs[..Taken(c, inputs)], Greets)
    decreases |inputs|
  {
    if inputs != [] {
      var taken := inputs[..Taken(c, inputs)];
      assert taken == [inputs[0]] + taken[1..];
      SomeCarriesCons(inputs[0], taken[1..], Greets);
      if c.Ends(inputs[0]).None? {
        SessionsComeFromFrames(c.After(inputs[0]), inputs[1..]);
        assert taken[1..] == inputs[1..][..Taken(c.After(inputs[0]), inputs[1..])];
      }
    }
  }

  // ---- What the connections of a chat amount to ----

  /** A connection attempt: refused, or a socket with its inputs. */
  type Attempt = Option<seq<Input>>

  function AttemptOutcome(c: Standing, attempt: Attempt): Option<Outcome> {
    match attempt
    case None => Some(if c.session.Some? then Dropped(false, false) else Fatal)
    case Some(inputs) => PumpOutcome(c, inputs)
  }

  function AttemptLeaves(c: Standing, attempt: Attempt): Standing {
    if attempt.None? then c else PumpLeaves(c, attempt.value).Disconnected()
  }

  /** The inputs an attempt takes. */
  function AttemptTakes(c: Standing, attempt: Attempt): seq<Input> {
    if attempt.None? then [] else attempt.value[..Taken(c, attempt.value)]
  }

  /** Consecutive reconnects so far: a drop after a complete exchange starts them afresh. */
  function Counted(outcome: Outcome, reconnects: nat): nat {
    if outcome.Dropped? && outcome.stable then 0 else reconnects
  }

  /** Whether the chat connects again. */
  predicate GoesOn(outcome: Outcome, session: Option<string>, reconnects: nat, max: nat) {
    && (outcome.Reauthenticate? || (outcome.Dropped? && (outcome.ready || session.Some?)))
    && Counted(outcome, reconnects) < max
  }

  /** A chat: its attempts, how those that ended ended, what was typed, whether it is over, and what it
      leaves. */
  datatype Chat = Chat(attempts: nat, endings: seq<Outcome>, typed: seq<string>, finished: bool, leaves: Standing)

  function Then(attempts: nat, endings: seq<Outcome>, typed: seq<string>, chat: Chat): Chat {
    Chat(attempts + chat.attempts, endings + chat.endings, typed + chat.typed, chat.finished, chat.leaves)
  }

  /** The chat that some connection attempts amount to. It stays on a connection whose inputs do not
      end it, and ends where it does not connect again. */
  function ChatOver(c: Standing, reconnects: nat, max: nat, attempts: seq<Attempt>): Chat
    decreases |attempts|
  {
    if attempts == [] then Chat(0, [], [], false, c)
    else
      var outcome, c' := AttemptOutcome(c, attempts[0]), AttemptLeaves(c, attempts[0]);
      var typed := TypedIn(AttemptTakes(c, attempts[0]));
      if outcome.None? then Chat(1, [], typed, false, c')
      else if !GoesOn(outcome.value, c'.session, reconnects, max) then Chat(1, [outcome.value], typed, true, c')
      else Then(1, [outcome.value], typed, ChatOver(c', Counted(outcome.value, reconnects) + 1, max, attempts[1..]))
  }

  /** `chat` has come this far and goes on with `rest`. */
  ghost predicate Underway(chat: Chat, a: nat, e: seq<Outcome>, t: seq<string>, c: Standing, reconnects: nat, max: nat,
                           rest: seq<Attempt>) {
    chat == Then(a, e, t, ChatOver(c, reconnects, max, rest))
  }

  /** The next attempt of a chat: it stays on it, ends with it, or goes on after it. */
  lemma ChatStep(chat: Chat, a: nat, e: seq<Outcome>, t: seq<string>, c: Standing, reconnects: nat, max: nat,
                 rest: seq<Attempt>)
    requires rest != [] && Underway(chat, a, e, t, c, reconnects, max, rest)
    ensures
      var outcome, c' := AttemptOutcome(c, rest[0]), AttemptLeaves(c, rest[0]);
      var t' := t + TypedIn(AttemptTakes(c, rest[0]));
      if outcome.None? then chat == Chat(a + 1, e, t', false, c')
      else if !GoesOn(outcome.value, c'.session, reconnects, max) then chat == Chat(a + 1, e + [outcome.value], t', true, c')
      else Underway(chat, a + 1, e + [outcome.value], t', c', Counted(outcome.value, reconnects) + 1, max, rest[1..])
  {
    var outcome, c' := AttemptOutcome(c, rest[0]), AttemptLeaves(c, rest[0]);
    var typed := TypedIn(AttemptTakes(c, rest[0]));
    if outcome.Some? && GoesOn(outcome.value, c'.session, reconnects, max) {
      ThenThen(a, e, t, 1, [outcome.value], typed, ChatOver(c', Counted(outcome.value, reconnects) + 1, max, rest[1..]));
    }
  }

  lemma ChatBegins(chat: Chat, c: Standing, max: nat, attempts: seq<Attempt>)
    requires chat == ChatOver(c, 0, max, attempts)
    ensures Underway(chat, 0, [], [], c, 0, max, attempts[0..])
  {
    assert attempts[0..] == attempts;
    assert [] + chat.endings == chat.endings && [] + chat.typed == chat.typed;
  }

  lemma NoMoreAttempts(chat: Chat, a: nat, e: seq<Outcome>, t: seq<string>, c: Standing, reconnects: nat, max: nat)
    requires Underway(chat, a, e, t, c, reconnects, max, [])
    ensures chat == Chat(a, e, t, false, c)
  {
  }

  lemma ThenThen(a: nat, e: seq<Outcome>, t: seq<string>, a': nat, e': seq<Outcome>, t': seq<string>, chat: Chat)
    ensures Then(a, e, t, Then(a', e', t', chat)) == Then(a + a', e + e', t + t', chat)
  {
    assert e + (e' + chat.endings) == (e + e') + chat.endings;
    assert t + (t' + chat.typed) == (t + t') + chat.typed;
  }

  /** The attempts of a chat that dropped after a reply or an error frame had come through. */
  function SteadyDrops(c: Standing, reconnects: nat, max: nat, attempts: seq<Attempt>): nat
    decreases |attempts|
  {
    if attempts == [] then 0
    else
      var outcome, c' := AttemptOutcome(c, attempts[0]), AttemptLeaves(c, attempts[0]);
      if outcome.None? then 0
      else
        (if outcome.value.Dropped? && SomeCarries(AttemptTakes(c, attempts[0]), Stabilizes) then 1 else 0)
        + if !GoesOn(outcome.value, c'.session, reconnects, max) then 0
          else SteadyDrops(c', Counted(outcome.value, reconnects) + 1, max, attempts[1..])
  }

  // ---- When a chat stops ----

  /** The standing before the `k`-th attempt. */
  function StandingBefore(c: Standing, attempts: seq<Attempt>, k: nat): Standing
    requires k <= |attempts|
    decreases k
  {
    if k == 0 then c else StandingBefore(AttemptLeaves(c, attempts[0]), attempts[1..], k - 1)
  }

  /** How often the chat has connected again since the last drop after a complete exchange, having
      started with `r`. */
  function Streak(r: nat, endings: seq<Outcome>): nat
    decreases |endings|
  {
    if endings == [] then r
    else Streak((if endings[0].Dropped? && endings[0].stable then 0 else r) + 1, endings[1..])
  }

  /** The ending of the `k`-th attempt is one to stop at: the person or a fatal error ended it, or it
      dropped without a session to resume, or the reconnects are used up. */
  predicate StopsAt(c: Standing, r: nat, max: nat, attempts: seq<Attempt>, endings: seq<Outcome>, k: nat)
    requires k < |endings| <= |attempts|
  {
    match endings[k]
    case UserClosed => true
    case Fatal => true
    case Reauthenticate => Streak(r, endings[..k]) == max
    case Dropped(ready, stable) =>
      || (!ready && StandingBefore(c, attempts, k + 1).session.None?)
      || (if stable then 0 else Streak(r, endings[..k])) == max
  }

  /** A chat makes its attempts one after the other: until it is over, all of them or up to one that has
      not ended yet. */
  lemma {:induction false} ChatMakesItsAttempts(c: Standing, r: nat, max: nat, attempts: seq<Attempt>)
    ensures
      var chat := ChatOver(c, r, max, attempts);
      && |chat.endings| <= chat.attempts <= |attempts|
      && (chat.finished ==> chat.attempts == |chat.endings| > 0)
      && (!chat.finished ==>
            || chat.attempts == |chat.endings| == |attempts|
            || (chat.attempts == |chat.endings| + 1
                && AttemptOutcome(StandingBefore(c, attempts, |chat.endings|), attempts[|chat.endings|]).None?))
    decreases |attempts|
  {
    if attempts != [] {
      var outcome, c' := AttemptOutcome(c, attempts[0]), AttemptLeaves(c, attempts[0]);
      if outcome.Some? && GoesOn(outcome.value, c'.session, r, max) {
        ChatMakesItsAttempts(c', Counted(outcome.value, r) + 1, max, attempts[1..]);
      }
    }
  }

  lemma GreetedIsKnown(c: Standing, attempt: Attempt)
    requires !c.ready && AttemptOutcome(c, attempt).Some? && AttemptOutcome(c, attempt).value.Dropped?
    ensures AttemptOutcome(c, attempt).value.ready ==> AttemptLeaves(c, attempt).session.Some?
  {
    if attempt.Some? {
      DropsTellTheTruth(c, attempt.value);
      SessionsComeFromFrames(c, attempt.value);
    }
  }

  lemma StopsAtFirst(c: Standing, r: nat, max: nat, attempts: seq<Attempt>, endings: seq<Outcome>)
    requires !c.ready && r <= max && 0 < |endings| <= |attempts| && AttemptOutcome(c, attempts[0]) == Some(endings[0])
    ensures StopsAt(c, r, max, attempts, endings, 0) <==>
              !GoesOn(endings[0], AttemptLeaves(c, attempts[0]).session, r, max)
  {
    if endings[0].Dropped? { GreetedIsKnown(c, attempts[0]); }
    assert endings[..0] == [];
    assert StandingBefore(c, attempts, 1) == StandingBefore(AttemptLeaves(c, attempts[0]), attempts[1..], 0);
  }

  lemma StopsLater(c: Standing, r: nat, max: nat, attempts: seq<Attempt>, endings: seq<Outcome>, k: nat)
    requires 0 < k < |endings| <= |attempts|
    ensures StopsAt(c, r, max, attempts, endings, k) <==>
              StopsAt(AttemptLeaves(c, attempts[0]), Counted(endings[0], r) + 1, max, attempts[1..], endings[1..], k - 1)
  {
    assert endings[..k][1..] == endings[1..][..k - 1];
  }

  /** The `k`-th ending is one to stop at exactly if the chat stopped there. */
  ghost predicate StopsWhereItShould(c: Standing, r: nat, max: nat, attempts: seq<Attempt>, k: nat) {
    var chat := ChatOver(c, r, max, attempts);
    && k < |chat.endings| <= |attempts|
    && (StopsAt(c, r, max, attempts, chat.endings, k) <==> chat.finished && k == |chat.endings| - 1)
  }

  lemma StopsNow(c: Standing, r: nat, max: nat, attempts: seq<Attempt>)
    requires !c.ready && r <= max && attempts != [] && AttemptOutcome(c, attempts[0]).Some?
    requires !GoesOn(AttemptOutcome(c, attempts[0]).value, AttemptLeaves(c, attempts[0]).session, r, max)
    ensures StopsWhereItShould(c, r, max, attempts, 0) && |ChatOver(c, r, max, attempts).endings| == 1
  {
    StopsAtFirst(c, r, max, attempts, ChatOver(c, r, max, attempts).endings);
  }

  /** A chat that goes on after its first attempt. */
  lemma ChatContinues(c: Standing, r: nat, max: nat, attempts: seq<Attempt>)
    requires attempts != [] && AttemptOutcome(c, attempts[0]).Some?
    requires GoesOn(AttemptOutcome(c, attempts[0]).value, AttemptLeaves(c, attempts[0]).session, r, max)
    ensures
      var outcome := AttemptOutcome(c, attempts[0]).value;
      var chat := ChatOver(c, r, max, attempts);
      var rest := ChatOver(AttemptLeaves(c, attempts[0]), Counted(outcome, r) + 1, max, attempts[1..]);
      && chat.endings == [outcome] + rest.endings && chat.endings[1..] == rest.endings
      && chat.finished == rest.finished && (rest.finished ==> |rest.endings| > 0) && |rest.endings| <= |attempts| - 1
  {
    var outcome := AttemptOutcome(c, attempts[0]).value;
    ChatMakesItsAttempts(AttemptLeaves(c, attempts[0]), Counted(outcome, r) + 1, max, attempts[1..]);
  }

  ghost predicate EndsAsAttempted(c: Standing, r: nat, max: nat, attempts: seq<Attempt>, k: nat) {
    && k < |ChatOver(c, r, max, attempts).endings| <= |attempts|
    && AttemptOutcome(StandingBefore(c, attempts, k), attempts[k]) == Some(ChatOver(c, r, max, attempts).endings[k])
  }

  lemma EndsAsAttemptedLater(c: Standing, r: nat, max: nat, attempts: seq<Attempt>, k: nat)
    requires k > 0 && attempts != [] && AttemptOutcome(c, attempts[0]).Some?
    requires GoesOn(AttemptOutcome(c, attempts[0]).value, AttemptLeaves(c, attempts[0]).session, r, max)
    requires EndsAsAttempted(AttemptLeaves(c, attempts[0]), Counted(AttemptOutcome(c, attempts[0]).value, r) + 1, max,
                             attempts[1..], k - 1)
    ensures EndsAsAttempted(c, r, max, attempts, k)
  {
    ChatContinues(c, r, max, attempts);
  }

  /** The endings of a chat are those of its attempts in turn. */
  lemma {:induction false} EndingsOfAttempts(c: Standing, r: nat, max: nat, attempts: seq<Attempt>, k: nat)
    requires k < |ChatOver(c, r, max, attempts).endings|
    ensures EndsAsAttempted(c, r, max, attempts, k)
    decreases |attempts|
  {
    ChatMakesItsAttempts(c, r, max, attempts);
    if k > 0 {
      var outcome, c' := AttemptOutcome(c, attempts[0]).value, AttemptLeaves(c, attempts[0]);
      ChatContinues(c, r, max, attempts);
      EndingsOfAttempts(c', Counted(outcome, r) + 1, max, attempts[1..], k - 1);
      EndsAsAttemptedLater(c, r, max, attempts, k);
    }
  }

  lemma StopsNotYet(c: Standing, r: nat, max: nat, attempts: seq<Attempt>)
    requires !c.ready && r <= max && attempts != [] && AttemptOutcome(c, attempts[0]).Some?
    requires GoesOn(AttemptOutcome(c, attempts[0]).value, AttemptLeaves(c, attempts[0]).session, r, max)
    ensures StopsWhereItShould(c, r, max, attempts, 0)
  {
    ChatContinues(c, r, max, attempts);
    StopsAtFirst(c, r, max, attempts, ChatOver(c, r, max, attempts).endings);
  }

  lemma StopsFurtherOn(c: Standing, r: nat, max: nat, attempts: seq<Attempt>, k: nat)
    requires k > 0 && attempts != [] && AttemptOutcome(c, attempts[0]).Some?
    requires GoesOn(AttemptOutcome(c, attempts[0]).value, AttemptLeaves(c, attempts[0]).session, r, max)
    requires StopsWhereItShould(AttemptLeaves(c, attempts[0]), Counted(AttemptOutcome(c, attempts[0]).value, r) + 1, max,
                                attempts[1..], k - 1)
    ensures StopsWhereItShould(c, r, max, attempts, k)
  {
    ChatContinues(c, r, max, attempts);
    StopsLater(c, r, max, attempts, ChatOver(c, r, max, attempts).endings, k);
  }

  lemma {:induction false} StopsExactly(c: Standing, r: nat, max: nat, attempts: seq<Attempt>, k: nat)
    requires !c.ready && r <= max && k < |ChatOver(c, r, max, attempts).endings|
    ensures StopsWhereItShould(c, r, max, attempts, k)
    decreases |attempts|
  {
    var outcome, c' := AttemptOutcome(c, attempts[0]).value, AttemptLeaves(c, attempts[0]);
    if !GoesOn(outcome, c'.session, r, max) {
      StopsNow(c, r, max, attempts);
    } else if k == 0 {
      StopsNotYet(c, r, max, attempts);
    } else {
      ChatContinues(c, r, max, attempts);
      StopsExactly(c', Counted(outcome, r) + 1, max, attempts[1..], k - 1);
      StopsFurtherOn(c, r, max, attempts, k);
    }
  }

  /** Some attempt before the `k`-th brought a session frame. */
  predicate EverGreeted(c: Standing, attempts: seq<Attempt>, k: nat)
    requires k <= |attempts|
    decreases k
  {
    k > 0 && (EverGreeted(c, attempts, k - 1)
              || SomeCarries(AttemptTakes(StandingBefore(c, attempts, k - 1), attempts[k - 1]), Greets))
  }

  lemma {:induction false} StandingStep(c: Standing, attempts: seq<Attempt>, k: nat)
    requires k < |attempts|
    ensures StandingBefore(c, attempts, k + 1) == AttemptLeaves(StandingBefore(c, attempts, k), attempts[k])
    decreases k
  {
    if k > 0 { StandingStep(AttemptLeaves(c, attempts[0]), attempts[1..], k - 1); }
  }

  lemma {:induction false} SessionIsKnown(c: Standing, attempts: seq<Attempt>, k: nat)
    requires k <= |attempts|
    ensures StandingBefore(c, attempts, k).session.Some? <==> c.session.Some? || EverGreeted(c, attempts, k)
    decreases k
  {
    if k > 0 {
      SessionIsKnown(c, attempts, k - 1);
      StandingStep(c, attempts, k - 1);
      var before := StandingBefore(c, attempts, k - 1);
      if attempts[k - 1].Some? { SessionsComeFromFrames(before, attempts[k - 1].value); }
    }
  }

  /** A chat stops at its last ending and at no earlier one, for one of these reasons: the person left, a
      fatal error, a drop before any session frame ever came, or a drop or renewal after the full
      count of reconnects since the last drop that followed a complete exchange. */
  lemma ChatStopsForAReason(c: Standing, max: nat, attempts: seq<Attempt>, k: nat)
    requires !c.ready && k < |ChatOver(c, 0, max, attempts).endings|
    ensures
      var chat := ChatOver(c, 0, max, attempts);
      && |chat.endings| <= |attempts|
      && var count := if chat.endings[k].Dropped? && chat.endings[k].stable then 0 else Streak(0, chat.endings[..k]);
         chat.finished && k == |chat.endings| - 1 <==>
           || chat.endings[k].UserClosed? || chat.endings[k].Fatal?
           || (chat.endings[k].Dropped? && !chat.endings[k].ready && c.session.None? && !EverGreeted(c, attempts, k + 1))
           || ((chat.endings[k].Dropped? || chat.endings[k].Reauthenticate?) && count == max)
  {
    ChatMakesItsAttempts(c, 0, max, attempts);
    StopsExactly(c, 0, max, attempts, k);
    SessionIsKnown(c, attempts, k + 1);
  }

  /** A refused attempt is a drop when there is a session to resume, and fatal when there is none. */
  lemma RefusedAttempt(c: Standing)
    ensures AttemptOutcome(c, None) == Some(if c.session.Some? then Dropped(false, false) else Fatal)
    ensures AttemptLeaves(c, None) == c && AttemptTakes(c, None) == []
  {
  }

  lemma SteadyAttempt(c: Standing, attempt: Attempt)
    requires !c.stable && AttemptOutcome(c, attempt).Some? && AttemptOutcome(c, attempt).value.Dropped?
    ensures AttemptOutcome(c, attempt).value.stable <==> SomeCarries(AttemptTakes(c, attempt), Stabilizes)
  {
    if attempt.Some? { DropsTellTheTruth(c, attempt.value); }
  }

  /** The attempts of a chat are bounded by its steady drops: each grants the full count once more. */
  lemma {:induction false} AttemptsAreBounded(c: Standing, reconnects: nat, max: nat, attempts: seq<Attempt>)
    requires reconnects <= max && !c.stable
    ensures ChatOver(c, reconnects, max, attempts).attempts + reconnects <=
              (SteadyDrops(c, reconnects, max, attempts) + 1) * max + 1
    decreases |attempts|
  {
    if attempts == [] {
      assert 0 <= SteadyDrops(c, reconnects, max, attempts) * max;
    } else {
      var outcome, c' := AttemptOutcome(c, attempts[0]), AttemptLeaves(c, attempts[0]);
      if outcome.Some? && GoesOn(outcome.value, c'.session, reconnects, max) {
        var counted := Counted(outcome.value, reconnects) + 1;
        AttemptsAreBounded(c', counted, max, attempts[1..]);
        if outcome.value.Dropped? { SteadyAttempt(c, attempts[0]); }
        OneMore(SteadyDrops(c', counted, max, attempts[1..]), max);
      } else {
        OneMore(SteadyDrops(c, reconnects, max, attempts), max);
      }
    }
  }

  lemma OneMore(n: nat, max: nat)
    ensures (n + 2) * max == (n + 1) * max + max && (n + 1) * max >= max
  {
  }

  class Driver {
    var queue: seq<Command>
    var pending: seq<string>
    var inFlight: Option<nat>
    var sessionId: Option<string>
    var events: seq<ChatEvent>
    var connection: nat
    var nextId: nat
    var typed: seq<string>
    var trace: seq<Trace>

    constructor ()
      ensures Conserved() && typed == [] && trace == [] && events == []
      ensures sessionId == None && connection == 0
    {
      queue, pending, inFlight, sessionId, events := [], [], None, None, [];
      connection, nextId, typed, trace := 0, 0, [], [];
    }

    ghost predicate Conserved()
      reads this
    {
      Accounted(Deliveries(trace), pending, Queued(queue), typed) && GreetedFirst(trace)
    }

    function Current(ready: bool, stable: bool): Standing
      reads this
    {
      Standing(ready, stable, queue, |pending|, sessionId)
    }

    method Type(command: Command)
      requires Conserved()
      modifies this`queue, this`typed
      ensures Conserved() && queue == old(queue) + [command]
      ensures typed == old(typed) + if command.Send? then [command.text] else []
    {
      QueuedAppend(queue, command);
      Queues(Deliveries(trace), pending, Queued(queue), if command.Send? then [command.text] else [], typed);
      queue := queue + [command];
      if command.Send? {
        typed := typed + [command.text];
      }
    }

    /** A failed write is not delivered; a successful one is the message in flight. */
    method SendMessage(text: string, sinkOk: bool) returns (ok: bool)
      requires GreetedFirst(trace) && Greeted(connection) in trace
      modifies this`trace, this`inFlight, this`nextId
      ensures ok == sinkOk && GreetedFirst(trace) && Greeted(connection) in trace
      ensures trace == old(trace) + if ok then [Delivered(connection, text)] else []
      ensures Deliveries(trace) == Deliveries(old(trace)) + if ok then [text] else []
      ensures inFlight == if ok then Some(old(nextId)) else old(inFlight)
      ensures nextId == old(nextId) + 1
    {
      var id := nextId;
      nextId := nextId + 1;
      if !sinkOk {
        return false;
      }
      DeliveriesAppend(trace, Delivered(connection, text));
      GreetedFirstAppend(trace, Delivered(connection, text));
      trace := trace + [Delivered(connection, text)];
      inFlight := Some(id);
      return true;
    }

    /** Sends what was held back, oldest first; a message whose write fails is put back in front. */
    method Flush(accepted: nat) returns (ok: bool)
      requires Conserved() && Greeted(connection) in trace
      modifies this`pending, this`trace, this`inFlight, this`nextId
      ensures Conserved() && Greeted(connection) in trace
      ensures ok <==> |old(pending)| <= accepted
      ensures var sent := if ok then |old(pending)| else accepted;
        pending == old(pending)[sent..] && Deliveries(trace) == Deliveries(old(trace)) + old(pending)[..sent]
    {
      var sent := 0;
      ghost var held, delivered := pending, Deliveries(trace);
      assert held[..0] == [] && held[0..] == held && delivered + [] == delivered;
      while pending != []
        invariant 0 <= sent <= |held| && sent <= accepted
        invariant pending == held[sent..] && Deliveries(trace) == delivered + held[..sent]
        invariant GreetedFirst(trace) && Greeted(connection) in trace
        decreases |pending|
      {
        OneMoreSent(delivered, held, sent);
        var message := pending[0];
        pending := pending[1..];
        var sentNow := SendMessage(message, sent < accepted);
        if !sentNow {
          pending := [message] + pending;
          SentUpTo(delivered, held, sent, Queued(queue), typed);
          return false;
        }
        sent := sent + 1;
      }
      SentUpTo(delivered, held, sent, Queued(queue), typed);
      return true;
    }

    /** Takes the next command: sends it, holds it back, or ends the chat. */
    method OnCommand(sinkOk: bool, ready: bool, stable: bool) returns (outcome: Option<Outcome>)
      requires Conserved()
      requires ready ==> pending == [] && Greeted(connection) in trace
      modifies this`queue, this`pending, this`trace, this`inFlight, this`nextId
      ensures Conserved()
      ensures outcome == Ending(NextCommand(sinkOk), ready, stable, old(queue), |old(pending)|)
      ensures ready && outcome.None? ==> pending == [] && Greeted(connection) in trace
      ensures Current(ready, stable) == old(Current(ready, stable)).After(NextCommand(sinkOk))
    {
      outcome := None;
      if queue == [] {
        return;
      }
      var command := queue[0];
      queue := queue[1..];
      match command
      case Close => outcome := Some(UserClosed);
      case Send(message) => outcome := OnSend(message, sinkOk, ready, stable);
    }

    /** A message taken from the queue goes out or is held back. */
    method OnSend(message: string, sinkOk: bool, ready: bool, stable: bool) returns (outcome: Option<Outcome>)
      requires Accounted(Deliveries(trace), pending, [message] + Queued(queue), typed) && GreetedFirst(trace)
      requires ready ==> pending == [] && Greeted(connection) in trace
      modifies this`pending, this`trace, this`inFlight, this`nextId
      ensures Conserved()
      ensures outcome == if ready && !sinkOk then Some(Dropped(ready, stable)) else None
      ensures |pending| == |old(pending)| + if ready && sinkOk then 0 else 1
      ensures ready && outcome.None? ==> pending == [] && Greeted(connection) in trace
    {
      outcome := None;
      Takes(Deliveries(trace), pending, message, Queued(queue), typed);
      if ready {
        assert pending + [message] == [message] + pending;
        Sends(Deliveries(trace), message, pending, Queued(queue), typed);
        var ok := SendMessage(message, sinkOk);
        if !ok {
          pending := [message] + pending;
          outcome := Some(Dropped(ready, stable));
        }
      } else {
        pending := pending + [message];
      }
    }

    /** Marks this connection as greeted and sends what was held back. */
    method Greet(id: string, accepted: nat) returns (ok: bool)
      requires Conserved()
      modifies this`pending, this`trace, this`inFlight, this`nextId, this`sessionId
      ensures Conserved() && Greeted(connection) in trace && sessionId == Some(id)
      ensures ok <==> |old(pending)| <= accepted
      ensures |pending| == if |old(pending)| <= accepted then 0 else |old(pending)| - accepted
    {
      sessionId := Some(id);
      DeliveriesSkip(trace, Greeted(connection));
      trace := trace + [Greeted(connection)];
      ok := Flush(accepted);
    }

    method OnFrame(frame: Frame, accepted: nat, ready: bool, stable: bool) returns (outcome: Option<Outcome>)
      requires Conserved()
      requires ready ==> pending == [] && Greeted(connection) in trace
      modifies this`pending, this`trace, this`inFlight, this`nextId, this`sessionId, this`events
      ensures Conserved()
      ensures outcome == FrameEnding(frame, accepted, stable, |old(pending)|)
      ensures (ready || Greets(frame)) && outcome.None? ==> pending == [] && Greeted(connection) in trace
      ensures events == old(events) + FrameEvents(frame, old(inFlight), old(sessionId))
      ensures Current(ready || Greets(frame), stable || Stabilizes(frame)) ==
                old(Current(ready, stable)).After(Arrives(Message(frame), accepted))
      ensures frame.AuthenticationRequired? ==> inFlight == None
    {
      if frame.Session? {
        outcome := OnSession(frame, accepted, stable);
      } else {
        outcome := OnNotice(frame);
      }
    }

    /** A session frame: an agent without chat is given up, any other one greets. */
    method OnSession(frame: Frame, accepted: nat, stable: bool) returns (outcome: Option<Outcome>)
      requires Conserved() && frame.Session?
      modifies this`pending, this`trace, this`inFlight, this`nextId, this`sessionId, this`events
      ensures Conserved()
      ensures outcome == FrameEnding(frame, accepted, stable, |old(pending)|)
      ensures events == old(events) + FrameEvents(frame, old(inFlight), old(sessionId))
      ensures !frame.takesChat ==> pending == old(pending) && sessionId == old(sessionId)
      ensures frame.takesChat ==>
        && Greeted(connection) in trace && sessionId == Some(frame.id)
        && |pending| == if |old(pending)| <= accepted then 0 else |old(pending)| - accepted
    {
      outcome := None;
      if !frame.takesChat {
        events := events + [Error("this agent does not take chat messages")];
        outcome := Some(Fatal);
      } else {
        var resumed := sessionId == Some(frame.id);
        events := events + [Ready(frame.id, resumed)];
        var ok := Greet(frame.id, accepted);
        if !ok {
          outcome := Some(Dropped(true, stable));
        }
      }
    }

    /** Any other frame: it tells something, and a renewed sign-in ends the connection. */
    method OnNotice(frame: Frame) returns (outcome: Option<Outcome>)
      requires !frame.Session?
      modifies this`inFlight, this`events
      ensures outcome == if frame.AuthenticationRequired? then Some(Reauthenticate) else None
      ensures events == old(events) + FrameEvents(frame, old(inFlight), sessionId)
      ensures frame.AuthenticationRequired? ==> inFlight == None
    {
      outcome := None;
      match frame
      case AuthenticationRequired(admitted, clientMessageId) =>
        if inFlight.Some? {
          events := events + [if !admitted && clientMessageId == inFlight then NotSent else MayHaveBeenReceived];
          inFlight := None;
        }
        outcome := Some(Reauthenticate);
      case Text(body) => events := events + [Says(body)];
      case Fault(message) => events := events + [Error(message)];
      case Ignored =>
    }

    /** One turn of the select loop. `ready` says whether this connection has been greeted. */
    method Select(input: Input, ready: bool, stable: bool) returns (ready': bool, stable': bool, outcome: Option<Outcome>)
      requires Conserved()
      requires ready ==> pending == [] && Greeted(connection) in trace
      modifies this
      ensures Conserved() && connection == old(connection)
      ensures outcome == old(Current(ready, stable)).Ends(input)
      ensures Current(ready', stable') == old(Current(ready, stable)).After(input)
      ensures ready' && outcome.None? ==> pending == [] && Greeted(connection) in trace
      ensures typed == old(typed) + if input.Typed? && input.command.Send? then [input.command.text] else []
      ensures ChatClosed in events ==> ChatClosed in old(events)
    {
      ready', stable', outcome := ready, stable, None;
      match input
      case Typed(command) => Type(command);
      case InitDeadline =>
        if !ready {
          events := events + [Error("the agent did not start a session")];
          outcome := Some(Fatal);
        }
      case HandleDropped => outcome := Some(UserClosed);
      case NextCommand(sinkOk) => outcome := OnCommand(sinkOk, ready, stable);
      case Arrives(incoming, accepted) => ready', stable', outcome := OnArrival(incoming, accepted, ready, stable);
    }

    method OnArrival(incoming: Incoming, accepted: nat, ready: bool, stable: bool)
      returns (ready': bool, stable': bool, outcome: Option<Outcome>)
      requires Conserved()
      requires ready ==> pending == [] && Greeted(connection) in trace
      modifies this`pending, this`trace, this`inFlight, this`nextId, this`sessionId, this`events
      ensures Conserved()
      ensures outcome == old(Current(ready, stable)).Ends(Arrives(incoming, accepted))
      ensures Current(ready', stable') == old(Current(ready, stable)).After(Arrives(incoming, accepted))
      ensures ready' && outcome.None? ==> pending == [] && Greeted(connection) in trace
      ensures ChatClosed in events ==> ChatClosed in old(events)
    {
      ready', stable', outcome := ready, stable, None;
      match incoming
      case EndOfStream => outcome := Some(Dropped(ready, stable));
      case BrokenStream => outcome := Some(Dropped(ready, stable));
      case Closing(code) =>
        var status := if code.None? then NO_STATUS_CODE else code.value;
        outcome := Some(if status == CLOSE_REAUTHENTICATE then Reauthenticate else Dropped(ready, stable));
      case Message(frame) =>
        outcome := OnFrame(frame, accepted, ready, stable);
        ready', stable' := ready || Greets(frame), stable || Stabilizes(frame);
      case _ =>
    }

    method OpenConnection()
      requires Conserved()
      modifies this`connection, this`trace, this`inFlight
      ensures Conserved() && connection == old(connection) + 1 && inFlight == None
      ensures trace == old(trace) + [Opened(connection)]
    {
      connection := connection + 1;
      DeliveriesSkip(trace, Opened(connection));
      trace := trace + [Opened(connection)];
      inFlight := None;
    }

    /** One connection, up to its first ending or to where the inputs stop: how many inputs it takes,
        what was typed among them, how it ends and what it leaves. */
    method Pump(inputs: seq<Input>) returns (outcome: Option<Outcome>, n: nat)
      requires Conserved()
      modifies this
      ensures Conserved() && connection == old(connection) + 1
      ensures outcome == PumpOutcome(old(Current(false, false)), inputs) && n == Taken(old(Current(false, false)), inputs)
      ensures Current(false, false) == PumpLeaves(old(Current(false, false)), inputs).Disconnected()
      ensures typed == old(typed) + TypedIn(inputs[..n])
      ensures ChatClosed in events ==> ChatClosed in old(events)
    {
      OpenConnection();
      var ready, stable := false, false;
      ghost var c, start := Current(false, false), typed;
      outcome, n := None, 0;
      PumpBegins(c, inputs);
      while n < |inputs| && outcome.None?
        invariant n <= |inputs|
        invariant Conserved() && connection == old(connection) + 1
        invariant outcome.None? && ready ==> pending == [] && Greeted(connection) in trace
        invariant Pumping(c, inputs, n, Current(ready, stable), outcome)
        invariant typed == start + TypedIn(inputs[..n])
        invariant ChatClosed in events ==> ChatClosed in old(events)
        decreases |inputs| - n
      {
        ready, stable, outcome := TakeInput(inputs, n, ready, stable, c, start);
        n := n + 1;
      }
      PumpStops(c, inputs, n, Current(ready, stable), outcome);
    }

    /** The next input of a connection. */
    method TakeInput(inputs: seq<Input>, n: nat, ready: bool, stable: bool, ghost c: Standing, ghost start: seq<string>)
      returns (ready': bool, stable': bool, outcome: Option<Outcome>)
      requires Conserved() && n < |inputs| && (ready ==> pending == [] && Greeted(connection) in trace)
      requires Pumping(c, inputs, n, Current(ready, stable), None) && typed == start + TypedIn(inputs[..n])
      modifies this
      ensures Conserved() && connection == old(connection)
      ensures Pumping(c, inputs, n + 1, Current(ready', stable'), outcome) && typed == start + TypedIn(inputs[..n + 1])
      ensures outcome.None? && ready' ==> pending == [] && Greeted(connection) in trace
      ensures ChatClosed in events ==> ChatClosed in old(events)
    {
      PumpStep(c, inputs, n, Current(ready, stable));
      TypedInAppend(inputs[..n], inputs[n]);
      assert inputs[..n + 1] == inputs[..n] + [inputs[n]];
      ready', stable', outcome := Select(inputs[n], ready, stable);
    }

    /** Whether a connection that ended is followed by another one. A drop after a complete exchange
        starts the count of consecutive reconnects afresh; a renewed sign-in does not. */
    method Reconsider(outcome: Outcome, reconnects: nat, maxReconnects: nat) returns (goOn: bool, reconnects': nat)
      requires reconnects <= maxReconnects
      modifies this`events
      ensures goOn <==> GoesOn(outcome, sessionId, reconnects, maxReconnects)
      ensures goOn ==> reconnects' == Counted(outcome, reconnects) + 1 <= maxReconnects
      ensures outcome.UserClosed? || outcome.Fatal? ==> !goOn && events == old(events)
      ensures outcome.Reauthenticate? ==>
        && (goOn <==> reconnects < maxReconnects) && (goOn ==> reconnects' == reconnects + 1)
        && events == old(events) + [Renewed] + (if goOn then [] else [Error("could not keep the chat connected")])
      ensures outcome.Dropped? ==>
        var used := if outcome.stable then 0 else reconnects;
        && (goOn <==> (outcome.ready || sessionId.Some?) && used < maxReconnects) && (goOn ==> reconnects' == used + 1)
        && |events| == |old(events)| + 1 && events[..|old(events)|] == old(events)
        && (events[|old(events)|] == Reconnecting <==> goOn)
      ensures ChatClosed in events ==> ChatClosed in old(events)
    {
      goOn, reconnects' := false, reconnects;
      match outcome {
        case UserClosed => return;
        case Fatal => return;
        case Reauthenticate => events := events + [Renewed];
        case Dropped(ready, stable) =>
          if !ready && sessionId.None? {
            events := events + [Error("the connection closed before the agent started a session")];
            return;
          }
          if stable {
            reconnects' := 0;
          }
      }
      if reconnects' >= maxReconnects {
        events := events + [Error("could not keep the chat connected")];
        return;
      }
      reconnects' := reconnects' + 1;
      if outcome.Dropped? {
        events := events + [Reconnecting];
      }
      goOn := true;
    }

    /** The whole chat over any number of connection attempts: it makes the attempts, ends them, takes
        what was typed and stops exactly as `ChatOver` says. */
    method Run(connections: seq<Attempt>, maxReconnects: nat)
      returns (attempts: nat, endings: seq<Outcome>, finished: bool)
      requires Conserved() && ChatClosed !in events
      modifies this
      ensures Conserved() && Deliveries(trace) <= typed
      ensures var chat := ChatOver(old(Current(false, false)), 0, maxReconnects, connections);
        && attempts == chat.attempts && endings == chat.endings && finished == chat.finished
        && typed == old(typed) + chat.typed && Current(false, false) == chat.leaves
      ensures attempts <= (SteadyDrops(old(Current(false, false)), 0, maxReconnects, connections) + 1) * maxReconnects + 1
      ensures finished <==> ChatClosed in events
      ensures finished ==> events[|events| - 1] == ChatClosed && ChatClosed !in events[..|events| - 1]
    {
      AttemptsAreBounded(Current(false, false), 0, maxReconnects, connections);
      ghost var said;
      attempts, endings, finished, said := Connections(connections, maxReconnects);
      PrefixOfTyped();
      if finished {
        events := events + [ChatClosed];
      }
    }

    /** The loop of the chat, up to the event that closes it; `said` is what was typed meanwhile. */
    method Connections(connections: seq<Attempt>, maxReconnects: nat)
      returns (attempts: nat, endings: seq<Outcome>, finished: bool, ghost said: seq<string>)
      requires Conserved() && ChatClosed !in events
      modifies this
      ensures Conserved() && ChatClosed !in events && typed == old(typed) + said
      ensures Chat(attempts, endings, said, finished, Current(false, false)) ==
                ChatOver(old(Current(false, false)), 0, maxReconnects, connections)
    {
      var reconnects: nat := 0;
      ghost var chat, start := ChatOver(Current(false, false), 0, maxReconnects, connections), typed;
      attempts, endings, finished, said := 0, [], false, [];
      ChatBegins(chat, Current(false, false), maxReconnects, connections);
      while attempts < |connections|
        invariant Conserved() && ChatClosed !in events && typed == start + said
        invariant attempts <= |connections| && reconnects <= maxReconnects && !finished
        invariant Underway(chat, attempts, endings, said, Current(false, false), reconnects, maxReconnects, connections[attempts..])
        decreases |connections| - attempts
      {
        var over;
        over, finished, endings, reconnects, said :=
          ConnectOnce(connections[attempts], attempts, endings, reconnects, maxReconnects, chat, start, said, connections[attempts..]);
        assert connections[attempts..][1..] == connections[attempts + 1..];
        attempts := attempts + 1;
        if over {
          return;
        }
      }
      assert connections[attempts..] == [];
      NoMoreAttempts(chat, attempts, endings, said, Current(false, false), reconnects, maxReconnects);
    }

    /** One attempt and what follows from it: `over` when the chat has nothing more to do, because it is
        finished or still on this connection. */
    method ConnectOnce(attempt: Attempt, attempts: nat, endings: seq<Outcome>, reconnects: nat, maxReconnects: nat,
                       ghost chat: Chat, ghost start: seq<string>, ghost said: seq<string>, ghost rest: seq<Attempt>)
      returns (over: bool, finished: bool, endings': seq<Outcome>, reconnects': nat, ghost said': seq<string>)
      requires Conserved() && ChatClosed !in events && typed == start + said && reconnects <= maxReconnects
      requires rest != [] && rest[0] == attempt
      requires Underway(chat, attempts, endings, said, Current(false, false), reconnects, maxReconnects, rest)
      modifies this
      ensures Conserved() && ChatClosed !in events && typed == start + said' && reconnects' <= maxReconnects
      ensures over ==> chat == Chat(attempts + 1, endings', said', finished, Current(false, false))
      ensures !over ==>
        && !finished
        && Underway(chat, attempts + 1, endings', said', Current(false, false), reconnects', maxReconnects, rest[1..])
    {
      ChatStep(chat, attempts, endings, said, Current(false, false), reconnects, maxReconnects, rest);
      ghost var more := TypedIn(AttemptTakes(Current(false, false), attempt));
      assert start + said + more == start + (said + more);
      said' := said + more;
      over, finished, endings', reconnects' := true, false, endings, reconnects;
      var outcome := Connect(attempt);
      if outcome.Some? {
        endings' := endings + [outcome.value];
        var goOn, counted := Reconsider(outcome.value, reconnects, maxReconnects);
        over, finished := !goOn, !goOn;
        if goOn {
          reconnects' := counted;
        }
      }
    }

    /** One attempt; `None` when the chat is still on this connection where its inputs stop. */
    method Connect(attempt: Attempt) returns (outcome: Option<Outcome>)
      requires Conserved()
      modifies this
      ensures Conserved()
      ensures outcome == AttemptOutcome(old(Current(false, false)), attempt)
      ensures Current(false, false) == AttemptLeaves(old(Current(false, false)), attempt)
      ensures typed == old(typed) + TypedIn(AttemptTakes(old(Current(false, false)), attempt))
      ensures ChatClosed in events ==> ChatClosed in old(events)
    {
      if attempt.Some? {
        var n;
        outcome, n := Pump(attempt.value);
      } else if sessionId.Some? {
        outcome := Some(Dropped(false, false));
      } else {
        events := events + [Error("no connection")];
        outcome := Some(Fatal);
      }
    }

    lemma PrefixOfTyped()
      requires Conserved()
      ensures Deliveries(trace) <= typed
    {
      assert Deliveries(trace) <= Deliveries(trace) + pending + Queued(queue);
    }
  }
}
