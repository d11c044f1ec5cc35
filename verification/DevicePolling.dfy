/**
 Waiting for a device sign-in to be approved (section 3.5 of RFC 8628): poll no faster than the
 server allows, slow down when told to, stop at the deadline. Time is counted in seconds.
 */
module DevicePolling {
  const POLL_FAILURES_TOLERATED: nat := 3

  datatype Reply = Approved(tokens: nat) | Pending | SlowDown | Unreachable | Refused

  /** A poll as the server saw it: when it was sent and what came back. */
  datatype Poll = Poll(sentAt: int, reply: Reply)

  /** What becomes of one poll: how much longer than asked the pause before it lasted, what the network
      answers and how long that takes. */
  datatype Exchange = Exchange(overslept: nat, reply: Reply, took: nat)

  datatype Verdict = SignedIn(tokens: nat) | Expired | GaveUp | Failed | StillWaiting

  function SlowDowns(polls: seq<Poll>): nat {
    if polls == [] then 0 else SlowDowns(polls[..|polls| - 1]) + if polls[|polls| - 1].reply.SlowDown? then 1 else 0
  }

  /** How many polls in a row, at the end, the server did not answer. */
  function Unanswered(polls: seq<Poll>): nat {
    if polls == [] || !polls[|polls| - 1].reply.Unreachable? then 0 else 1 + Unanswered(polls[..|polls| - 1])
  }

  /** The pause owed before the next poll, given the polls so far. */
  function Pause(polls: seq<Poll>, base: nat, step: nat): nat {
    if polls == [] then base
    else Pause(polls[..|polls| - 1], base, step) + if polls[|polls| - 1].reply.SlowDown? then step else 0
  }

  lemma {:induction false} PauseCountsSlowDowns(polls: seq<Poll>, base: nat, step: nat)
    ensures Pause(polls, base, step) == base + step * SlowDowns(polls)
  {
    if polls != [] {
      var init := polls[..|polls| - 1];
      PauseCountsSlowDowns(init, base, step);
      assert step * (SlowDowns(init) + 1) == step * SlowDowns(init) + step;
    }
  }

  function LastSent(polls: seq<Poll>, start: int): int {
    if polls == [] then start else polls[|polls| - 1].sentAt
  }

  /** Every poll keeps its distance from the one before, and none is sent at or past the deadline. */
  ghost predicate Polite(polls: seq<Poll>, start: int, deadline: int, base: nat, step: nat) {
    polls == [] ||
      var init, last := polls[..|polls| - 1], polls[|polls| - 1];
      && Polite(init, start, deadline, base, step)
      && LastSent(init, start) + Pause(init, base, step) <= last.sentAt < deadline
  }

  /** Answers that keep the wait going. */
  ghost predicate Inconclusive(polls: seq<Poll>) {
    polls == [] ||
      var last := polls[|polls| - 1].reply;
      && Inconclusive(polls[..|polls| - 1])
      && (last.Pending? || last.SlowDown? || last.Unreachable?)
      && Unanswered(polls) < POLL_FAILURES_TOLERATED
  }

  /** When the last exchange was over. */
  function FreeAt(polls: seq<Poll>, exchanges: seq<Exchange>, start: int): int
    requires |polls| <= |exchanges|
  {
    if polls == [] then start else polls[|polls| - 1].sentAt + exchanges[|polls| - 1].took
  }

  /** When the next poll can be sent: one pause after the last exchange. */
  function NextPoll(polls: seq<Poll>, exchanges: seq<Exchange>, start: int, base: nat, step: nat): int
    requires |polls| < |exchanges|
  {
    FreeAt(polls, exchanges, start) + Pause(polls, base, step) + exchanges[|polls|].overslept
  }

  /** Every poll was sent the moment the pause was over and before the deadline, and got its exchange's answer. */
  ghost predicate OnSchedule(polls: seq<Poll>, exchanges: seq<Exchange>, start: int, deadline: int, base: nat, step: nat)
    requires |polls| <= |exchanges|
  {
    polls == [] ||
      var init, last := polls[..|polls| - 1], polls[|polls| - 1];
      && OnSchedule(init, exchanges, start, deadline, base, step)
      && last == Poll(NextPoll(init, exchanges, start, base, step), exchanges[|init|].reply)
      && last.sentAt < deadline
  }

  lemma {:induction false} OnScheduleIsPolite(polls: seq<Poll>, exchanges: seq<Exchange>, start: int, deadline: int, base: nat,
                                              step: nat)
    requires |polls| <= |exchanges| && OnSchedule(polls, exchanges, start, deadline, base, step)
    ensures Polite(polls, start, deadline, base, step)
    decreases |polls|
  {
    if polls != [] { OnScheduleIsPolite(polls[..|polls| - 1], exchanges, start, deadline, base, step); }
  }

  /** What each verdict says about the polls that led to it. */
  ghost predicate Justified(verdict: Verdict, polls: seq<Poll>, exchanges: seq<Exchange>, start: int, deadline: int,
                            base: nat, step: nat)
    requires |polls| <= |exchanges|
  {
    match verdict
    case SignedIn(tokens) => Concluded(polls) && polls[|polls| - 1].reply == Approved(tokens)
    case Failed => Concluded(polls) && polls[|polls| - 1].reply.Refused?
    case GaveUp => Concluded(polls) && Unanswered(polls) == 3
    case Expired =>
      && Inconclusive(polls) && |polls| < |exchanges|
      && NextPoll(polls, exchanges, start, base, step) >= deadline
    case StillWaiting => Inconclusive(polls) && |polls| == |exchanges|
  }

  /** The last poll is the first to bring the wait to an end. */
  ghost predicate Concluded(polls: seq<Poll>) {
    polls != [] && Inconclusive(polls[..|polls| - 1]) && !Inconclusive(polls)
  }

  /** Where the wait stands, in the variables of the loop. */
  ghost predicate Waiting(polls: seq<Poll>, exchanges: seq<Exchange>, start: int, deadline: int, base: nat, step: nat,
                          now: int, pause: nat, failures: nat) {
    && |polls| <= |exchanges| && OnSchedule(polls, exchanges, start, deadline, base, step) && Inconclusive(polls)
    && now == FreeAt(polls, exchanges, start) && pause == Pause(polls, base, step)
    && failures == Unanswered(polls) < POLL_FAILURES_TOLERATED
  }

  /** One more poll: it is on schedule, and the wait goes on unless it concludes it. */
  lemma PollStep(polls: seq<Poll>, exchanges: seq<Exchange>, start: int, deadline: int, base: nat, step: nat,
                 now: int, pause: nat, failures: nat)
    requires Waiting(polls, exchanges, start, deadline, base, step, now, pause, failures)
    requires |polls| < |exchanges| && now + pause + exchanges[|polls|].overslept < deadline
    ensures
      var exchange := exchanges[|polls|];
      var sentAt := now + pause + exchange.overslept;
      var polls' := polls + [Poll(sentAt, exchange.reply)];
      && OnSchedule(polls', exchanges, start, deadline, base, step)
      && match exchange.reply
         case Approved(tokens) => Justified(SignedIn(tokens), polls', exchanges, start, deadline, base, step)
         case Refused => Justified(Failed, polls', exchanges, start, deadline, base, step)
         case Pending => Waiting(polls', exchanges, start, deadline, base, step, sentAt + exchange.took, pause, 0)
         case SlowDown => Waiting(polls', exchanges, start, deadline, base, step, sentAt + exchange.took, pause + step, 0)
         case Unreachable =>
           if failures + 1 >= POLL_FAILURES_TOLERATED then Justified(GaveUp, polls', exchanges, start, deadline, base, step)
           else Waiting(polls', exchanges, start, deadline, base, step, sentAt + exchange.took, pause, failures + 1)
  {
    var polls' := polls + [Poll(now + pause + exchanges[|polls|].overslept, exchanges[|polls|].reply)];
    assert polls'[..|polls'| - 1] == polls;
  }

  lemma WaitBegins(exchanges: seq<Exchange>, start: int, deadline: int, base: nat, step: nat)
    ensures Waiting([], exchanges, start, deadline, base, step, start, base, 0)
  {
  }

  /** A wait ends without a conclusion when the next poll would be too late, or where the exchanges end. */
  lemma WaitEnds(polls: seq<Poll>, exchanges: seq<Exchange>, start: int, deadline: int, base: nat, step: nat,
                 now: int, pause: nat, failures: nat)
    requires Waiting(polls, exchanges, start, deadline, base, step, now, pause, failures)
    requires |polls| < |exchanges| ==> now + pause + exchanges[|polls|].overslept >= deadline
    ensures OnSchedule(polls, exchanges, start, deadline, base, step)
    ensures Justified(if |polls| < |exchanges| then Expired else StillWaiting, polls, exchanges, start, deadline, base, step)
  {
  }

  /** In plain terms: any two successive polls are at least the server's interval apart, by five (or
      whatever the step is) seconds more for every `slow_down` received before the later one. */
  lemma {:induction false} PoliteMeans(polls: seq<Poll>, start: int, deadline: int, base: nat, step: nat, i: nat)
    requires Polite(polls, start, deadline, base, step) && i < |polls|
    ensures polls[i].sentAt < deadline
    ensures polls[i].sentAt >= (if i == 0 then start else polls[i - 1].sentAt) + base + step * SlowDowns(polls[..i])
    decreases |polls|
  {
    var init := polls[..|polls| - 1];
    PauseCountsSlowDowns(init, base, step);
    if i < |init| {
      PoliteMeans(init, start, deadline, base, step, i);
      assert init[..i] == polls[..i];
    }
  }

  /** Polls until the sign-in is approved or cannot be any more. `exchanges` is what the network would
      do; the answer says which polls were sent, and the verdict follows from them. */
  method AwaitApproval(start: int, expiresIn: nat, interval: nat, minInterval: nat, slowDownStep: nat,
                       exchanges: seq<Exchange>)
    returns (verdict: Verdict, polls: seq<Poll>)
    ensures |polls| <= |exchanges|
    ensures var base := if interval > minInterval then interval else minInterval;
      && OnSchedule(polls, exchanges, start, start + expiresIn, base, slowDownStep)
      && Polite(polls, start, start + expiresIn, base, slowDownStep)
      && Justified(verdict, polls, exchanges, start, start + expiresIn, base, slowDownStep)
  {
    var base := if interval > minInterval then interval else minInterval;
    verdict, polls := PollUntil(start, start + expiresIn, base, slowDownStep, exchanges);
    OnScheduleIsPolite(polls, exchanges, start, start + expiresIn, base, slowDownStep);
  }

  /** The polling loop. */
  method PollUntil(start: int, deadline: int, base: nat, step: nat, exchanges: seq<Exchange>)
    returns (verdict: Verdict, polls: seq<Poll>)
    ensures |polls| <= |exchanges|
    ensures OnSchedule(polls, exchanges, start, deadline, base, step)
    ensures Justified(verdict, polls, exchanges, start, deadline, base, step)
  {
    var pause: nat, failures: nat, now := base, 0, start;
    polls := [];
    WaitBegins(exchanges, start, deadline, base, step);
    while |polls| < |exchanges|
      invariant |polls| <= |exchanges|
      invariant Waiting(polls, exchanges, start, deadline, base, step, now, pause, failures)
      decreases |exchanges| - |polls|
    {
      var exchange := exchanges[|polls|];
      ghost var free := now;
      now := now + pause + exchange.overslept;
      if now >= deadline {
        WaitEnds(polls, exchanges, start, deadline, base, step, free, pause, failures);
        return Expired, polls;
      }
      PollStep(polls, exchanges, start, deadline, base, step, free, pause, failures);
      polls := polls + [Poll(now, exchange.reply)];
      now := now + exchange.took;
      match exchange.reply {
        case Approved(tokens) => return SignedIn(tokens), polls;
        case Pending => failures := 0;
        case SlowDown =>
          failures := 0;
          pause := pause + step;
        case Unreachable =>
          failures := failures + 1;
          if failures >= POLL_FAILURES_TOLERATED {
            return GaveUp, polls;
          }
        case Refused => return Failed, polls;
      }
    }
    WaitEnds(polls, exchanges, start, deadline, base, step, now, pause, failures);
    return StillWaiting, polls;
  }
}
