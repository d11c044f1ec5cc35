/**
 Any number of processes running `user_token`, `logout` and `login` against one session file. Each
 network call and each file operation is a step of its own; reads outside the lock may see any
 state; a process may die anywhere, which releases its lock.
 */
module LoginWorld {
  import opened Wrappers
  import opened AtomicFile
  import opened LoginSession

  /** Where a process is. The first three stand in line for the lock; the others hold it. */
  datatype Process =
    | WantsRefresh
    | WantsLogout(localOnly: bool)
    | WantsLogin(session: UserSession)
    | InRefresh
    | InLogout(localOnly: bool)
    | InLogin(session: UserSession)
    | Asking(base: UserSession, at: int)
    | Storing(base: UserSession, updated: UserSession)
    | Revoking(base: UserSession)

  predicate Holds(p: Process) { !p.WantsRefresh? && !p.WantsLogout? && !p.WantsLogin? }

  datatype World = World(
    file: Option<UserSession>,
    lock: Option<nat>,
    processes: map<nat, Process>,
    // History: access tokens ever saved and ever handed out; the process each refresh token was
    // issued to; refresh tokens that have been in the file, and those that have left it.
    saved: set<nat>,
    handed: set<nat>,
    issued: map<nat, nat>,
    stored: set<nat>,
    gone: set<nat>)

  datatype Step =
    | Token(p: nat, now: int)
    | StartLogout(p: nat, localOnly: bool)
    | LoginApproved(p: nat, oauthUri: string, tokens: Tokens, at: int, loginEnd: Option<int>)
    | Lock(p: nat)
    | Load(p: nat, at: int, cleared: bool)
    | Answered(p: nat, answer: Answer, cleared: bool)
    | Stored(p: nat, outcome: SaveOutcome)
    | LoginStored(p: nat, outcome: SaveOutcome)
    | Revoked(p: nat, ok: bool, cleared: bool)
    | Dies(p: nat)

  /** The file is replaced or removed: what was in it is gone for good. */
  function Write(w: World, file: Option<UserSession>): World {
    var left := if w.file.Some? && (file.None? || file.value.refresh != w.file.value.refresh) then {w.file.value.refresh} else {};
    w.(file := file,
       gone := w.gone + left,
       saved := if file.Some? then w.saved + {file.value.access} else w.saved,
       stored := if file.Some? then w.stored + {file.value.refresh} else w.stored)
  }

  /** The process ends, and with it its hold on the lock. */
  function Finish(w: World, p: nat): World {
    w.(processes := w.processes - {p}, lock := if w.lock == Some(p) then None else w.lock)
  }

  function Become(w: World, p: nat, process: Process): World {
    w.(processes := w.processes[p := process])
  }

  function TokenStep(w: World, p: nat, now: int): World {
    if p in w.processes || w.file.None? then w
    else if w.file.value.Fresh(now) then w.(handed := w.handed + {w.file.value.access})
    else if w.file.value.Ended(now) then w
    else Become(w, p, WantsRefresh)
  }

  function LockStep(w: World, p: nat): World {
    if p !in w.processes || w.lock.Some? then w
    else
      match w.processes[p]
      case WantsRefresh => Become(w, p, InRefresh).(lock := Some(p))
      case WantsLogout(localOnly) => Become(w, p, InLogout(localOnly)).(lock := Some(p))
      case WantsLogin(session) => Become(w, p, InLogin(session)).(lock := Some(p))
      case _ => w
  }

  function LoadStep(w: World, p: nat, at: int, cleared: bool): World {
    if p !in w.processes then w
    else
      match w.processes[p]
      case InRefresh =>
        if w.file.None? then Finish(w, p)
        else if w.file.value.Fresh(at) then Finish(w.(handed := w.handed + {w.file.value.access}), p)
        else if w.file.value.Ended(at) then Finish(w, p)
        else Become(w, p, Asking(w.file.value, at))
      case InLogout(localOnly) =>
        if w.file.None? then Finish(w, p)
        else if localOnly then Finish(if cleared then Write(w, None) else w, p)
        else Become(w, p, Revoking(w.file.value))
      case _ => w
  }

  /** A refresh token issued now has not been seen before. */
  predicate IssuesFresh(w: World, tokens: Tokens) {
    tokens.refresh.Some? ==> tokens.refresh.value !in w.issued
  }

  function AnsweredStep(w: World, p: nat, answer: Answer, cleared: bool): World {
    if p !in w.processes || !w.processes[p].Asking? then w
    else
      var base := w.processes[p].base;
      match answer
      case Issued(tokens) =>
        if !IssuesFresh(w, tokens) then w
        else Become(w, p, Storing(base, Renewed(base, w.processes[p].at, tokens)))
               .(issued := if tokens.refresh.Some? then w.issued[tokens.refresh.value := p] else w.issued)
      case SignInRequired => Finish(if cleared then Write(w, None) else w, p)
      case OtherFailure => Finish(w, p)
  }

  function StoredStep(w: World, p: nat, outcome: SaveOutcome): World {
    if p !in w.processes || !w.processes[p].Storing? then w
    else
      var updated := w.processes[p].updated;
      var written := if Replaces(outcome) then Write(w, Some(updated)) else w;
      Finish(if outcome.Saved? then written.(handed := written.handed + {updated.access}) else written, p)
  }

  function LoginStoredStep(w: World, p: nat, outcome: SaveOutcome): World {
    if p !in w.processes || !w.processes[p].InLogin? then w
    else Finish(if Replaces(outcome) then Write(w, Some(w.processes[p].session)) else w, p)
  }

  function RevokedStep(w: World, p: nat, ok: bool, cleared: bool): World {
    if p !in w.processes || !w.processes[p].Revoking? then w
    else Finish(if ok && cleared then Write(w, None) else w, p)
  }

  function Next(w: World, step: Step): World {
    match step
    case Token(p, now) => TokenStep(w, p, now)
    case StartLogout(p, localOnly) => if p in w.processes then w else Become(w, p, WantsLogout(localOnly))
    case LoginApproved(p, oauthUri, tokens, at, loginEnd) =>
      if p in w.processes || tokens.refresh.None? || !IssuesFresh(w, tokens) then w
      else Become(w, p, WantsLogin(UserSession(oauthUri, tokens.access, at + tokens.expiresIn, tokens.refresh.value, loginEnd)))
             .(issued := w.issued[tokens.refresh.value := p])
    case Lock(p) => LockStep(w, p)
    case Load(p, at, cleared) => LoadStep(w, p, at, cleared)
    case Answered(p, answer, cleared) => AnsweredStep(w, p, answer, cleared)
    case Stored(p, outcome) => StoredStep(w, p, outcome)
    case LoginStored(p, outcome) => LoginStoredStep(w, p, outcome)
    case Revoked(p, ok, cleared) => RevokedStep(w, p, ok, cleared)
    case Dies(p) => Finish(w, p)
  }

  function Run(w: World, steps: seq<Step>): World
    decreases |steps|
  {
    if steps == [] then w else Run(Next(w, steps[0]), steps[1..])
  }

  const SIGNED_OUT: World := World(None, None, map[], {}, {}, map[], {}, {})

  // ---- What every reachable world satisfies ----

  /** A refresh token in the hands of one process only: issued to it, and never yet in the file. */
  ghost predicate InHandOf(w: World, p: nat, refresh: nat) {
    refresh in w.issued && w.issued[refresh] == p && refresh !in w.stored
  }

  ghost predicate ProcessOk(w: World, p: nat, process: Process) {
    && (Holds(process) ==> w.lock == Some(p))
    && match process
       case WantsLogin(session) => InHandOf(w, p, session.refresh)
       case InLogin(session) => InHandOf(w, p, session.refresh)
       case Asking(base, _) => w.file == Some(base)
       case Storing(base, updated) =>
         && w.file == Some(base)
         && updated == base.(access := updated.access, accessExpires := updated.accessExpires, refresh := updated.refresh)
         && (updated.refresh == base.refresh || InHandOf(w, p, updated.refresh))
       case Revoking(base) => w.file == Some(base)
       case _ => true
  }

  ghost predicate FileOk(w: World) {
    && (w.file.Some? ==> w.file.value.access in w.saved && w.file.value.refresh in w.stored && w.file.value.refresh !in w.gone)
    && w.handed <= w.saved
    && w.gone <= w.stored <= w.issued.Keys
  }

  ghost predicate LockOk(w: World) {
    w.lock.Some? ==> w.lock.value in w.processes && Holds(w.processes[w.lock.value])
  }

  ghost predicate Inv(w: World) {
    FileOk(w) && LockOk(w) && forall p | p in w.processes :: ProcessOk(w, p, w.processes[p])
  }

  /** A process that keeps the file and learns of no token of its own stays well formed. */
  lemma ProcessFrame(w: World, w': World, p: nat)
    requires p in w.processes && p in w'.processes && w'.processes[p] == w.processes[p]
    requires ProcessOk(w, p, w.processes[p])
    requires w'.lock == w.lock || (w.lock != Some(p))
    requires w'.file == w.file || w.lock != Some(p)
    requires forall t | t in w.issued :: t in w'.issued && w'.issued[t] == w.issued[t]
    requires forall t | t in w'.stored && t !in w.stored :: t !in w.issued || w.issued[t] != p
    ensures ProcessOk(w', p, w'.processes[p])
  {
  }

  lemma TokenKeepsInv(w: World, p: nat, now: int)
    requires Inv(w)
    ensures Inv(TokenStep(w, p, now))
  {
    var w' := TokenStep(w, p, now);
    forall q | q in w'.processes && q in w.processes ensures ProcessOk(w', q, w'.processes[q]) { ProcessFrame(w, w', q); }
  }

  lemma LockKeepsInv(w: World, p: nat)
    requires Inv(w)
    ensures Inv(LockStep(w, p))
  {
    var w' := LockStep(w, p);
    forall q | q in w'.processes && q != p ensures ProcessOk(w', q, w'.processes[q]) { ProcessFrame(w, w', q); }
    if p in w.processes { assert ProcessOk(w, p, w.processes[p]); }
  }

  /** The holder of the lock writes a session it may write, or removes the session, and ends. */
  lemma WriteKeepsInv(w: World, p: nat, file: Option<UserSession>)
    requires Inv(w) && w.lock == Some(p)
    requires file.Some? ==>
               InHandOf(w, p, file.value.refresh) || (w.file.Some? && file.value.refresh == w.file.value.refresh)
    ensures Inv(Finish(Write(w, file), p))
  {
    var w' := Finish(Write(w, file), p);
    assert FileOk(w');
    forall q | q in w'.processes ensures ProcessOk(w', q, w'.processes[q]) { ProcessFrame(w, w', q); }
  }

  lemma FinishKeepsInv(w: World, p: nat)
    requires Inv(w)
    ensures Inv(Finish(w, p))
  {
    var w' := Finish(w, p);
    forall q | q in w'.processes ensures ProcessOk(w', q, w'.processes[q]) { ProcessFrame(w, w', q); }
  }

  lemma HandKeepsInv(w: World, access: nat)
    requires Inv(w) && access in w.saved
    ensures Inv(w.(handed := w.handed + {access}))
  {
    var w' := w.(handed := w.handed + {access});
    forall q | q in w'.processes ensures ProcessOk(w', q, w'.processes[q]) { ProcessFrame(w, w', q); }
  }

  lemma BecomeKeepsInv(w: World, p: nat, process: Process)
    requires Inv(w) && p in w.processes && w.lock == Some(p) && Holds(process) && ProcessOk(w, p, process)
    ensures Inv(Become(w, p, process))
  {
    var w' := Become(w, p, process);
    forall q | q in w'.processes && q != p ensures ProcessOk(w', q, w'.processes[q]) { ProcessFrame(w, w', q); }
  }

  lemma LoadKeepsInv(w: World, p: nat, at: int, cleared: bool)
    requires Inv(w)
    ensures Inv(LoadStep(w, p, at, cleared))
  {
    if p in w.processes && (w.processes[p].InRefresh? || w.processes[p].InLogout?) {
      assert ProcessOk(w, p, w.processes[p]);
      FinishKeepsInv(w, p);
      WriteKeepsInv(w, p, None);
      if w.file.Some? {
        HandKeepsInv(w, w.file.value.access);
        FinishKeepsInv(w.(handed := w.handed + {w.file.value.access}), p);
        BecomeKeepsInv(w, p, Asking(w.file.value, at));
        BecomeKeepsInv(w, p, Revoking(w.file.value));
      }
    }
  }

  lemma IssueKeepsInv(w: World, p: nat, tokens: Tokens)
    requires Inv(w) && IssuesFresh(w, tokens)
    ensures Inv(w.(issued := if tokens.refresh.Some? then w.issued[tokens.refresh.value := p] else w.issued))
  {
    var w' := w.(issued := if tokens.refresh.Some? then w.issued[tokens.refresh.value := p] else w.issued);
    forall q | q in w'.processes ensures ProcessOk(w', q, w'.processes[q]) { ProcessFrame(w, w', q); }
  }

  lemma AnsweredKeepsInv(w: World, p: nat, answer: Answer, cleared: bool)
    requires Inv(w)
    ensures Inv(AnsweredStep(w, p, answer, cleared))
  {
    if p in w.processes && w.processes[p].Asking? {
      assert ProcessOk(w, p, w.processes[p]);
      match answer
      case Issued(tokens) =>
        if IssuesFresh(w, tokens) {
          var w1 := w.(issued := if tokens.refresh.Some? then w.issued[tokens.refresh.value := p] else w.issued);
          IssueKeepsInv(w, p, tokens);
          var base := w.processes[p].base;
          BecomeKeepsInv(w1, p, Storing(base, Renewed(base, w.processes[p].at, tokens)));
        }
      case SignInRequired =>
        WriteKeepsInv(w, p, None);
        FinishKeepsInv(w, p);
      case OtherFailure => FinishKeepsInv(w, p);
    }
  }

  lemma StoredKeepsInv(w: World, p: nat, outcome: SaveOutcome)
    requires Inv(w)
    ensures Inv(StoredStep(w, p, outcome))
  {
    if p in w.processes && w.processes[p].Storing? {
      assert ProcessOk(w, p, w.processes[p]);
      var updated := w.processes[p].updated;
      FinishKeepsInv(w, p);
      WriteKeepsInv(w, p, Some(updated));
      HandKeepsInv(Finish(Write(w, Some(updated)), p), updated.access);
    }
  }

  lemma OtherKeepsInv(w: World, step: Step)
    requires Inv(w) && (step.LoginStored? || step.Revoked? || step.StartLogout? || step.Dies?)
    ensures Inv(Next(w, step))
  {
    FinishKeepsInv(w, step.p);
    if step.p in w.processes {
      assert ProcessOk(w, step.p, w.processes[step.p]);
      if w.processes[step.p].InLogin? { WriteKeepsInv(w, step.p, Some(w.processes[step.p].session)); }
      if w.processes[step.p].Revoking? { WriteKeepsInv(w, step.p, None); }
    } else if step.StartLogout? {
      var w' := Next(w, step);
      forall q | q in w.processes ensures ProcessOk(w', q, w'.processes[q]) { ProcessFrame(w, w', q); }
    }
  }

  lemma LoginApprovedKeepsInv(w: World, step: Step)
    requires Inv(w) && step.LoginApproved?
    ensures Inv(Next(w, step))
  {
    var w' := Next(w, step);
    if w' != w {
      forall q | q in w.processes ensures ProcessOk(w', q, w'.processes[q]) { ProcessFrame(w, w', q); }
    }
  }

  lemma NextKeepsInv(w: World, step: Step)
    requires Inv(w)
    ensures Inv(Next(w, step))
  {
    match step
    case Token(p, now) => TokenKeepsInv(w, p, now);
    case LoginApproved(_, _, _, _, _) => LoginApprovedKeepsInv(w, step);
    case Lock(p) => LockKeepsInv(w, p);
    case Load(p, at, cleared) => LoadKeepsInv(w, p, at, cleared);
    case Answered(p, answer, cleared) => AnsweredKeepsInv(w, p, answer, cleared);
    case Stored(p, outcome) => StoredKeepsInv(w, p, outcome);
    case _ => OtherKeepsInv(w, step);
  }

  lemma {:induction false} RunKeepsInv(w: World, steps: seq<Step>)
    requires Inv(w)
    ensures Inv(Run(w, steps))
    decreases |steps|
  {
    if steps != [] {
      NextKeepsInv(w, steps[0]);
      RunKeepsInv(Next(w, steps[0]), steps[1..]);
    }
  }

  /** Over every interleaving: whatever access token was handed out had been saved. */
  lemma HandedOutOnlyAfterSaving(steps: seq<Step>)
    ensures Run(SIGNED_OUT, steps).handed <= Run(SIGNED_OUT, steps).saved
  {
    RunKeepsInv(SIGNED_OUT, steps);
  }

  // ---- A replaced refresh token ----

  lemma {:induction false} GoneStaysGone(w: World, steps: seq<Step>, t: nat)
    requires t in w.gone
    ensures t in Run(w, steps).gone
    decreases |steps|
  {
    if steps != [] { GoneStaysGone(Next(w, steps[0]), steps[1..], t); }
  }

  /** Once a rotated session, a new login or a removal took a refresh token out of the file, no
      process presents it again, to refresh or to revoke. */
  lemma ReplacedTokenIsNeverPresented(w: World, steps: seq<Step>, t: nat, p: nat)
    requires Inv(w) && t in w.gone
    ensures var w' := Run(w, steps);
      p in w'.processes ==>
        && (w'.processes[p].Asking? ==> w'.processes[p].base.refresh != t)
        && (w'.processes[p].Revoking? ==> w'.processes[p].base.refresh != t)
  {
    RunKeepsInv(w, steps);
    GoneStaysGone(w, steps, t);
    var w' := Run(w, steps);
    if p in w'.processes { assert ProcessOk(w', p, w'.processes[p]); }
  }

  /** Saving a session under another refresh token is what takes the old one out. */
  lemma RotationRetires(w: World, p: nat, outcome: SaveOutcome)
    requires Inv(w) && p in w.processes && w.processes[p].Storing? && Replaces(outcome)
    requires w.processes[p].updated.refresh != w.processes[p].base.refresh
    ensures w.processes[p].base.refresh in Next(w, Stored(p, outcome)).gone
  {
    assert ProcessOk(w, p, w.processes[p]);
  }

  // ---- The login's end, and the session's ----

  /** What one step may do to a stored session. */
  lemma SessionChanges(w: World, step: Step)
    requires Inv(w) && w.file.Some?
    ensures var file := Next(w, step).file;
      || file == w.file
      // A refresh: the login and where it belongs are untouched.
      || (step.Stored? && file.Some?
          && file.value.loginEnd == w.file.value.loginEnd && file.value.oauthUri == w.file.value.oauthUri)
      || (step.LoginStored? && file.Some?)
      // Removal: the server asked for a new sign-in for this very token,
      || (step.Answered? && step.answer.SignInRequired? && file.None?
          && step.p in w.processes && w.processes[step.p] == Asking(w.file.value, w.processes[step.p].at))
      // or a logout, which deletes the session it revoked, or only locally.
      || (step.Revoked? && step.ok && file.None? && step.p in w.processes && w.processes[step.p] == Revoking(w.file.value))
      || (step.Load? && file.None? && step.p in w.processes && w.processes[step.p] == InLogout(true))
  {
    if step.p in w.processes { assert ProcessOk(w, step.p, w.processes[step.p]); }
  }

  predicate NoLogin(steps: seq<Step>) {
    forall i | 0 <= i < |steps| :: !steps[i].LoginStored?
  }

  /** Without a new login the file cannot come back, and however often it is refreshed the login ends
      when it always did. */
  lemma {:induction false} RefreshingNeverExtends(w: World, steps: seq<Step>)
    requires Inv(w) && NoLogin(steps)
    ensures var w' := Run(w, steps);
      w'.file.Some? ==>
        w.file.Some? && w'.file.value.loginEnd == w.file.value.loginEnd && w'.file.value.oauthUri == w.file.value.oauthUri
    decreases |steps|
  {
    if steps != [] {
      NextKeepsInv(w, steps[0]);
      RefreshingNeverExtends(Next(w, steps[0]), steps[1..]);
      if w.file.Some? { SessionChanges(w, steps[0]); } else { NoFileNoSession(w, steps[0]); }
    }
  }

  lemma NoFileNoSession(w: World, step: Step)
    requires Inv(w) && w.file.None? && !step.LoginStored?
    ensures Next(w, step).file.None?
  {
    if step.p in w.processes { assert ProcessOk(w, step.p, w.processes[step.p]); }
  }

  // ---- The commands of one process are these steps, whatever the others do meanwhile ----

  predicate ByOthers(steps: seq<Step>, p: nat) {
    forall i | 0 <= i < |steps| :: steps[i].p != p
  }

  lemma OtherKeepsHolder(w: World, step: Step, p: nat)
    requires Inv(w) && w.lock == Some(p) && p in w.processes && step.p != p
    ensures var w' := Next(w, step);
      w'.lock == w.lock && w'.file == w.file && p in w'.processes && w'.processes[p] == w.processes[p]
  {
    if step.p in w.processes { assert ProcessOk(w, step.p, w.processes[step.p]); }
  }

  /** While a process holds the lock, nobody else changes the file or the process. */
  lemma {:induction false} OthersKeepHolder(w: World, steps: seq<Step>, p: nat)
    requires Inv(w) && w.lock == Some(p) && p in w.processes && ByOthers(steps, p)
    ensures var w' := Run(w, steps);
      Inv(w') && w'.lock == w.lock && w'.file == w.file && p in w'.processes && w'.processes[p] == w.processes[p]
    decreases |steps|
  {
    if steps != [] {
      NextKeepsInv(w, steps[0]);
      OtherKeepsHolder(w, steps[0], p);
      OthersKeepHolder(Next(w, steps[0]), steps[1..], p);
    }
  }

  /** The last step of a command: the process is gone, the lock free, the file as it should be, and
      what was handed out is the token of the result, if any. */
  ghost predicate Completed(before: World, after: World, p: nat, file: Option<UserSession>, token: Option<nat>) {
    && p !in after.processes && after.lock == None && after.file == file
    && after.handed == before.handed + if token.Some? then {token.value} else {}
  }

  function TokenOf(result: Result<nat, TokenError>): Option<nat> {
    if result.Ok? then Some(result.value) else None
  }

  lemma LoadCompletes(w: World, p: nat, at: int, answer: Answer, outcome: SaveOutcome, cleared: bool)
    requires w.lock == Some(p) && p in w.processes && w.processes[p].InRefresh?
    ensures
      var w', (file, result) := Next(w, Load(p, at, cleared)), RefreshEffect(w.file, at, answer, outcome, cleared);
      if w.file.Some? && !w.file.value.Fresh(at) && !w.file.value.Ended(at)
      then w' == Become(w, p, Asking(w.file.value, at))
      else Completed(w, w', p, file, TokenOf(result))
  {
  }

  lemma AnswerCompletes(w: World, p: nat, answer: Answer, outcome: SaveOutcome, cleared: bool)
    requires w.lock == Some(p) && p in w.processes && w.processes[p].Asking? && w.file == Some(w.processes[p].base)
    requires !w.file.value.Fresh(w.processes[p].at) && !w.file.value.Ended(w.processes[p].at)
    requires answer.Issued? ==> IssuesFresh(w, answer.tokens)
    ensures
      var w', at := Next(w, Answered(p, answer, cleared)), w.processes[p].at;
      var (file, result) := RefreshEffect(w.file, at, answer, outcome, cleared);
      if answer.Issued?
      then w'.lock == w.lock && w'.file == w.file && p in w'.processes
           && w'.processes[p] == Storing(w.file.value, Renewed(w.file.value, at, answer.tokens))
      else Completed(w, w', p, file, TokenOf(result))
  {
  }

  lemma StoreCompletes(w: World, p: nat, base: UserSession, at: int, tokens: Tokens, outcome: SaveOutcome, cleared: bool)
    requires w.lock == Some(p) && p in w.processes && w.file == Some(base)
    requires w.processes[p] == Storing(base, Renewed(base, at, tokens))
    requires !base.Fresh(at) && !base.Ended(at)
    ensures
      var (file, result) := RefreshEffect(Some(base), at, Issued(tokens), outcome, cleared);
      Completed(w, Next(w, Stored(p, outcome)), p, file, TokenOf(result))
  {
  }

  /** A refresh has the effect of its command on the file as it was when the lock was taken, with any
      steps of other processes between its own: it is over when it has read the file, when it has its
      answer, or when it has stored the renewed session. */
  lemma RefreshRefines(w: World, p: nat, at: int, answer: Answer, outcome: SaveOutcome, cleared: bool,
                       a: seq<Step>, b: seq<Step>, c: seq<Step>)
    requires Inv(w) && p in w.processes && w.processes[p].WantsRefresh? && w.lock.None?
    requires ByOthers(a, p) && ByOthers(b, p) && ByOthers(c, p)
    requires answer.Issued? ==> IssuesFresh(Run(Next(Run(Next(w, Lock(p)), a), Load(p, at, cleared)), b), answer.tokens)
    ensures
      var (file, result) := RefreshEffect(w.file, at, answer, outcome, cleared);
      var locked := Run(Next(w, Lock(p)), a);
      var loaded := Next(locked, Load(p, at, cleared));
      var answered := Next(Run(loaded, b), Answered(p, answer, cleared));
      if p !in loaded.processes then Completed(locked, loaded, p, file, TokenOf(result))
      else if p !in answered.processes then Completed(Run(loaded, b), answered, p, file, TokenOf(result))
      else Completed(Run(answered, c), Next(Run(answered, c), Stored(p, outcome)), p, file, TokenOf(result))
  {
    NextKeepsInv(w, Lock(p));
    OthersKeepHolder(Next(w, Lock(p)), a, p);
    var locked := Run(Next(w, Lock(p)), a);
    LoadCompletes(locked, p, at, answer, outcome, cleared);
    var loaded := Next(locked, Load(p, at, cleared));
    if p in loaded.processes {
      NextKeepsInv(locked, Load(p, at, cleared));
      OthersKeepHolder(loaded, b, p);
      var asking := Run(loaded, b);
      AnswerCompletes(asking, p, answer, outcome, cleared);
      var answered := Next(asking, Answered(p, answer, cleared));
      if p in answered.processes {
        NextKeepsInv(asking, Answered(p, answer, cleared));
        OthersKeepHolder(answered, c, p);
        StoreCompletes(Run(answered, c), p, w.file.value, at, answer.tokens, outcome, cleared);
      }
    }
  }

  /** So has a logout: the session it presents for revocation is the one the lock protects, and that
      is the session it removes. */
  lemma LogoutRefines(w: World, p: nat, at: int, revoked: bool, cleared: bool, a: seq<Step>, b: seq<Step>)
    requires Inv(w) && p in w.processes && w.processes[p].WantsLogout? && w.lock.None?
    requires ByOthers(a, p) && ByOthers(b, p)
    ensures
      var localOnly := w.processes[p].localOnly;
      var file := if (localOnly || revoked) && cleared then None else w.file;
      var locked := Run(Next(w, Lock(p)), a);
      var loaded := Next(locked, Load(p, at, cleared));
      if w.file.None? || localOnly then Completed(locked, loaded, p, file, None)
      else
        && p in loaded.processes && loaded.processes[p] == Revoking(w.file.value)
        && Completed(Run(loaded, b), Next(Run(loaded, b), Revoked(p, revoked, cleared)), p, file, None)
  {
    NextKeepsInv(w, Lock(p));
    OthersKeepHolder(Next(w, Lock(p)), a, p);
    var locked := Run(Next(w, Lock(p)), a);
    var loaded := Next(locked, Load(p, at, cleared));
    if w.file.Some? && !w.processes[p].localOnly {
      NextKeepsInv(locked, Load(p, at, cleared));
      OthersKeepHolder(loaded, b, p);
    }
  }

  // ---- When the server is asked, and what becomes of the token it was asked with ----

  /** A call gets the stored token while that has more than a minute left; it sets out to renew it only
      if it has not and the login has not ended. */
  lemma TokenExactly(w: World, p: nat, now: int)
    requires p !in w.processes
    ensures
      var w' := Next(w, Token(p, now));
      if w.file.None? then w' == w
      else
        var session := w.file.value;
        if session.accessExpires - now > 60 then w' == w.(handed := w.handed + {session.access})
        else if session.loginEnd.Some? && session.loginEnd.value <= now then w' == w
        else w' == w.(processes := w.processes[p := WantsRefresh])
  {
  }

  /** Under the lock the server is asked exactly if the file is there, its token has a minute or less
      left, and its login has not ended; and it is asked with the refresh token of that file. */
  lemma AsksExactly(w: World, p: nat, at: int, cleared: bool)
    requires p in w.processes && w.processes[p].InRefresh?
    ensures
      var w' := Next(w, Load(p, at, cleared));
      p in w'.processes <==>
        && w.file.Some? && w.file.value.accessExpires - at <= 60
        && (w.file.value.loginEnd.Some? ==> w.file.value.loginEnd.value > at)
    ensures var w' := Next(w, Load(p, at, cleared)); p in w'.processes ==> w'.processes[p] == Asking(w.file.value, at)
  {
  }

  /** Rotation: once the server has issued another refresh token and the renewed session has replaced
      the file, that token is in the file, and the one the server was asked with is never presented
      again by anybody, whatever happens in between and afterwards. */
  lemma RotationIsFinal(w: World, p: nat, tokens: Tokens, outcome: SaveOutcome, cleared: bool, between: seq<Step>,
                        later: seq<Step>, q: nat)
    requires Inv(w) && p in w.processes && w.processes[p].Asking?
    requires tokens.refresh.Some? && IssuesFresh(w, tokens) && !outcome.FailedBefore? && ByOthers(between, p)
    ensures
      var asked := w.processes[p].base;
      var stored := Next(Run(Next(w, Answered(p, Issued(tokens), cleared)), between), Stored(p, outcome));
      var w' := Run(stored, later);
      && stored.file.Some? && IsRenewal(asked, stored.file.value, w.processes[p].at, tokens)
      && stored.file.value.refresh == tokens.refresh.value != asked.refresh
      && (q in w'.processes ==>
            && (w'.processes[q].Asking? ==> w'.processes[q].base.refresh != asked.refresh)
            && (w'.processes[q].Revoking? ==> w'.processes[q].base.refresh != asked.refresh))
  {
    assert ProcessOk(w, p, w.processes[p]);
    var answered := Next(w, Answered(p, Issued(tokens), cleared));
    NextKeepsInv(w, Answered(p, Issued(tokens), cleared));
    OthersKeepHolder(answered, between, p);
    var storing := Run(answered, between);
    NextKeepsInv(storing, Stored(p, outcome));
    RotationRetires(storing, p, outcome);
    ReplacedTokenIsNeverPresented(Next(storing, Stored(p, outcome)), later, w.processes[p].base.refresh, q);
  }

  /** An approved sign-in is stored as it was issued, whatever others do while it waits for the lock and
      holds it: its tokens, where they came from and when the login ends. */
  lemma LoginRefines(w: World, p: nat, oauthUri: string, tokens: Tokens, at: int, loginEnd: Option<int>,
                     waiting: seq<Step>, holding: seq<Step>, outcome: SaveOutcome)
    requires Inv(w) && p !in w.processes && tokens.refresh.Some? && IssuesFresh(w, tokens)
    requires ByOthers(waiting, p) && ByOthers(holding, p)
    requires Run(Next(w, LoginApproved(p, oauthUri, tokens, at, loginEnd)), waiting).lock.None?
    ensures
      var waited := Run(Next(w, LoginApproved(p, oauthUri, tokens, at, loginEnd)), waiting);
      var held := Run(Next(waited, Lock(p)), holding);
      var stored := Next(held, LoginStored(p, outcome));
      && p !in stored.processes && stored.lock == None && stored.handed == held.handed
      && stored.file ==
           if outcome.FailedBefore? then waited.file
           else Some(UserSession(oauthUri, tokens.access, at + tokens.expiresIn, tokens.refresh.value, loginEnd))
  {
    var approved := Next(w, LoginApproved(p, oauthUri, tokens, at, loginEnd));
    NextKeepsInv(w, LoginApproved(p, oauthUri, tokens, at, loginEnd));
    assert p in approved.processes && approved.processes[p].WantsLogin?;
    OthersKeepProcess(approved, waiting, p);
    LoginIsStored(Run(approved, waiting), p, holding, outcome);
  }

  lemma LoginIsStored(w: World, p: nat, holding: seq<Step>, outcome: SaveOutcome)
    requires Inv(w) && p in w.processes && w.processes[p].WantsLogin? && w.lock.None? && ByOthers(holding, p)
    ensures
      var held := Run(Next(w, Lock(p)), holding);
      var stored := Next(held, LoginStored(p, outcome));
      && p !in stored.processes && stored.lock == None && stored.handed == held.handed
      && stored.file == if outcome.FailedBefore? then w.file else Some(w.processes[p].session)
  {
    NextKeepsInv(w, Lock(p));
    OthersKeepHolder(Next(w, Lock(p)), holding, p);
  }

  /** Nobody moves another process on. */
  lemma {:induction false} OthersKeepProcess(w: World, steps: seq<Step>, p: nat)
    requires Inv(w) && p in w.processes && ByOthers(steps, p)
    ensures var w' := Run(w, steps); Inv(w') && p in w'.processes && w'.processes[p] == w.processes[p]
    decreases |steps|
  {
    if steps != [] {
      NextKeepsInv(w, steps[0]);
      OthersKeepProcess(Next(w, steps[0]), steps[1..], p);
    }
  }
}
