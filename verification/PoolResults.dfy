// Which answer a call gets. A call that logs in itself returns what its own login led to, a call
// that joins another returns what that one returns, and whatever anybody is handed stands on a
// login, for the account the caller resolves to, that ended as the answer says.
module PoolResults {
  import opened Wrappers
  import opened PoolProtocol
  import opened PoolInvariant
  import opened PoolSteps
  import opened PoolTheorems
  import opened PoolOutcomes

  // ---------------------------------------------------------------- what an answer stands on

  predicate LoggedIn(attempts: map<Tid, Attempt>, k: Key, client: Tid) {
    client in attempts && attempts[client] == Attempt(k, Build, LoginOk)
  }

  predicate LoginRefused(attempts: map<Tid, Attempt>, k: Key, origin: Tid) {
    && origin in attempts && attempts[origin].key == k && attempts[origin].mode == Build
    && attempts[origin].outcome != LoginOk
  }

  predicate AccountAnswer(attempts: map<Tid, Attempt>, k: Key, a: Answer) {
    || (a.Client? && a.key == k && LoggedIn(attempts, k, a.client))
    || (a.LoginFailed? && LoginRefused(attempts, k, a.origin))
  }

  predicate SubjectAnswer(c: Config, attempts: map<Tid, Attempt>, subject: Subject, a: Answer) {
    if Lookup(c, subject).None? then a == NoAccount else AccountAnswer(attempts, Lookup(c, subject).value, a)
  }

  // The self_check probe of account k that started at `at` ended its login with `result`.
  ghost predicate ProbeEnded(attempts: map<Tid, Attempt>, k: Key, at: int, result: LoginOutcome) {
    exists o :: o in attempts && attempts[o] == Attempt(k, SelfProbe(at), result)
  }

  ghost predicate CheckAnswer(attempts: map<Tid, Attempt>, k: Key, a: Answer) {
    a.Checked? && ProbeEnded(attempts, k, a.at, a.result)
  }

  // The answer to a request, by kind: none of another kind, and NoAccount exactly without an account.
  ghost predicate Answers(c: Config, attempts: map<Tid, Attempt>, t: Tid, request: Request, a: Answer) {
    match request
    case For(subject) => SubjectAnswer(c, attempts, subject, a)
    case Probe(subject) =>
      if Lookup(c, subject).None? then a == NoAccount
      else a.Probed? && t in attempts && attempts[t] == Attempt(Lookup(c, subject).value, ProbeOnly, a.outcome)
    case SelfCheck(subject) =>
      if Lookup(c, subject).None? then a == NoAccount else CheckAnswer(attempts, Lookup(c, subject).value, a)
    case Close => a == Closed
  }

  // What a call's own login leads to.
  predicate Yields(t: Tid, attempt: Attempt, a: Answer) {
    match attempt.mode
    case Build => if attempt.outcome == LoginOk then a == Client(attempt.key, t) else a == LoginFailed(t)
    case ProbeOnly => a == Probed(attempt.outcome)
    case SelfProbe(at) => a == Checked(attempt.outcome, at, false, at)
  }

  // ---------------------------------------------------------------- the invariant

  ghost predicate SharedResults(c: Config, sh: Shared) {
    && (forall k :: k in sh.table.clients ==> LoggedIn(sh.attempts, k, sh.table.clients[k]))
    && (forall k :: k in sh.self.cache ==> ProbeEnded(sh.attempts, k, sh.self.cache[k].at, sh.self.cache[k].result))
    && (forall l :: l in sh.bySubject.out ==>
          SubjectAnswer(c, sh.attempts, sh.bySubject.out[l].group, sh.bySubject.out[l].answer))
    && (forall l :: l in sh.byAccount.out ==>
          AccountAnswer(sh.attempts, sh.byAccount.out[l].group, sh.byAccount.out[l].answer))
    && (forall l :: l in sh.byCheck.out ==>
          CheckAnswer(sh.attempts, sh.byCheck.out[l].group, sh.byCheck.out[l].answer))
    && Counted(sh.table.ensured, sh.attempts)
  }

  ghost predicate Counted(ensured: multiset<Tid>, attempts: map<Tid, Attempt>) {
    forall x :: ensured[x] ==
                if x in attempts && attempts[x].mode == Build && attempts[x].outcome == LoginOk then 1 else 0
  }

  // The answer this call holds, and the account it works for.
  ghost predicate Holds(c: Config, attempts: map<Tid, Attempt>, t: Tid, call: Call) {
    match call.pc
    case Enter => true
    case InFor(stage) =>
      && call.request.For?
      && (stage.LeaveAccount? ==> AccountAnswer(attempts, stage.key, stage.answer))
      && (stage.LeaveSubject? ==> SubjectAnswer(c, attempts, call.request.subject, stage.answer))
    case InLogin(k, _, _) => !call.request.Close? && Lookup(c, call.request.subject) == Some(k)
    case InCheck(k, check) =>
      && call.request.SelfCheck? && Lookup(c, call.request.subject) == Some(k)
      && (check.Decide? && check.seen.Some? ==>
            ProbeEnded(attempts, k, check.seen.value.at, check.seen.value.result))
      && (check.LeaveGroup? ==> CheckAnswer(attempts, k, check.answer))
    case Stopping(_) => call.request.Close?
    case Returned(a) => Answers(c, attempts, t, call.request, a)
  }

  // What the history says of this call's own login.
  predicate Own(attempts: map<Tid, Attempt>, t: Tid, pc: Pc) {
    match pc
    case InLogin(k, mode, login) =>
      if login.GetLock? || login.AwaitLock? || login.Connect? || login.LoggingIn? then t !in attempts
      else t in attempts && attempts[t] == Attempt(k, mode, if login.Unlock? then login.outcome else LoginOk)
    case InFor(stage) =>
      t in attempts ==> (stage.LeaveAccount? || stage.LeaveSubject?) && Yields(t, attempts[t], stage.answer)
    case InCheck(k, check) =>
      if check.Store? then t in attempts && attempts[t] == Attempt(k, SelfProbe(check.at), check.outcome)
      else t in attempts ==> check.LeaveGroup? && Yields(t, attempts[t], check.answer)
    case Returned(a) => t in attempts ==> Yields(t, attempts[t], a)
    case _ => t !in attempts
  }

  function Given(pc: Pc): Option<Answer> {
    if pc.InFor? && pc.stage.LeaveSubject? then Some(pc.stage.answer)
    else if pc.Returned? then Some(pc.answer) else None
  }

  // What a call left in a group is what it returns, or is about to.
  predicate Left(sh: Shared, t: Tid, call: Call) {
    && (t in sh.bySubject.out ==>
          && call.request == For(sh.bySubject.out[t].group) && call.pc == Returned(sh.bySubject.out[t].answer))
    && (t in sh.byAccount.out ==> call.request.For? && Given(call.pc) == Some(sh.byAccount.out[t].answer))
    && (t in sh.byCheck.out ==> call.pc == Returned(sh.byCheck.out[t].answer))
  }

  ghost predicate CallResult(c: Config, sh: Shared, t: Tid, call: Call) {
    Holds(c, sh.attempts, t, call) && Own(sh.attempts, t, call.pc) && Left(sh, t, call)
  }

  ghost predicate Results(c: Config, s: State) {
    && SharedResults(c, s.sh)
    && (forall x :: x in s.sh.attempts ==> x < |s.calls|)
    && forall t :: 0 <= t < |s.calls| ==> CallResult(c, s.sh, t, s.calls[t])
  }

  // ---------------------------------------------------------------- one step

  // The history gains an entry where a login ends, and nowhere else.
  predicate AttemptEffect(attempts: map<Tid, Attempt>, attempts': map<Tid, Attempt>, t: Tid, pc: Pc, choice: Choice) {
    if pc.InLogin? && pc.login.Connect? && !choice.connects
    then attempts' == attempts[t := Attempt(pc.key, pc.mode, Unreachable)]
    else if pc.InLogin? && pc.login.LoggingIn? then attempts' == attempts[t := Attempt(pc.key, pc.mode, choice.outcome)]
    else attempts' == attempts
  }

  predicate Grown(attempts: map<Tid, Attempt>, attempts': map<Tid, Attempt>, t: Tid) {
    && (forall x :: x in attempts ==> x in attempts' && attempts'[x] == attempts[x])
    && (forall x :: x in attempts' && x !in attempts ==> x == t)
  }

  lemma StepAttempt(c: Config, sh: Shared, t: Tid, call: Call, choice: Choice, sh': Shared, pc': Pc)
    requires Steps(c, t, sh, call, choice, sh', pc') && Kind(call) && Own(sh.attempts, t, call.pc)
    ensures AttemptEffect(sh.attempts, sh'.attempts, t, call.pc, choice) && Grown(sh.attempts, sh'.attempts, t)
  {
  }

  lemma LoginOwn(c: Config, sh: Shared, t: Tid, call: Call, choice: Choice, sh': Shared, pc': Pc)
    requires Steps(c, t, sh, call, choice, sh', pc') && Kind(call) && Own(sh.attempts, t, call.pc)
    requires call.pc.InLogin?
    ensures Own(sh'.attempts, t, pc')
  {
  }

  lemma RestOwn(c: Config, sh: Shared, t: Tid, call: Call, choice: Choice, sh': Shared, pc': Pc)
    requires Steps(c, t, sh, call, choice, sh', pc') && Kind(call) && Own(sh.attempts, t, call.pc)
    requires !call.pc.InLogin?
    ensures Own(sh'.attempts, t, pc')
  {
  }

  // The account and the answers a call holds fit the groups they come from.
  ghost predicate Fits(sh: Shared, call: Call) {
    && (call.request.For? && call.pc.InFor? && call.pc.stage.JoinSubject? &&
        call.pc.stage.leader in sh.bySubject.out ==>
          sh.bySubject.out[call.pc.stage.leader].group == call.request.subject)
    && (call.pc.InFor? && call.pc.stage.JoinAccount? && call.pc.stage.leader in sh.byAccount.out ==>
          sh.byAccount.out[call.pc.stage.leader].group == call.pc.stage.key)
    && (call.pc.InCheck? && call.pc.check.JoinGroup? && call.pc.check.leader in sh.byCheck.out ==>
          sh.byCheck.out[call.pc.check.leader].group == call.pc.key)
  }

  lemma JoinsFit(c: Config, sh: Shared, t: Tid, call: Call)
    requires CallInv(c, sh, t, call)
    requires GroupInv(sh.bySubject) && GroupInv(sh.byAccount) && GroupInv(sh.byCheck)
    ensures Fits(sh, call)
  {
  }

  lemma ForHolds(c: Config, sh: Shared, t: Tid, call: Call, choice: Choice, sh': Shared, pc': Pc)
    requires Steps(c, t, sh, call, choice, sh', pc') && Holds(c, sh.attempts, t, call)
    requires call.pc.InFor? && SharedResults(c, sh) && ForInv(c, sh, call) && Fits(sh, call)
    ensures Holds(c, sh'.attempts, t, call.(pc := pc'))
  {
  }

  lemma LoginHolds(c: Config, sh: Shared, t: Tid, call: Call, choice: Choice, sh': Shared, pc': Pc)
    requires Steps(c, t, sh, call, choice, sh', pc') && Holds(c, sh.attempts, t, call)
    requires call.pc.InLogin? && Kind(call) && Own(sh.attempts, t, call.pc)
    ensures Holds(c, sh'.attempts, t, call.(pc := pc'))
  {
  }

  lemma CheckHolds(c: Config, sh: Shared, t: Tid, call: Call, choice: Choice, sh': Shared, pc': Pc)
    requires Steps(c, t, sh, call, choice, sh', pc') && Holds(c, sh.attempts, t, call)
    requires call.pc.InCheck? && SharedResults(c, sh) && Own(sh.attempts, t, call.pc) && Fits(sh, call)
    ensures Holds(c, sh'.attempts, t, call.(pc := pc'))
  {
  }

  lemma RestHolds(c: Config, sh: Shared, t: Tid, call: Call, choice: Choice, sh': Shared, pc': Pc)
    requires Steps(c, t, sh, call, choice, sh', pc') && Holds(c, sh.attempts, t, call)
    requires call.pc.Enter? || call.pc.Stopping?
    ensures Holds(c, sh'.attempts, t, call.(pc := pc'))
  {
  }

  lemma {:induction false} HoldsKept(c: Config, sh: Shared, t: Tid, call: Call, choice: Choice, sh': Shared, pc': Pc)
    requires Steps(c, t, sh, call, choice, sh', pc') && CallInv(c, sh, t, call) && SharedInv(c, sh)
    requires SharedResults(c, sh) && CallResult(c, sh, t, call)
    ensures Holds(c, sh'.attempts, t, call.(pc := pc'))
  {
    JoinsFit(c, sh, t, call);
    match call.pc {
      case InFor(_) => ForHolds(c, sh, t, call, choice, sh', pc');
      case InLogin(_, _, _) => LoginHolds(c, sh, t, call, choice, sh', pc');
      case InCheck(_, _) => CheckHolds(c, sh, t, call, choice, sh', pc');
      case _ => RestHolds(c, sh, t, call, choice, sh', pc');
    }
  }

  // Outcomes stay; one that is added is the stepping call's, under the key it led.
  ghost predicate OutAdds(g: Group, g': Group, t: Tid, name: Option<string>, answer: Option<Answer>) {
    forall l :: l in g'.out ==>
      || (l in g.out && g'.out[l] == g.out[l])
      || (l == t && name == Some(g'.out[l].group) && answer == Some(g'.out[l].answer))
  }

  function SubjectLeft(call: Call): Option<Subject> {
    if call.pc.InFor? && call.pc.stage.LeaveSubject? then SubjectLed(call) else None
  }

  function AccountLeft(pc: Pc): Option<Key> {
    if pc.InFor? && pc.stage.LeaveAccount? then Some(pc.stage.key) else None
  }

  function CheckLeft(pc: Pc): Option<Key> {
    if pc.InCheck? && pc.check.LeaveGroup? then Some(pc.key) else None
  }

  lemma OutAdded(g: Group, g': Group, t: Tid, before: Option<string>, after: Option<string>, answer: Option<Answer>,
                 now: nat, name: Option<string>)
    requires GroupEffect(g, g', t, before, after, answer, now)
    requires before.Some? && after.None? && answer.Some? ==> name == before
    ensures OutAdds(g, g', t, name, answer)
  {
  }

  ghost predicate OutsAdd(sh: Shared, sh': Shared, t: Tid, call: Call) {
    && OutAdds(sh.bySubject, sh'.bySubject, t, SubjectLeft(call), Leaving(call.pc))
    && OutAdds(sh.byAccount, sh'.byAccount, t, AccountLeft(call.pc), Leaving(call.pc))
    && OutAdds(sh.byCheck, sh'.byCheck, t, CheckLeft(call.pc), Leaving(call.pc))
  }

  lemma {:induction false} StepOut(c: Config, sh: Shared, t: Tid, call: Call, choice: Choice, sh': Shared, pc': Pc)
    requires Effects(c, t, sh, call, choice, sh', pc') && Kind(call)
    ensures OutsAdd(sh, sh', t, call)
  {
    var after := call.(pc := pc');
    OutAdded(sh.bySubject, sh'.bySubject, t, SubjectLed(call), SubjectLed(after), Leaving(call.pc), sh.steps,
             SubjectLeft(call));
    OutAdded(sh.byAccount, sh'.byAccount, t, AccountLed(call.pc), AccountLed(pc'), Leaving(call.pc), sh.steps,
             AccountLeft(call.pc));
    OutAdded(sh.byCheck, sh'.byCheck, t, CheckLed(call.pc), CheckLed(pc'), Leaving(call.pc), sh.steps,
             CheckLeft(call.pc));
  }

  // A success is counted once, for the call whose own login it was.
  lemma CountedKept(c: Config, sh: Shared, t: Tid, call: Call, choice: Choice, sh': Shared, pc': Pc)
    requires Steps(c, t, sh, call, choice, sh', pc') && Own(sh.attempts, t, call.pc)
    requires TableEffect(sh.table, sh'.table, t, call.pc, pc') && Counted(sh.table.ensured, sh.attempts)
    requires AttemptEffect(sh.attempts, sh'.attempts, t, call.pc, choice)
    ensures Counted(sh'.table.ensured, sh'.attempts)
  {
    if call.pc.InLogin? && call.pc.login.LoggingIn? {
      assert Progress(pc') == 1 <==> call.pc.mode == Build && choice.outcome == LoginOk;
    }
  }

  lemma StateKept(c: Config, sh: Shared, t: Tid, call: Call, choice: Choice, sh': Shared, pc': Pc)
    requires TableEffect(sh.table, sh'.table, t, call.pc, pc') && Kind(call)
    requires SelfEffect(sh.self, sh'.self, sh.clock, call.pc, pc')
    requires Grown(sh.attempts, sh'.attempts, t) && Own(sh.attempts, t, call.pc) && SharedResults(c, sh)
    ensures forall k :: k in sh'.table.clients ==> LoggedIn(sh'.attempts, k, sh'.table.clients[k])
    ensures forall k :: k in sh'.self.cache ==>
                          ProbeEnded(sh'.attempts, k, sh'.self.cache[k].at, sh'.self.cache[k].result)
  {
    forall k | k in sh'.self.cache
      ensures ProbeEnded(sh'.attempts, k, sh'.self.cache[k].at, sh'.self.cache[k].result)
    {
      if k in sh.self.cache && sh'.self.cache[k] == sh.self.cache[k] {
        ProbeStays(sh.attempts, sh'.attempts, t, k, sh.self.cache[k].at, sh.self.cache[k].result);
      }
    }
  }

  lemma ProbeStays(attempts: map<Tid, Attempt>, attempts': map<Tid, Attempt>, t: Tid, k: Key, at: int, r: LoginOutcome)
    requires Grown(attempts, attempts', t) && ProbeEnded(attempts, k, at, r)
    ensures ProbeEnded(attempts', k, at, r)
  {
  }

  lemma OutsKept(c: Config, sh: Shared, t: Tid, call: Call, sh': Shared)
    requires OutsAdd(sh, sh', t, call) && Grown(sh.attempts, sh'.attempts, t)
    requires SharedResults(c, sh) && Holds(c, sh.attempts, t, call)
    ensures forall l :: l in sh'.bySubject.out ==>
                          SubjectAnswer(c, sh'.attempts, sh'.bySubject.out[l].group, sh'.bySubject.out[l].answer)
    ensures forall l :: l in sh'.byAccount.out ==>
                          AccountAnswer(sh'.attempts, sh'.byAccount.out[l].group, sh'.byAccount.out[l].answer)
    ensures forall l :: l in sh'.byCheck.out ==>
                          CheckAnswer(sh'.attempts, sh'.byCheck.out[l].group, sh'.byCheck.out[l].answer)
  {
  }

  // What a call leaves a group with is what it goes on with.
  lemma LeavesWith(c: Config, sh: Shared, t: Tid, call: Call, choice: Choice, sh': Shared, pc': Pc)
    requires Steps(c, t, sh, call, choice, sh', pc') && Leaving(call.pc).Some?
    ensures pc' == if call.pc.InFor? && call.pc.stage.LeaveAccount? then InFor(LeaveSubject(call.pc.stage.answer))
                   else Returned(Leaving(call.pc).value)
  {
  }

  // An answer once passed on to the subject's group stays the call's.
  lemma LeftKept(c: Config, sh: Shared, t: Tid, call: Call, sh': Shared, pc': Pc)
    requires OutsAdd(sh, sh', t, call) && Kind(call) && Left(sh, t, call) && !call.pc.Returned?
    requires Leaving(call.pc).Some? ==>
               pc' == if call.pc.InFor? && call.pc.stage.LeaveAccount? then InFor(LeaveSubject(call.pc.stage.answer))
                      else Returned(Leaving(call.pc).value)
    ensures Left(sh', t, call.(pc := pc'))
  {
  }

  lemma {:induction false} SharedKept(c: Config, sh: Shared, t: Tid, call: Call, choice: Choice, sh': Shared, pc': Pc)
    requires Steps(c, t, sh, call, choice, sh', pc') && Effects(c, t, sh, call, choice, sh', pc') && Kind(call)
    requires AttemptEffect(sh.attempts, sh'.attempts, t, call.pc, choice) && Grown(sh.attempts, sh'.attempts, t)
    requires OutsAdd(sh, sh', t, call) && SharedResults(c, sh) && CallResult(c, sh, t, call)
    ensures SharedResults(c, sh')
  {
    CountedKept(c, sh, t, call, choice, sh', pc');
    StateKept(c, sh, t, call, choice, sh', pc');
    OutsKept(c, sh, t, call, sh');
  }

  lemma {:induction false} ResultKept(c: Config, sh: Shared, t: Tid, call: Call, choice: Choice, sh': Shared, pc': Pc)
    requires Steps(c, t, sh, call, choice, sh', pc') && CallInv(c, sh, t, call) && SharedInv(c, sh)
    requires OutsAdd(sh, sh', t, call) && SharedResults(c, sh) && CallResult(c, sh, t, call)
    ensures CallResult(c, sh', t, call.(pc := pc'))
  {
    HoldsKept(c, sh, t, call, choice, sh', pc');
    if call.pc.InLogin? {
      LoginOwn(c, sh, t, call, choice, sh', pc');
    } else {
      RestOwn(c, sh, t, call, choice, sh', pc');
    }
    if Leaving(call.pc).Some? {
      LeavesWith(c, sh, t, call, choice, sh', pc');
    }
    LeftKept(c, sh, t, call, sh', pc');
  }

  lemma OthersResult(c: Config, sh: Shared, sh': Shared, t: Tid, call: Call, u: Tid, other: Call)
    requires OutsAdd(sh, sh', t, call)
    requires Grown(sh.attempts, sh'.attempts, t) && u != t && CallResult(c, sh, u, other)
    ensures CallResult(c, sh', u, other)
  {
  }

  lemma {:induction false} OthersResults(c: Config, s: State, s': State, t: Tid)
    requires t < |s.calls| == |s'.calls| && s'.calls == s.calls[t := s'.calls[t]]
    requires OutsAdd(s.sh, s'.sh, t, s.calls[t]) && Grown(s.sh.attempts, s'.sh.attempts, t) && Results(c, s)
    ensures forall u :: 0 <= u < |s'.calls| && u != t ==> CallResult(c, s'.sh, u, s'.calls[u])
  {
    forall u | 0 <= u < |s'.calls| && u != t ensures CallResult(c, s'.sh, u, s'.calls[u]) {
      OthersResult(c, s.sh, s'.sh, t, s.calls[t], u, s.calls[u]);
    }
  }

  lemma {:induction false} StepResults(c: Config, s: State, s': State, t: Tid, choice: Choice)
    requires Inv(c, s) && Results(c, s) && CallStep(c, s, s', t, choice)
    ensures Results(c, s')
  {
    var sh, call, sh', pc' := s.sh, s.calls[t], s'.sh, s'.calls[t].pc;
    assert CallInv(c, sh, t, call) && CallResult(c, sh, t, call);
    StepEffects(c, t, sh, call, choice, sh', pc');
    StepAttempt(c, sh, t, call, choice, sh', pc');
    StepOut(c, sh, t, call, choice, sh', pc');
    SharedKept(c, sh, t, call, choice, sh', pc');
    ResultKept(c, sh, t, call, choice, sh', pc');
    OthersResults(c, s, s', t);
  }

  lemma {:induction false} NextResults(c: Config, s: State, s': State)
    requires Inv(c, s) && Results(c, s) && Next(c, s, s')
    ensures Results(c, s')
  {
    if t: Tid, choice :| CallStep(c, s, s', t, choice) {
      StepResults(c, s, s', t, choice);
    } else if request :| Arrival(s, s', request) {
      assert CallResult(c, s'.sh, |s.calls|, s'.calls[|s.calls|]);
    }
  }

  lemma {:induction false} RunResults(c: Config, run: seq<State>, i: nat)
    requires IsRun(c, run) && i < |run|
    ensures Inv(c, run[i]) && Results(c, run[i])
  {
    RunInv(c, run, i);
    if i > 0 {
      RunResults(c, run, i - 1);
      assert Next(c, run[i - 1], run[i - 1 + 1]);
      NextResults(c, run[i - 1], run[i]);
    }
  }

  // The two states of a step of a run.
  lemma ResultsAt(c: Config, run: seq<State>, j: nat) returns (s: State, s': State)
    requires IsRun(c, run) && 0 < j < |run|
    ensures s == run[j - 1] && s' == run[j] && Inv(c, s) && Results(c, s) && Next(c, s, s')
  {
    RunResults(c, run, j - 1);
    assert Next(c, run[j - 1], run[j - 1 + 1]);
    s, s' := run[j - 1], run[j];
  }

  // ---------------------------------------------------------------- what is handed around

  // Some call holds or has returned this answer, or left it in a group.
  ghost predicate Circulates(s: State, a: Answer) {
    || (exists t :: 0 <= t < |s.calls| && (Leaving(s.calls[t].pc) == Some(a) || s.calls[t].pc == Returned(a)))
    || (exists l :: l in s.sh.bySubject.out && s.sh.bySubject.out[l].answer == a)
    || (exists l :: l in s.sh.byAccount.out && s.sh.byAccount.out[l].answer == a)
  }

  lemma Earned(c: Config, s: State, a: Answer)
    requires Results(c, s) && Circulates(s, a)
    ensures a.Client? ==> LoggedIn(s.sh.attempts, a.key, a.client)
    ensures a.LoginFailed? ==> exists k :: LoginRefused(s.sh.attempts, k, a.origin)
  {
    if t :| 0 <= t < |s.calls| && (Leaving(s.calls[t].pc) == Some(a) || s.calls[t].pc == Returned(a)) {
      assert CallResult(c, s.sh, t, s.calls[t]);
    }
  }

  // Wherever a failure turns up, it names a call whose own login has ended without success, and
  // that was never counted as one. Wherever a client turns up, its builder's login succeeded.
  lemma OutcomesAreReal(c: Config, run: seq<State>, i: nat, a: Answer)
    requires IsRun(c, run) && i < |run| && Circulates(run[i], a)
    ensures a.LoginFailed? ==>
              && a.origin in run[i].sh.attempts && run[i].sh.attempts[a.origin].mode == Build
              && run[i].sh.attempts[a.origin].outcome != LoginOk && run[i].sh.table.ensured[a.origin] == 0
    ensures a.Client? ==>
              && a.client in run[i].sh.attempts && run[i].sh.attempts[a.client] == Attempt(a.key, Build, LoginOk)
              && run[i].sh.table.ensured[a.client] == 1
  {
    RunResults(c, run, i);
    Earned(c, run[i], a);
  }

  // The history is the logins: a step that ends one adds how it ended, for the first time for this
  // call, and no other step changes it.
  lemma AttemptIsRecorded(c: Config, run: seq<State>, i: nat, t: Tid, choice: Choice)
    requires IsRun(c, run) && i + 1 < |run| && t < |run[i].calls| && CallStep(c, run[i], run[i + 1], t, choice)
    ensures
      var attempts, pc := run[i].sh.attempts, run[i].calls[t].pc;
      if pc.InLogin? && (pc.login.LoggingIn? || (pc.login.Connect? && !choice.connects)) then
        var outcome := if pc.login.LoggingIn? then choice.outcome else Unreachable;
        t !in attempts && run[i + 1].sh.attempts == attempts[t := Attempt(pc.key, pc.mode, outcome)]
      else run[i + 1].sh.attempts == attempts
  {
    RunResults(c, run, i);
    assert CallInv(c, run[i].sh, t, run[i].calls[t]) && CallResult(c, run[i].sh, t, run[i].calls[t]);
    StepAttempt(c, run[i].sh, t, run[i].calls[t], choice, run[i + 1].sh, run[i + 1].calls[t].pc);
  }

  // For answers NoAccount exactly to a caller without an account. To any other it answers with the
  // pooled client of the caller's account, or with a login against that account that failed.
  lemma ForIsAnswered(c: Config, run: seq<State>, i: nat, t: Tid)
    requires IsRun(c, run) && i < |run| && t < |run[i].calls|
    requires run[i].calls[t].request.For? && run[i].calls[t].pc.Returned?
    ensures
      var sh, subject, a := run[i].sh, run[i].calls[t].request.subject, run[i].calls[t].pc.answer;
      && (a.NoAccount? || a.Client? || a.LoginFailed?)
      && (a.NoAccount? <==> subject == "" || subject !in c.resolver || c.resolver[subject] == "")
      && (a.Client? ==>
            a.key == c.resolver[subject] && a.key in sh.table.clients && sh.table.clients[a.key] == a.client)
      && (a.LoginFailed? ==> a.origin in sh.attempts && sh.attempts[a.origin].key == c.resolver[subject])
  {
    RunResults(c, run, i);
    assert CallInv(c, run[i].sh, t, run[i].calls[t]) && CallResult(c, run[i].sh, t, run[i].calls[t]);
  }

  // A call whose own login has ended returns what that login led to: For the new client, for the
  // account the caller resolves to, exactly if it succeeded.
  lemma OwnLoginDecides(c: Config, run: seq<State>, i: nat, t: Tid)
    requires IsRun(c, run) && i < |run| && t < |run[i].calls| && run[i].calls[t].pc.Returned?
    ensures
      var sh, request, a := run[i].sh, run[i].calls[t].request, run[i].calls[t].pc.answer;
      && (sh.table.ensured[t] > 0 ==>
            && request.For? && a.Client? && a.client == t
            && request.subject in c.resolver && a.key == c.resolver[request.subject]
            && a.key in sh.table.clients && sh.table.clients[a.key] == t)
      && (t in sh.attempts ==>
            var end := sh.attempts[t];
            && (request.For? ==> if end.outcome == LoginOk then a == Client(end.key, t) else a == LoginFailed(t))
            && (request.Probe? ==> a == Probed(end.outcome))
            && (request.SelfCheck? ==>
                  end.mode.SelfProbe? && a == Checked(end.outcome, end.mode.at, false, end.mode.at)))
  {
    RunResults(c, run, i);
    assert CallInv(c, run[i].sh, t, run[i].calls[t]) && CallResult(c, run[i].sh, t, run[i].calls[t]);
  }

  // A probe and a self_check answer NoAccount exactly to a caller without an account. To any other
  // a probe tells how its own login against the caller's account ended, and a self_check how the
  // login of a self_check probe of that account, started when the answer says, ended.
  lemma ChecksAreAnswered(c: Config, run: seq<State>, i: nat, t: Tid)
    requires IsRun(c, run) && i < |run| && t < |run[i].calls| && run[i].calls[t].pc.Returned?
    requires run[i].calls[t].request.Probe? || run[i].calls[t].request.SelfCheck?
    ensures
      var sh, request, a := run[i].sh, run[i].calls[t].request, run[i].calls[t].pc.answer;
      var subject := request.subject;
      && (a == NoAccount <==> subject == "" || subject !in c.resolver || c.resolver[subject] == "")
      && (a != NoAccount && request.Probe? ==>
            a.Probed? && t in sh.attempts && sh.attempts[t] == Attempt(c.resolver[subject], ProbeOnly, a.outcome))
      && (a != NoAccount && request.SelfCheck? ==>
            a.Checked? &&
            exists o :: o in sh.attempts && sh.attempts[o] == Attempt(c.resolver[subject], SelfProbe(a.at), a.result))
  {
    RunResults(c, run, i);
    assert CallResult(c, run[i].sh, t, run[i].calls[t]);
  }
}
