// What the pool promises, over every run of the protocol.
module PoolTheorems {
  import opened Wrappers
  import opened PoolProtocol
  import opened PoolInvariant
  import opened PoolSteps

  // ---------------------------------------------------------------- the invariant of a state

  // Every call named anywhere has begun.
  ghost predicate Named(sh: Shared, n: nat) {
    && (forall m :: m in sh.held ==> sh.held[m] < n)
    && GroupNamed(sh.bySubject, n) && GroupNamed(sh.byAccount, n) && GroupNamed(sh.byCheck, n)
    && (forall k :: k in sh.table.clients ==> sh.table.clients[k] < n)
    && (forall x :: sh.table.ensured[x] > 0 ==> x < n)
    && (forall x :: x in sh.life.warmed ==> x < n)
    && (forall x :: x in sh.life.custody ==> x < n && sh.life.custody[x] < n)
  }

  ghost predicate GroupNamed(g: Group, n: nat) {
    (forall x :: x in g.leader ==> g.leader[x] < n) && (forall l :: l in g.out ==> l < n)
  }

  ghost predicate Inv(c: Config, s: State) {
    && SharedInv(c, s.sh)
    && Named(s.sh, |s.calls|)
    && forall t :: 0 <= t < |s.calls| ==> CallInv(c, s.sh, t, s.calls[t])
  }

  lemma GroupNamedKept(g: Group, g': Group, t: Tid, before: Option<string>, after: Option<string>,
                       answer: Option<Answer>, now: nat, n: nat)
    requires GroupEffect(g, g', t, before, after, answer, now) && GroupNamed(g, n) && t < n
    ensures GroupNamed(g', n)
  {
  }

  lemma HeldNamedKept(held: map<Mutex, Tid>, held': map<Mutex, Tid>, t: Tid, before: Option<Mutex>,
                      after: Option<Mutex>, n: nat)
    requires HeldEffect(held, held', t, before, after) && (forall m :: m in held ==> held[m] < n) && t < n
    ensures forall m :: m in held' ==> held'[m] < n
  {
  }

  lemma TableNamedKept(table: Table, table': Table, t: Tid, pc: Pc, pc': Pc, n: nat)
    requires TableEffect(table, table', t, pc, pc') && t < n
    requires (forall k :: k in table.clients ==> table.clients[k] < n) && (forall x :: table.ensured[x] > 0 ==> x < n)
    ensures (forall k :: k in table'.clients ==> table'.clients[k] < n) && (forall x :: table'.ensured[x] > 0 ==> x < n)
  {
  }

  lemma LifeNamedKept(c: Config, life: Keepalives, life': Keepalives, published: set<Tid>, t: Tid, pc: Pc, pc': Pc,
                      victim: Tid, n: nat)
    requires LifeEffect(c, life, life', published, t, pc, pc', victim) && t < n
    requires (forall x :: x in published ==> x < n)
    requires (forall x :: x in life.warmed ==> x < n)
    requires (forall x :: x in life.custody ==> x < n && life.custody[x] < n)
    ensures (forall x :: x in life'.warmed ==> x < n)
    ensures (forall x :: x in life'.custody ==> x < n && life'.custody[x] < n)
  {
  }

  lemma {:induction false} NamedKept(c: Config, t: Tid, sh: Shared, call: Call, choice: Choice, sh': Shared, pc': Pc,
                                     n: nat)
    requires Effects(c, t, sh, call, choice, sh', pc') && Named(sh, n) && t < n
    ensures Named(sh', n)
  {
    var after := call.(pc := pc');
    GroupNamedKept(sh.bySubject, sh'.bySubject, t, SubjectLed(call), SubjectLed(after), Leaving(call.pc), sh.steps, n);
    GroupNamedKept(sh.byAccount, sh'.byAccount, t, AccountLed(call.pc), AccountLed(pc'), Leaving(call.pc), sh.steps, n);
    GroupNamedKept(sh.byCheck, sh'.byCheck, t, CheckLed(call.pc), CheckLed(pc'), Leaving(call.pc), sh.steps, n);
    HeldNamedKept(sh.held, sh'.held, t, LockOf(call.pc), LockOf(pc'), n);
    TableNamedKept(sh.table, sh'.table, t, call.pc, pc', n);
    LifeNamedKept(c, sh.life, sh'.life, sh.table.clients.Values, t, call.pc, pc', choice.victim, n);
  }

  lemma {:induction false} StepInv(c: Config, s: State, s': State, t: Tid, choice: Choice)
    requires Inv(c, s) && CallStep(c, s, s', t, choice)
    ensures Inv(c, s')
  {
    var pc' := s'.calls[t].pc;
    StepKeeps(c, t, s.sh, s.calls[t], choice, s'.sh, pc');
    NamedKept(c, t, s.sh, s.calls[t], choice, s'.sh, pc', |s.calls|);
    forall u | 0 <= u < |s'.calls| ensures CallInv(c, s'.sh, u, s'.calls[u]) {
      if u != t {
        StepWithinRely(c, t, s.sh, s.calls[t], choice, s'.sh, pc', u);
        Stable(c, s.sh, s'.sh, u, s.calls[u]);
      }
    }
  }

  lemma ArrivalInv(c: Config, s: State, s': State, request: Request)
    requires Inv(c, s) && Arrival(s, s', request)
    ensures Inv(c, s')
  {
    var n := |s.calls|;
    assert CallInv(c, s.sh, n, s'.calls[n]);
  }

  lemma {:induction false} PassageInv(c: Config, s: State, s': State, delta: nat)
    requires Inv(c, s) && Passage(s, s', delta)
    ensures Inv(c, s')
  {
    forall u | 0 <= u < |s'.calls| ensures CallInv(c, s'.sh, u, s'.calls[u]) {
      assert Rely(s.sh, s'.sh, u);
      Stable(c, s.sh, s'.sh, u, s.calls[u]);
    }
  }

  lemma {:induction false} RunInv(c: Config, run: seq<State>, i: nat)
    requires IsRun(c, run) && i < |run|
    ensures Inv(c, run[i])
  {
    if i > 0 {
      RunInv(c, run, i - 1);
      var s, s' := run[i - 1], run[i];
      assert Next(c, run[i - 1], run[i - 1 + 1]);
      if t, choice :| CallStep(c, s, s', t, choice) {
        StepInv(c, s, s', t, choice);
      } else if request :| Arrival(s, s', request) {
        ArrivalInv(c, s, s', request);
      } else {
        var delta :| Passage(s, s', delta);
        PassageInv(c, s, s', delta);
      }
    }
  }

  // ---------------------------------------------------------------- one login at a time

  // In no reachable state are two real logins in flight for one account, whoever makes them.
  lemma AtMostOneLoginInFlight(c: Config, run: seq<State>, i: nat, t: Tid, u: Tid)
    requires IsRun(c, run) && i < |run| && t < |run[i].calls| && u < |run[i].calls|
    requires LoginInFlight(run[i].calls[t].pc).Some?
    requires LoginInFlight(run[i].calls[t].pc) == LoginInFlight(run[i].calls[u].pc)
    ensures t == u
  {
    RunInv(c, run, i);
    var s := run[i];
    assert CallInv(c, s.sh, t, s.calls[t]) && CallInv(c, s.sh, u, s.calls[u]);
    assert LockOf(s.calls[t].pc) == Some(s.calls[t].pc.login.mutex);
    assert LockOf(s.calls[u].pc) == Some(s.calls[u].pc.login.mutex);
  }

  // ---------------------------------------------------------------- one client per account

  // Entries are added, never changed or removed.
  ghost predicate Extends(table: Table, table': Table) {
    && (forall k :: k in table.clients ==> k in table'.clients && table'.clients[k] == table.clients[k])
    && (forall k :: k in table.loginLocks ==> k in table'.loginLocks && table'.loginLocks[k] == table.loginLocks[k])
  }

  lemma EffectExtends(table: Table, table': Table, t: Tid, pc: Pc, pc': Pc)
    requires TableEffect(table, table', t, pc, pc')
    requires pc.InLogin? && pc.login.Publish? ==> pc.key !in table.clients
    ensures Extends(table, table')
  {
  }

  lemma {:induction false} NextExtends(c: Config, s: State, s': State)
    requires Inv(c, s) && Next(c, s, s')
    ensures Extends(s.sh.table, s'.sh.table)
  {
    if t: Tid, choice :| CallStep(c, s, s', t, choice) {
      PublishFacts(c, s.sh, t, s.calls[t]);
      StepEffects(c, t, s.sh, s.calls[t], choice, s'.sh, s'.calls[t].pc);
      EffectExtends(s.sh.table, s'.sh.table, t, s.calls[t].pc, s'.calls[t].pc);
    }
  }

  lemma ExtendsTransitive(a: Table, b: Table, d: Table)
    requires Extends(a, b) && Extends(b, d)
    ensures Extends(a, d)
  {
  }

  lemma RunExtends(c: Config, run: seq<State>, j: nat)
    requires IsRun(c, run) && 0 < j < |run|
    ensures Extends(run[j - 1].sh.table, run[j].sh.table)
  {
    RunInv(c, run, j - 1);
    assert Next(c, run[j - 1], run[j - 1 + 1]);
    NextExtends(c, run[j - 1], run[j]);
  }

  lemma {:induction false} ChainExtends(tables: seq<Table>, i: nat, j: nat)
    requires i <= j < |tables|
    requires forall k :: 0 < k < |tables| ==> Extends(tables[k - 1], tables[k])
    ensures Extends(tables[i], tables[j])
  {
    if i < j {
      ChainExtends(tables, i, j - 1);
      ExtendsTransitive(tables[i], tables[j - 1], tables[j]);
    }
  }

  // clients[k] is assigned at most once in a run, and an account's login mutex is never replaced.
  lemma ClientForever(c: Config, run: seq<State>, i: nat, j: nat)
    requires IsRun(c, run) && i <= j < |run|
    ensures Extends(run[i].sh.table, run[j].sh.table)
  {
    var tables := seq(|run|, n requires 0 <= n < |run| => run[n].sh.table);
    forall k | 0 < k < |tables| ensures Extends(tables[k - 1], tables[k]) {
      RunExtends(c, run, k);
    }
    ChainExtends(tables, i, j);
  }

  // Whenever, and by whichever caller, For is answered for one account, the client is the
  // same; it belongs to the account the caller resolves to, and that account has had exactly
  // one successful EnsureSession, on exactly this client.
  lemma OneClientPerAccount(c: Config, run: seq<State>, i: nat, t: Tid, j: nat, u: Tid)
    requires IsRun(c, run) && i < |run| && j < |run| && t < |run[i].calls| && u < |run[j].calls|
    requires run[i].calls[t].pc.Returned? && run[i].calls[t].pc.answer.Client? && run[i].calls[t].request.For?
    requires run[j].calls[u].pc.Returned? && run[j].calls[u].pc.answer.Client? && run[j].calls[u].request.For?
    requires run[i].calls[t].pc.answer.key == run[j].calls[u].pc.answer.key
    ensures run[i].calls[t].pc.answer.client == run[j].calls[u].pc.answer.client
    ensures run[i].calls[t].request.subject in c.resolver
    ensures run[i].calls[t].pc.answer.key == c.resolver[run[i].calls[t].request.subject]
    ensures run[i].sh.table.successes[run[i].calls[t].pc.answer.key] == 1
    ensures run[i].sh.table.ensured[run[i].calls[t].pc.answer.client] == 1
  {
    RunInv(c, run, i);
    RunInv(c, run, j);
    assert CallInv(c, run[i].sh, t, run[i].calls[t]);
    assert CallInv(c, run[j].sh, u, run[j].calls[u]);
    if i <= j {
      ClientForever(c, run, i, j);
    } else {
      ClientForever(c, run, j, i);
    }
  }

  // However many callers ask, an account never has more than one successful pooled login.
  lemma AtMostOneSuccess(c: Config, run: seq<State>, i: nat, k: Key)
    requires IsRun(c, run) && i < |run|
    ensures run[i].sh.table.successes[k] <= 1
    ensures k in run[i].sh.table.clients ==> run[i].sh.table.successes[k] == 1
  {
    RunInv(c, run, i);
    var s := run[i];
    if k !in s.sh.table.clients && k in s.sh.byAccount.leader {
      var t := s.sh.byAccount.leader[k];
      assert CallInv(c, s.sh, t, s.calls[t]);
    }
  }

  // ---------------------------------------------------------------- keepalives

  // Close has run, and no call still has a stop() to make.
  ghost predicate AllStopped(s: State) {
    && s.sh.life.closed
    && forall t, x :: 0 <= t < |s.calls| ==> !MustStop(t, s.calls[t].pc, x)
  }

  // Whoever has a client in custody still has its stop() ahead.
  lemma CustodyIsTaken(c: Config, s: State, x: Tid)
    requires Inv(c, s)
    ensures x in s.sh.life.custody ==>
              var t := s.sh.life.custody[x];
              t < |s.calls| && MustStop(t, s.calls[t].pc, x)
  {
    if x in s.sh.life.custody {
      assert CallInv(c, s.sh, s.sh.life.custody[x], s.calls[s.sh.life.custody[x]]);
    }
  }

  // Once Close has run and the builds in flight have finished, no keepalive is left running:
  // every one that was ever started has been stopped, exactly once if Close ran once.
  lemma NoKeepaliveOutlivesClose(c: Config, run: seq<State>, i: nat)
    requires IsRun(c, run) && i < |run| && AllStopped(run[i])
    ensures run[i].sh.life.running == {}
    ensures forall x :: x in run[i].sh.life.warmed ==> run[i].sh.life.stopCalls[x] >= 1
    ensures run[i].sh.life.closes == 1 ==> forall x :: x in run[i].sh.life.warmed ==> run[i].sh.life.stopCalls[x] == 1
  {
    RunInv(c, run, i);
    forall x ensures x !in run[i].sh.life.custody {
      CustodyIsTaken(c, run[i], x);
    }
  }

  // Before Close, a client in the map keeps its keepalive: nobody stops it.
  lemma NothingStoppedBeforeClose(c: Config, run: seq<State>, i: nat, x: Tid)
    requires IsRun(c, run) && i < |run| && !run[i].sh.life.closed
    ensures run[i].sh.life.stopCalls[x] == 0
  {
    RunInv(c, run, i);
  }

  // ---------------------------------------------------------------- no stale outcome

  // An executing leader is a call that has not finished: nobody joins a finished execution.
  lemma LeadersAreLive(c: Config, run: seq<State>, i: nat, name: string)
    requires IsRun(c, run) && i < |run|
    ensures name in run[i].sh.bySubject.leader ==>
              var l := run[i].sh.bySubject.leader[name];
              l < |run[i].calls| && SubjectLed(run[i].calls[l]) == Some(name)
    ensures name in run[i].sh.byAccount.leader ==>
              var l := run[i].sh.byAccount.leader[name];
              l < |run[i].calls| && AccountLed(run[i].calls[l].pc) == Some(name)
    ensures name in run[i].sh.byCheck.leader ==>
              var l := run[i].sh.byCheck.leader[name];
              l < |run[i].calls| && CheckLed(run[i].calls[l].pc) == Some(name)
  {
    RunInv(c, run, i);
    var s := run[i];
    if name in s.sh.bySubject.leader {
      assert CallInv(c, s.sh, s.sh.bySubject.leader[name], s.calls[s.sh.bySubject.leader[name]]);
    }
    if name in s.sh.byAccount.leader {
      assert CallInv(c, s.sh, s.sh.byAccount.leader[name], s.calls[s.sh.byAccount.leader[name]]);
    }
    if name in s.sh.byCheck.leader {
      assert CallInv(c, s.sh, s.sh.byCheck.leader[name], s.calls[s.sh.byCheck.leader[name]]);
    }
  }

  // An outcome taken over by a call that began at step `started`: it was left under this name, no
  // earlier than then.
  predicate TakenOver(g: Group, name: string, leader: Tid, started: nat) {
    leader in g.out && g.out[leader].group == name && g.out[leader].at >= started
  }

  // A step of this call that ends a wait in one of the groups returns such an outcome.
  predicate WaitsEndFresh(sh: Shared, call: Call, pc': Pc) {
    && (call.pc.InFor? && call.pc.stage.JoinSubject? ==>
          && call.request.For? && TakenOver(sh.bySubject, call.request.subject, call.pc.stage.leader, call.started)
          && pc' == Returned(sh.bySubject.out[call.pc.stage.leader].answer))
    && (call.pc.InFor? && call.pc.stage.JoinAccount? ==>
          && TakenOver(sh.byAccount, call.pc.stage.key, call.pc.stage.leader, call.started)
          && pc' == InFor(LeaveSubject(sh.byAccount.out[call.pc.stage.leader].answer)))
    && (call.pc.InCheck? && call.pc.check.JoinGroup? ==>
          && TakenOver(sh.byCheck, call.pc.key, call.pc.check.leader, call.started)
          && pc' == Returned(sh.byCheck.out[call.pc.check.leader].answer))
  }

  // A call that takes over another's outcome takes it from an execution for its own key that
  // was still running when the call began.
  lemma NoStaleOutcome(c: Config, run: seq<State>, i: nat, t: Tid, choice: Choice)
    requires IsRun(c, run) && i + 1 < |run| && t < |run[i].calls| && CallStep(c, run[i], run[i + 1], t, choice)
    ensures WaitsEndFresh(run[i].sh, run[i].calls[t], run[i + 1].calls[t].pc)
  {
    RunInv(c, run, i);
    var sh, call := run[i].sh, run[i].calls[t];
    assert CallInv(c, sh, t, call) && SharedInv(c, sh);
    WaitsEnd(c, t, sh, call, choice, run[i + 1].sh, run[i + 1].calls[t].pc);
  }

  lemma WaitsEnd(c: Config, t: Tid, sh: Shared, call: Call, choice: Choice, sh': Shared, pc': Pc)
    requires Steps(c, t, sh, call, choice, sh', pc') && Kind(call)
    requires GroupInv(sh.bySubject) && GroupInv(sh.byAccount) && GroupInv(sh.byCheck)
    requires ForInv(c, sh, call) && CheckInv(sh, call)
    ensures WaitsEndFresh(sh, call, pc')
  {
  }

  // Nothing but a build that has just logged in successfully writes to clients: a resolver
  // error, a client that cannot be built and a failed login leave it as it was.
  lemma OnlySuccessIsCached(c: Config, run: seq<State>, i: nat, t: Tid, choice: Choice)
    requires IsRun(c, run) && i + 1 < |run| && t < |run[i].calls| && CallStep(c, run[i], run[i + 1], t, choice)
    requires run[i].sh.table.clients != run[i + 1].sh.table.clients
    ensures
      var pc := run[i].calls[t].pc;
      && pc.InLogin? && pc.login.Publish? && run[i].sh.table.ensured[t] == 1
      && run[i + 1].sh.table.clients == run[i].sh.table.clients[pc.key := t]
  {
    RunInv(c, run, i);
    var sh, call := run[i].sh, run[i].calls[t];
    assert CallInv(c, sh, t, call);
    StepEffects(c, t, sh, call, choice, run[i + 1].sh, run[i + 1].calls[t].pc);
  }
}
