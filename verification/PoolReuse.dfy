// A client once in the map is what For answers with, without another login; a call that waits for
// another ends with that one's answer; and while the pool is open every pooled client is kept alive.
module PoolReuse {
  import opened Wrappers
  import opened PoolProtocol
  import opened PoolInvariant
  import opened PoolSteps
  import opened PoolTheorems
  import opened PoolOutcomes
  import opened PoolResults

  // ---------------------------------------------------------------- a pooled client is reused

  // Call t executes for its subject and can only end with this client of account k.
  predicate Reuses(s: State, t: Tid, k: Key, client: Tid) {
    && k in s.sh.table.clients && s.sh.table.clients[k] == client
    && t < |s.calls| && s.calls[t].request.For? && t !in s.sh.attempts
    && match s.calls[t].pc
       case InFor(Resolve) => true
       case InFor(FirstCheck(key)) => key == k
       case InFor(LeaveSubject(a)) => a == Client(k, client)
       case Returned(a) => a == Client(k, client)
       case _ => false
  }

  lemma ReusesOwn(c: Config, sh: Shared, t: Tid, call: Call, choice: Choice, sh': Shared, pc': Pc, k: Key)
    requires Steps(c, t, sh, call, choice, sh', pc') && ForKey(c, call, k) && k in sh.table.clients
    requires call.pc.InFor?
    requires call.pc.stage.Resolve? || call.pc.stage == FirstCheck(k) || call.pc.stage.LeaveSubject?
    ensures sh'.attempts == sh.attempts
    ensures call.pc == InFor(Resolve) ==> pc' == InFor(FirstCheck(k))
    ensures call.pc == InFor(FirstCheck(k)) ==> pc' == InFor(LeaveSubject(Client(k, sh.table.clients[k])))
    ensures call.pc.stage.LeaveSubject? ==> pc' == Returned(call.pc.stage.answer)
  {
  }

  predicate Asks(c: Config, s: State, t: Tid, k: Key, client: Tid) {
    Reuses(s, t, k, client) && Lookup(c, s.calls[t].request.subject) == Some(k)
  }

  lemma ReusesStep(c: Config, s: State, s': State, u: Tid, choice: Choice, t: Tid, k: Key, client: Tid)
    requires Inv(c, s) && Results(c, s) && CallStep(c, s, s', u, choice) && Asks(c, s, t, k, client)
    requires Extends(s.sh.table, s'.sh.table)
    ensures Asks(c, s', t, k, client)
  {
    if u == t {
      ReusesOwn(c, s.sh, t, s.calls[t], choice, s'.sh, s'.calls[t].pc, k);
    } else {
      assert CallResult(c, s.sh, u, s.calls[u]) && CallInv(c, s.sh, u, s.calls[u]);
      StepAttempt(c, s.sh, u, s.calls[u], choice, s'.sh, s'.calls[u].pc);
    }
  }

  lemma ReusesNext(c: Config, s: State, s': State, t: Tid, k: Key, client: Tid)
    requires Inv(c, s) && Results(c, s) && Next(c, s, s') && Asks(c, s, t, k, client)
    ensures Asks(c, s', t, k, client)
  {
    NextExtends(c, s, s');
    if u: Tid, choice :| CallStep(c, s, s', u, choice) {
      ReusesStep(c, s, s', u, choice, t, k, client);
    }
  }

  lemma ReusesAt(c: Config, run: seq<State>, j: nat, t: Tid, k: Key, client: Tid)
    requires IsRun(c, run) && 0 < j < |run|
    ensures Asks(c, run[j - 1], t, k, client) ==> Asks(c, run[j], t, k, client)
  {
    var s, s' := ResultsAt(c, run, j);
    if Asks(c, s, t, k, client) {
      ReusesNext(c, s, s', t, k, client);
    }
  }

  lemma ReusesRun(c: Config, run: seq<State>, i: nat, j: nat, t: Tid, k: Key, client: Tid)
    requires IsRun(c, run) && i <= j < |run| && Asks(c, run[i], t, k, client)
    ensures Asks(c, run[j], t, k, client)
  {
    var flags := seq(|run|, n requires 0 <= n < |run| => Asks(c, run[n], t, k, client));
    forall n | 0 < n < |flags| ensures flags[n - 1] ==> flags[n] {
      ReusesAt(c, run, n, t, k, client);
    }
    Carries(flags, i, j);
  }

  lemma EnterAlone(c: Config, sh: Shared, t: Tid, call: Call, choice: Choice, sh': Shared, pc': Pc)
    requires Steps(c, t, sh, call, choice, sh', pc') && call.pc.Enter? && call.request.For?
    requires call.request.subject != "" && call.request.subject !in sh.bySubject.leader
    ensures pc' == InFor(Resolve) && sh'.table == sh.table && sh'.attempts == sh.attempts
  {
  }

  lemma Enters(c: Config, s: State, s': State, t: Tid, choice: Choice, k: Key)
    requires CallStep(c, s, s', t, choice) && Results(c, s) && k in s.sh.table.clients
    requires s.calls[t].pc.Enter? && s.calls[t].request.For? && Lookup(c, s.calls[t].request.subject) == Some(k)
    requires s.calls[t].request.subject !in s.sh.bySubject.leader
    ensures Asks(c, s', t, k, s.sh.table.clients[k])
  {
    assert CallResult(c, s.sh, t, s.calls[t]);
    EnterAlone(c, s.sh, t, s.calls[t], choice, s'.sh, s'.calls[t].pc);
  }

  lemma NoLogin(c: Config, s: State, t: Tid)
    requires Results(c, s) && t !in s.sh.attempts
    ensures s.sh.table.ensured[t] == 0
  {
  }

  // A For that begins when its caller's account has a client, and finds nobody executing for its
  // subject, makes no login and ends with that client.
  lemma PooledClientIsReturned(c: Config, run: seq<State>, b: nat, i: nat, j: nat, t: Tid, choice: Choice, k: Key)
    requires IsRun(c, run) && b <= i < j < |run| && t < |run[i].calls| && t < |run[j].calls|
    requires k in run[b].sh.table.clients
    requires CallStep(c, run[i], run[i + 1], t, choice) && run[i].calls[t].pc.Enter? && run[i].calls[t].request.For?
    requires
      var subject := run[i].calls[t].request.subject;
      && subject in c.resolver && c.resolver[subject] == k && subject != "" && k != ""
      && subject !in run[i].sh.bySubject.leader
    ensures t !in run[j].sh.attempts && run[j].sh.table.ensured[t] == 0
    ensures run[j].calls[t].pc.Returned? ==> run[j].calls[t].pc.answer == Client(k, run[b].sh.table.clients[k])
  {
    ClientForever(c, run, b, i);
    RunResults(c, run, i);
    Enters(c, run[i], run[i + 1], t, choice, k);
    ReusesRun(c, run, i + 1, j, t, k, run[b].sh.table.clients[k]);
    RunResults(c, run, j);
    NoLogin(c, run[j], t);
  }

  // ---------------------------------------------------------------- joiners

  predicate Waits(pc: Pc, l: Tid) {
    || pc == InFor(JoinSubject(l))
    || (pc.InFor? && pc.stage.JoinAccount? && pc.stage.leader == l)
    || (pc.InCheck? && pc.check == JoinGroup(l))
  }

  // Call t waits for call l, or has come to hold the answer that l holds.
  predicate Shares(s: State, t: Tid, l: Tid) {
    && t < |s.calls|
    && (|| Waits(s.calls[t].pc, l)
        || (l < |s.calls| && Given(s.calls[l].pc).Some? && Given(s.calls[t].pc) == Given(s.calls[l].pc)))
  }

  lemma GivenStays(c: Config, sh: Shared, t: Tid, call: Call, choice: Choice, sh': Shared, pc': Pc)
    requires Steps(c, t, sh, call, choice, sh', pc') && Given(call.pc).Some?
    ensures Given(pc') == Given(call.pc)
  {
  }

  lemma WaitsOwn(c: Config, sh: Shared, t: Tid, call: Call, choice: Choice, sh': Shared, pc': Pc, l: Tid)
    requires Steps(c, t, sh, call, choice, sh', pc') && Waits(call.pc, l)
    ensures (l in sh.bySubject.out && Given(pc') == Some(sh.bySubject.out[l].answer))
         || (l in sh.byAccount.out && Given(pc') == Some(sh.byAccount.out[l].answer))
         || (l in sh.byCheck.out && Given(pc') == Some(sh.byCheck.out[l].answer))
  {
  }

  lemma SharesStep(c: Config, s: State, s': State, u: Tid, choice: Choice, t: Tid, l: Tid)
    requires Inv(c, s) && Results(c, s) && CallStep(c, s, s', u, choice) && Shares(s, t, l)
    ensures Shares(s', t, l)
  {
    if u == t && Waits(s.calls[t].pc, l) {
      WaitsOwn(c, s.sh, t, s.calls[t], choice, s'.sh, s'.calls[t].pc, l);
      assert CallResult(c, s.sh, l, s.calls[l]);
    } else if Given(s.calls[u].pc).Some? {
      GivenStays(c, s.sh, u, s.calls[u], choice, s'.sh, s'.calls[u].pc);
    }
  }

  lemma SharesNext(c: Config, s: State, s': State, t: Tid, l: Tid)
    requires Inv(c, s) && Results(c, s) && Next(c, s, s') && Shares(s, t, l)
    ensures Shares(s', t, l)
  {
    if u: Tid, choice :| CallStep(c, s, s', u, choice) {
      SharesStep(c, s, s', u, choice, t, l);
    }
  }

  lemma SharesAt(c: Config, run: seq<State>, j: nat, t: Tid, l: Tid)
    requires IsRun(c, run) && 0 < j < |run|
    ensures Shares(run[j - 1], t, l) ==> Shares(run[j], t, l)
  {
    var s, s' := ResultsAt(c, run, j);
    if Shares(s, t, l) {
      SharesNext(c, s, s', t, l);
    }
  }

  // A call that waits for another, in any of the three groups, returns nothing but the answer that
  // the other returns: by then that one has it, and keeps it.
  lemma JoinersShareTheAnswer(c: Config, run: seq<State>, i: nat, j: nat, t: Tid, l: Tid)
    requires IsRun(c, run) && i <= j < |run| && t < |run[i].calls| && t < |run[j].calls|
    requires Waits(run[i].calls[t].pc, l) && run[j].calls[t].pc.Returned?
    ensures l < |run[j].calls| && Given(run[j].calls[l].pc) == Some(run[j].calls[t].pc.answer)
  {
    var flags := seq(|run|, n requires 0 <= n < |run| => Shares(run[n], t, l));
    forall n | 0 < n < |flags| ensures flags[n - 1] ==> flags[n] {
      SharesAt(c, run, n, t, l);
    }
    Carries(flags, i, j);
  }

  // ---------------------------------------------------------------- keepalives of an open pool

  ghost predicate KeptAlive(c: Config, s: State) {
    && (!c.keepalive ==> s.sh.life.warmed == {} && s.sh.life.running == {})
    && (c.keepalive ==> s.sh.table.clients.Values <= s.sh.life.warmed)
    && (c.keepalive && !s.sh.life.closed ==> s.sh.table.clients.Values <= s.sh.life.running)
    && (c.keepalive ==> forall t :: 0 <= t < |s.calls| ==> OwnAlive(s.sh.life, t, s.calls[t].pc))
  }

  // A client about to be published has its keepalive.
  predicate OwnAlive(life: Keepalives, t: Tid, pc: Pc) {
    pc.InLogin? && pc.login.Publish? ==> t in life.warmed && (!life.closed ==> t in life.running)
  }

  lemma LifeAlive(c: Config, life: Keepalives, life': Keepalives, published: set<Tid>, t: Tid, pc: Pc, pc': Pc,
                  victim: Tid)
    requires LifeEffect(c, life, life', published, t, pc, pc', victim) && StopInv(life, published, t, pc)
    requires !c.keepalive ==> life.warmed == {} && life.running == {}
    ensures life.warmed <= life'.warmed && (!life'.closed ==> !life.closed && life.running <= life'.running)
    ensures c.keepalive && pc.InLogin? && pc.login.Warm? ==> t in life'.warmed && t in life'.running
    ensures !c.keepalive ==> life'.warmed == {} && life'.running == {}
  {
  }

  lemma PublishedAlive(table: Table, table': Table, life: Keepalives, t: Tid, pc: Pc, pc': Pc)
    requires TableEffect(table, table', t, pc, pc') && OwnAlive(life, t, pc)
    ensures table.clients.Values <= life.warmed ==> table'.clients.Values <= life.warmed
    ensures !life.closed && table.clients.Values <= life.running ==> table'.clients.Values <= life.running
  {
  }

  lemma StepAlive(c: Config, s: State, s': State, t: Tid, choice: Choice)
    requires Inv(c, s) && KeptAlive(c, s) && CallStep(c, s, s', t, choice)
    ensures KeptAlive(c, s')
  {
    var sh, call, sh', pc' := s.sh, s.calls[t], s'.sh, s'.calls[t].pc;
    assert CallInv(c, sh, t, call);
    StepEffects(c, t, sh, call, choice, sh', pc');
    LifeAlive(c, sh.life, sh'.life, sh.table.clients.Values, t, call.pc, pc', choice.victim);
    if c.keepalive {
      assert OwnAlive(sh.life, t, call.pc);
      PublishedAlive(sh.table, sh'.table, sh.life, t, call.pc, pc');
      forall u | 0 <= u < |s'.calls| ensures OwnAlive(sh'.life, u, s'.calls[u].pc) {
        assert OwnAlive(sh.life, u, s.calls[u].pc);
      }
    }
  }

  lemma NextAlive(c: Config, s: State, s': State)
    requires Inv(c, s) && KeptAlive(c, s) && Next(c, s, s')
    ensures KeptAlive(c, s')
  {
    if t: Tid, choice :| CallStep(c, s, s', t, choice) {
      StepAlive(c, s, s', t, choice);
    }
  }

  lemma {:induction false} RunAlive(c: Config, run: seq<State>, i: nat)
    requires IsRun(c, run) && i < |run|
    ensures KeptAlive(c, run[i])
  {
    if i > 0 {
      RunAlive(c, run, i - 1);
      var s, s' := StatesAt(c, run, i);
      NextAlive(c, s, s');
    }
  }

  // With WithKeepalive every pooled client has had its keepalive started, and until Close runs it
  // is still running; without it none is ever started.
  lemma PooledClientsAreKeptAlive(c: Config, run: seq<State>, i: nat, k: Key)
    requires IsRun(c, run) && i < |run|
    ensures c.keepalive && k in run[i].sh.table.clients ==>
              && run[i].sh.table.clients[k] in run[i].sh.life.warmed
              && (!run[i].sh.life.closed ==> run[i].sh.table.clients[k] in run[i].sh.life.running)
    ensures !c.keepalive ==> run[i].sh.life.warmed == {} && run[i].sh.life.running == {}
  {
    RunAlive(c, run, i);
  }
}
