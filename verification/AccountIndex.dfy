// buildResolver and the resolver it makes, and their agreement with the configuration's own index.
module AccountIndex {
  import opened Wrappers
  import opened Text
  import opened ConfigLists
  import opened AccountConfig

  datatype Credentials = Credentials(username: string, password: string, totpSeed: string)

  datatype BuildError = NotOneAccount(n: nat) | SubjectOfTwo(subject: string, firstKey: string, secondKey: string)

  datatype ResolveError = ErrNoAccount

  type BySubject = map<string, Credentials>

  function CredentialsOf(a: Account): Credentials {
    Credentials(a.username, a.password, a.totpSeed)
  }

  // AccountBySubject
  function AccountBySubject(subjectIndex: map<string, string>, subject: string): Option<string> {
    if subject in subjectIndex then Some(subjectIndex[subject]) else None
  }

  // multi.Credentials; None is a context without a verified identity.
  function Resolve(m: BySubject, identity: Option<string>): Result<Credentials, ResolveError> {
    if identity.None? then Err(ErrNoAccount)
    else if identity.value == "" then Err(ErrNoAccount)
    else if identity.value !in m then Err(ErrNoAccount)
    else Ok(m[identity.value])
  }

  ghost predicate Resolves(m: BySubject, es: seq<Entry>) {
    && (forall i :: 0 <= i < |es| ==> es[i].subject in m && m[es[i].subject] == CredentialsOf(es[i].account))
    && (forall s :: s in m ==> exists i :: 0 <= i < |es| && es[i].subject == s)
  }

  // What a call of buildResolver may return.
  ghost predicate Builds(mode: AccountMode, accounts: seq<Account>, r: Result<BySubject, BuildError>) {
    && (r.Ok? <==> (mode == ModeSingle ==> |accounts| == 1) && SingleAssignment(Entries(accounts)))
    && (r.Ok? ==> Resolves(r.value, Entries(accounts)))
    && (r.Err? && r.error.NotOneAccount? ==> mode == ModeSingle && r.error.n == |accounts| != 1)
    && (r.Err? && r.error.SubjectOfTwo? ==>
          Clash(Entries(accounts), r.error.subject, r.error.firstKey, r.error.secondKey))
  }

  lemma ResolvesMore(m: BySubject, es: seq<Entry>, e: Entry)
    requires SingleAssignment(es + [e]) && Resolves(m, es)
    ensures Resolves(m[e.subject := CredentialsOf(e.account)], es + [e])
  {
    var more := es + [e];
    var m' := m[e.subject := CredentialsOf(e.account)];
    assert more[|es|] == e && forall i :: 0 <= i < |es| ==> more[i] == es[i];
    forall s | s in m' ensures exists i :: 0 <= i < |more| && more[i].subject == s {
      if s != e.subject {
        var i :| 0 <= i < |es| && es[i].subject == s;
        assert more[i].subject == s;
      }
    }
  }

  // The subjects of one account, added to both maps.
  method AddAccount(acc: Account, m: BySubject, owner: map<string, string>, ghost es: seq<Entry>)
    returns (m': BySubject, owner': map<string, string>, e: Option<BuildError>)
    requires SingleAssignment(es) && Indexes(owner, es) && Resolves(m, es)
    ensures e.None? ==> SingleAssignment(es + EntriesUpTo(acc, |acc.subjects|))
    ensures e.None? ==> Indexes(owner', es + EntriesUpTo(acc, |acc.subjects|))
    ensures e.None? ==> Resolves(m', es + EntriesUpTo(acc, |acc.subjects|))
    ensures e.Some? ==> e.value.SubjectOfTwo?
    ensures e.Some? ==>
              Clash(es + EntriesUpTo(acc, |acc.subjects|), e.value.subject, e.value.firstKey, e.value.secondKey)
  {
    m', owner' := m, owner;
    var creds := Credentials(acc.username, acc.password, acc.totpSeed);
    ghost var sofar := es;
    assert es + EntriesUpTo(acc, 0) == es;
    for n := 0 to |acc.subjects|
      invariant sofar == es + EntriesUpTo(acc, n)
      invariant SingleAssignment(sofar) && Indexes(owner', sofar) && Resolves(m', sofar)
    {
      var subject := acc.subjects[n];
      ghost var a := Entry(subject, acc);
      NextEntry(es, acc, n);
      if subject in owner' {
        IndexClash(owner', sofar, a, es + EntriesUpTo(acc, |acc.subjects|));
        return m', owner', Some(SubjectOfTwo(subject, owner'[subject], acc.key));
      }
      IndexMore(owner', sofar, a);
      ResolvesMore(m', sofar, a);
      owner' := owner'[subject := acc.key];
      m' := m'[subject := creds];
      sofar := sofar + [a];
    }
    return m', owner', None;
  }

  lemma EntriesMore(accounts: seq<Account>, n: nat)
    requires n < |accounts|
    ensures Entries(accounts[..n + 1]) == Entries(accounts[..n]) + EntriesUpTo(accounts[n], |accounts[n].subjects|)
  {
    assert accounts[..n + 1][..n] == accounts[..n];
  }

  lemma {:induction false} EntriesGrow(accounts: seq<Account>, n: nat)
    requires n <= |accounts|
    ensures Entries(accounts[..n]) <= Entries(accounts)
    decreases |accounts| - n
  {
    if n == |accounts| {
      assert accounts[..n] == accounts;
    } else {
      EntriesGrow(accounts, n + 1);
      EntriesMore(accounts, n);
    }
  }

  method BuildResolver(mode: AccountMode, accounts: seq<Account>) returns (r: Result<BySubject, BuildError>)
    ensures Builds(mode, accounts, r)
  {
    if mode == ModeSingle && |accounts| != 1 {
      return Err(NotOneAccount(|accounts|));
    }
    var m: BySubject := map[];
    var owner: map<string, string> := map[];
    for n := 0 to |accounts|
      invariant SingleAssignment(Entries(accounts[..n]))
      invariant Indexes(owner, Entries(accounts[..n])) && Resolves(m, Entries(accounts[..n]))
    {
      EntriesMore(accounts, n);
      var e;
      m, owner, e := AddAccount(accounts[n], m, owner, Entries(accounts[..n]));
      if e.Some? {
        EntriesGrow(accounts, n + 1);
        ClashLater(Entries(accounts[..n + 1]), Entries(accounts), e.value.subject, e.value.firstKey, e.value.secondKey);
        ClashIsDouble(Entries(accounts), e.value.subject, e.value.firstKey, e.value.secondKey);
        return Err(e.value);
      }
    }
    assert accounts[..|accounts|] == accounts;
    return Ok(m);
  }

  // ---------------------------------------------------------------- agreement

  // Account k is the one whose list names the subject.
  predicate Assigned(accounts: seq<Account>, k: int, subject: string) {
    0 <= k < |accounts| && subject in accounts[k].subjects
  }

  lemma {:induction false} EntryOf(accounts: seq<Account>, k: nat, subject: string) returns (i: nat)
    requires Assigned(accounts, k, subject)
    ensures i < |Entries(accounts)| && Entries(accounts)[i] == Entry(subject, accounts[k])
  {
    var n := |accounts| - 1;
    var before, last := Entries(accounts[..n]), accounts[n];
    if k < n {
      i := EntryOf(accounts[..n], k, subject);
    } else {
      var j :| 0 <= j < |last.subjects| && last.subjects[j] == subject;
      i := |before| + j;
      assert EntriesUpTo(last, |last.subjects|)[j] == Entry(subject, last);
    }
  }

  lemma {:induction false} OwnerOf(accounts: seq<Account>, i: nat) returns (k: nat)
    requires i < |Entries(accounts)|
    ensures Assigned(accounts, k, Entries(accounts)[i].subject) && Entries(accounts)[i].account == accounts[k]
  {
    var n := |accounts| - 1;
    var before := Entries(accounts[..n]);
    if i < |before| {
      k := OwnerOf(accounts[..n], i);
    } else {
      k := n;
    }
  }

  ghost predicate OwnKeys(accounts: seq<Account>) {
    forall i, j :: 0 <= i < j < |accounts| ==> accounts[i].key != accounts[j].key
  }

  // The two indexes give one answer: the account whose list names the subject, or none.
  ghost predicate Agree(accounts: seq<Account>, subjectIndex: map<string, string>, m: BySubject) {
    && (forall k, s :: 0 <= k < |accounts| ==>
          (Assigned(accounts, k, s) <==> AccountBySubject(subjectIndex, s) == Some(accounts[k].key)))
    && (forall k, s :: Assigned(accounts, k, s) ==> Resolve(m, Some(s)) == Ok(CredentialsOf(accounts[k])))
    && (forall s :: AccountBySubject(subjectIndex, s).None? <==> Resolve(m, Some(s)) == Err(ErrNoAccount))
    && (forall s :: (exists k :: Assigned(accounts, k, s)) || Resolve(m, Some(s)) == Err(ErrNoAccount))
    && Resolve(m, None) == Err(ErrNoAccount)
  }

  ghost predicate NamedSubjects(accounts: seq<Account>) {
    forall k, s :: Assigned(accounts, k, s) ==> s != ""
  }

  lemma {:induction false} IndexAnswers(accounts: seq<Account>, subjectIndex: map<string, string>, k: nat, s: string)
    requires OwnKeys(accounts) && Indexes(subjectIndex, Entries(accounts)) && k < |accounts|
    ensures Assigned(accounts, k, s) <==> AccountBySubject(subjectIndex, s) == Some(accounts[k].key)
  {
    if Assigned(accounts, k, s) {
      var i := EntryOf(accounts, k, s);
    }
    if s in subjectIndex && subjectIndex[s] == accounts[k].key {
      var i :| 0 <= i < |Entries(accounts)| && Entries(accounts)[i].subject == s;
      var k' := OwnerOf(accounts, i);
      if k' != k {
        assert false;
      }
    }
  }

  lemma {:induction false} ResolverAnswers(accounts: seq<Account>, m: BySubject, k: nat, s: string)
    requires NamedSubjects(accounts) && Resolves(m, Entries(accounts)) && Assigned(accounts, k, s)
    ensures Resolve(m, Some(s)) == Ok(CredentialsOf(accounts[k]))
  {
    var i := EntryOf(accounts, k, s);
  }

  ghost predicate Entered(es: seq<Entry>, s: string) {
    exists i :: 0 <= i < |es| && es[i].subject == s
  }

  lemma {:induction false} EnteredIffAssigned(accounts: seq<Account>, s: string)
    ensures Entered(Entries(accounts), s) <==> exists k :: Assigned(accounts, k, s)
  {
    if Entered(Entries(accounts), s) {
      var i :| 0 <= i < |Entries(accounts)| && Entries(accounts)[i].subject == s;
      var k := OwnerOf(accounts, i);
    }
    if k :| Assigned(accounts, k, s) {
      var i := EntryOf(accounts, k, s);
    }
  }

  lemma HeldIffEntered(es: seq<Entry>, subjectIndex: map<string, string>, m: BySubject, s: string)
    requires Indexes(subjectIndex, es) && Resolves(m, es)
    ensures s in subjectIndex <==> Entered(es, s)
    ensures s in m <==> Entered(es, s)
  {
  }

  lemma {:induction false} NoAnswer(accounts: seq<Account>, subjectIndex: map<string, string>, m: BySubject, s: string)
    requires NamedSubjects(accounts) && Indexes(subjectIndex, Entries(accounts)) && Resolves(m, Entries(accounts))
    ensures AccountBySubject(subjectIndex, s).None? <==> Resolve(m, Some(s)) == Err(ErrNoAccount)
    ensures (exists k :: Assigned(accounts, k, s)) || Resolve(m, Some(s)) == Err(ErrNoAccount)
  {
    EnteredIffAssigned(accounts, s);
    HeldIffEntered(Entries(accounts), subjectIndex, m, s);
  }

  lemma {:induction false} IndexesAgree(accounts: seq<Account>, subjectIndex: map<string, string>, m: BySubject)
    requires OwnKeys(accounts) && NamedSubjects(accounts)
    requires Indexes(subjectIndex, Entries(accounts)) && Resolves(m, Entries(accounts))
    ensures Agree(accounts, subjectIndex, m)
  {
    forall k, s | 0 <= k < |accounts|
      ensures Assigned(accounts, k, s) <==> AccountBySubject(subjectIndex, s) == Some(accounts[k].key)
    {
      IndexAnswers(accounts, subjectIndex, k, s);
    }
    forall k, s | Assigned(accounts, k, s) ensures Resolve(m, Some(s)) == Ok(CredentialsOf(accounts[k])) {
      ResolverAnswers(accounts, m, k, s);
    }
    forall s
      ensures AccountBySubject(subjectIndex, s).None? <==> Resolve(m, Some(s)) == Err(ErrNoAccount)
      ensures (exists k :: Assigned(accounts, k, s)) || Resolve(m, Some(s)) == Err(ErrNoAccount)
    {
      NoAnswer(accounts, subjectIndex, m, s);
    }
  }

  lemma LoadedSubjectsAreNamed(env: Env, keys: seq<string>)
    ensures NamedSubjects(AccountsOf(env, keys))
  {
    forall k, s | Assigned(AccountsOf(env, keys), k, s) ensures s != "" {
      ListsHoldItems(env(Prefix(keys[k]) + "_SUBJECTS"));
    }
  }

  // In multi mode every environment that loads gives a resolver, and the resolver agrees with
  // the index about every subject.
  lemma {:induction false} MultiAgrees(authMode: AuthMode, allowed: seq<string>, env: Env,
                    l: Result<Loaded, LoadError>, b: Result<BySubject, BuildError>)
    requires Loads(ModeMulti, authMode, allowed, env, l) && l.Ok?
    requires Builds(ModeMulti, l.value.accounts, b)
    ensures b.Ok? && Agree(l.value.accounts, l.value.subjectIndex, b.value)
  {
    var keys := AccountKeys(env);
    var accounts := AccountsOf(env, keys);
    forall i, j | 0 <= i < j < |accounts| ensures accounts[i].key != accounts[j].key {
      assert Prefix(keys[i]) != Prefix(keys[j]);
    }
    LoadedSubjectsAreNamed(env, keys);
    IndexesAgree(accounts, l.value.subjectIndex, b.value);
  }

  predicate NoRepeats(allowed: seq<string>) {
    forall i, j :: 0 <= i < j < |allowed| ==> allowed[i] != allowed[j]
  }

  // In single mode they agree exactly when the allowlist has no repeated entry: the loader takes a
  // repeated entry, the resolver refuses it.
  lemma {:induction false} SingleAgrees(authMode: AuthMode, raw: string, env: Env,
                     l: Result<Loaded, LoadError>, b: Result<BySubject, BuildError>)
    requires Loads(ModeSingle, authMode, Items(Split(raw, ',')), env, l) && l.Ok?
    requires Builds(ModeSingle, l.value.accounts, b)
    ensures b.Ok? <==> NoRepeats(Items(Split(raw, ',')))
    ensures b.Ok? ==> Agree(l.value.accounts, l.value.subjectIndex, b.value)
  {
    var accounts := l.value.accounts;
    OnlyEntries(accounts[0]);
    SingleIffNoRepeats(accounts[0]);
    if b.Ok? {
      ListsHoldItems(raw);
      IndexesAgree(accounts, l.value.subjectIndex, b.value);
    }
  }

  lemma SingleIffNoRepeats(a: Account)
    ensures SingleAssignment(EntriesUpTo(a, |a.subjects|)) <==> NoRepeats(a.subjects)
  {
    var es := EntriesUpTo(a, |a.subjects|);
    assert forall i :: 0 <= i < |es| ==> es[i].subject == a.subjects[i];
    if SingleAssignment(es) {
      forall i, j | 0 <= i < j < |a.subjects| ensures a.subjects[i] != a.subjects[j] {
        assert es[i].subject != es[j].subject;
      }
    }
  }

  // Any environment with a login loads with a repeated allowlist, and no resolver comes of it.
  lemma RepeatedEntryLoadsButDoesNotBuild(env: Env, l: Result<Loaded, LoadError>, b: Result<BySubject, BuildError>)
    requires env("FILEEE_USERNAME") != "" && env("FILEEE_PASSWORD") != ""
    requires Loads(ModeSingle, AuthOIDC, Items(Split("a,a", ',')), env, l)
    requires l.Ok? ==> Builds(ModeSingle, l.value.accounts, b)
    ensures l.Ok? && b.Err?
  {
    ListTwice();
    SingleAgrees(AuthOIDC, "a,a", env, l, b);
  }

  lemma ListTwice()
    ensures Items(Split("a,a", ',')) == ["a", "a"] && !NoRepeats(["a", "a"])
  {
    var twice := ["a", "a"];
    assert IsItem("a");
    ListRoundTrip(twice);
    assert twice[..1] == ["a"] && "a" + "," + "a" == "a,a";
    assert twice[0] == twice[1];
  }

  // ---------------------------------------------------------------- whose variables

  lemma VariablesDiffer(p: string, q: string, x: string, y: string)
    requires x in SUFFIXES && y in SUFFIXES && p + x == q + y
    ensures p == q && x == y
  {
    var v := p + x;
    assert x[|x| - 1] == v[|v| - 1] == y[|y| - 1] && x[|x| - 3] == v[|v| - 3] == y[|y| - 3];
    assert x == y;
    assert p == v[..|p|] && q == v[..|q|];
  }

  // Accounts that load together never read the same variable.
  lemma AccountsReadTheirOwnVariables(authMode: AuthMode, env: Env, i: nat, j: nat, x: string, y: string)
    requires Acceptable(ModeMulti, authMode, env) && i < j < |AccountKeys(env)|
    requires x in SUFFIXES && y in SUFFIXES
    ensures Prefix(AccountKeys(env)[i]) + x != Prefix(AccountKeys(env)[j]) + y
  {
    if Prefix(AccountKeys(env)[i]) + x == Prefix(AccountKeys(env)[j]) + y {
      VariablesDiffer(Prefix(AccountKeys(env)[i]), Prefix(AccountKeys(env)[j]), x, y);
    }
  }

  // Two proper keys read the same variables exactly when they differ at most in '-' against '_'.
  lemma PrefixesClashExactly(a: string, b: string)
    requires IsKey(a) && IsKey(b)
    ensures Prefix(a) == Prefix(b) <==>
            |a| == |b| && forall i :: 0 <= i < |a| ==> a[i] == b[i] || (a[i] in "-_" && b[i] in "-_")
  {
    var f := "FILEEE_ACCOUNT_";
    assert Prefix(a)[|f|..] == Variable(a) && Prefix(b)[|f|..] == Variable(b);
    assert Prefix(a) == Prefix(b) <==> Variable(a) == Variable(b);
    if Variable(a) == Variable(b) {
      forall i | 0 <= i < |a| ensures a[i] == b[i] || (a[i] in "-_" && b[i] in "-_") {
        assert Variable(a)[i] == VariableChar(a[i]) && Variable(b)[i] == VariableChar(b[i]);
        assert IsKeyChar(a[i]) && IsKeyChar(b[i]);
      }
    }
  }

  // ---------------------------------------------------------------- from the environment to the caller

  // v is key as it stands in a variable's name: letters in capitals, hyphens as underscores.
  predicate NameOf(v: string, key: string) {
    |v| == |key| && forall i :: 0 <= i < |key| ==> StandsFor(v[i], key[i])
  }

  predicate StandsFor(x: char, c: char) {
    || ('a' <= c <= 'z' && 'A' <= x <= 'Z' && c as int - x as int == 32)
    || ('0' <= c <= '9' && x == c)
    || (c in "-_" && x == '_')
  }

  lemma NameIsVariable(v: string, key: string)
    requires IsKey(key)
    ensures NameOf(v, key) <==> v == Variable(key)
  {
    assert forall i :: 0 <= i < |key| ==> IsKeyChar(key[i]) && StandsFor(Variable(key)[i], key[i]);
    if NameOf(v, key) {
      forall i | 0 <= i < |key| ensures v[i] == Variable(key)[i] {
        assert StandsFor(v[i], key[i]);
      }
    }
  }

  // The variables of one account give these credentials.
  predicate GivenBy(env: Env, v: string, creds: Credentials) {
    && creds.username == env("FILEEE_ACCOUNT_" + v + "_USERNAME")
    && creds.password == env("FILEEE_ACCOUNT_" + v + "_PASSWORD")
    && creds.totpSeed == env("FILEEE_ACCOUNT_" + v + "_TOTP_SEED")
  }

  predicate ListedIn(env: Env, variable: string, subject: string) {
    subject in Items(Split(env(variable), ','))
  }

  // Account n's key stands in v, and v's list names the subject.
  predicate Grants(env: Env, n: nat, v: string, subject: string) {
    && n < |AccountKeys(env)| && NameOf(v, AccountKeys(env)[n])
    && ListedIn(env, "FILEEE_ACCOUNT_" + v + "_SUBJECTS", subject)
  }

  // In multi mode a subject is given the credentials, by name, of the account whose own list names it.
  lemma MultiGivesOwnCredentials(authMode: AuthMode, allowed: seq<string>, env: Env, l: Result<Loaded, LoadError>,
                                 b: Result<BySubject, BuildError>, n: nat, v: string, subject: string)
    requires Loads(ModeMulti, authMode, allowed, env, l) && l.Ok?
    requires Builds(ModeMulti, l.value.accounts, b) && Grants(env, n, v, subject)
    ensures b.Ok? && Resolve(b.value, Some(subject)).Ok? && GivenBy(env, v, Resolve(b.value, Some(subject)).value)
    ensures AccountBySubject(l.value.subjectIndex, subject) == Some(AccountKeys(env)[n])
  {
    var key := AccountKeys(env)[n];
    MultiAgrees(authMode, allowed, env, l, b);
    assert GoodKey(env, key);
    NameIsVariable(v, key);
    assert Assigned(l.value.accounts, n, subject);
  }

  // And nobody else is given any.
  lemma MultiGivesNothingElse(authMode: AuthMode, allowed: seq<string>, env: Env, l: Result<Loaded, LoadError>,
                              b: Result<BySubject, BuildError>, subject: string) returns (n: nat, v: string)
    requires Loads(ModeMulti, authMode, allowed, env, l) && l.Ok?
    requires Builds(ModeMulti, l.value.accounts, b) && b.Ok? && Resolve(b.value, Some(subject)).Ok?
    ensures Grants(env, n, v, subject) && GivenBy(env, v, Resolve(b.value, Some(subject)).value)
  {
    MultiAgrees(authMode, allowed, env, l, b);
    var k :| Assigned(l.value.accounts, k, subject);
    n, v := k, Variable(AccountKeys(env)[k]);
    assert GoodKey(env, AccountKeys(env)[k]);
    NameIsVariable(v, AccountKeys(env)[k]);
  }

  // In single mode the subjects of the allowlist, and no others, are given the one login.
  lemma SingleGivesTheLogin(authMode: AuthMode, raw: string, env: Env, l: Result<Loaded, LoadError>,
                            b: Result<BySubject, BuildError>, subject: string)
    requires Loads(ModeSingle, authMode, Items(Split(raw, ',')), env, l) && l.Ok?
    requires Builds(ModeSingle, l.value.accounts, b) && b.Ok?
    ensures
      var r := Resolve(b.value, Some(subject));
      && (r.Ok? <==> subject in Items(Split(raw, ',')))
      && (r.Ok? ==> r.value.username == env("FILEEE_USERNAME") && r.value.password == env("FILEEE_PASSWORD")
                    && r.value.totpSeed == env("FILEEE_TOTP_SEED"))
  {
    SingleAgrees(authMode, raw, env, l, b);
    assert Assigned(l.value.accounts, 0, subject) <==> subject in Items(Split(raw, ','));
  }

  // ---------------------------------------------------------------- what is accepted

  // No subject is in two accounts' lists, or twice in one.
  ghost predicate OneOwner(accounts: seq<Account>) {
    && (forall k :: 0 <= k < |accounts| ==> NoRepeats(accounts[k].subjects))
    && (forall i, j, s :: 0 <= i < j < |accounts| && Assigned(accounts, i, s) ==> !Assigned(accounts, j, s))
  }

  lemma SingleInSum(x: seq<Entry>, y: seq<Entry>)
    ensures SingleAssignment(x + y) <==>
            SingleAssignment(x) && SingleAssignment(y) && forall s :: Entered(x, s) ==> !Entered(y, s)
  {
    var all := x + y;
    if SingleAssignment(x) && SingleAssignment(y) && forall s :: Entered(x, s) ==> !Entered(y, s) {
      forall i, j | 0 <= i < j < |all| ensures all[i].subject != all[j].subject {
        if i < |x| <= j {
          assert Entered(x, x[i].subject) && y[j - |x|] == all[j];
        } else if |x| <= i {
          assert all[i] == y[i - |x|] && all[j] == y[j - |x|];
        }
      }
    }
    if SingleAssignment(all) {
      forall i, j | 0 <= i < j < |x| ensures x[i].subject != x[j].subject {
        assert all[i] == x[i] && all[j] == x[j];
      }
      forall i, j | 0 <= i < j < |y| ensures y[i].subject != y[j].subject {
        assert all[|x| + i] == y[i] && all[|x| + j] == y[j];
      }
      forall i, j | 0 <= i < |x| && 0 <= j < |y| ensures x[i].subject != y[j].subject {
        assert all[i] == x[i] && all[|x| + j] == y[j];
      }
    }
  }

  lemma {:induction false} OneOwnerExactly(accounts: seq<Account>)
    ensures SingleAssignment(Entries(accounts)) <==> OneOwner(accounts)
  {
    if accounts != [] {
      var n := |accounts| - 1;
      var before, last := accounts[..n], accounts[n];
      var es := EntriesUpTo(last, |last.subjects|);
      OneOwnerExactly(before);
      SingleInSum(Entries(before), es);
      SingleIffNoRepeats(last);
      forall s ensures Entered(Entries(before), s) <==> exists k :: Assigned(before, k, s) {
        EnteredIffAssigned(before, s);
      }
      forall s ensures Entered(es, s) <==> Assigned(accounts, n, s) {
        OwnEntries(last, s);
      }
      OwnersMore(accounts, n);
    }
  }

  lemma OwnEntries(a: Account, s: string)
    ensures Entered(EntriesUpTo(a, |a.subjects|), s) <==> s in a.subjects
  {
    var es := EntriesUpTo(a, |a.subjects|);
    if s in a.subjects {
      var i :| 0 <= i < |a.subjects| && a.subjects[i] == s;
      assert es[i].subject == s;
    }
  }

  lemma OwnersMore(accounts: seq<Account>, n: nat)
    requires |accounts| == n + 1
    ensures OneOwner(accounts) <==>
            && OneOwner(accounts[..n]) && NoRepeats(accounts[n].subjects)
            && forall s :: (exists k :: Assigned(accounts[..n], k, s)) ==> !Assigned(accounts, n, s)
  {
    var before := accounts[..n];
    assert forall k, s :: 0 <= k < n ==> (Assigned(before, k, s) <==> Assigned(accounts, k, s));
    if OneOwner(accounts) {
      forall k | 0 <= k < n ensures NoRepeats(before[k].subjects) {
        assert before[k] == accounts[k];
      }
    }
    if OneOwner(before) && NoRepeats(accounts[n].subjects) {
      forall k | 0 <= k < |accounts| ensures NoRepeats(accounts[k].subjects) {
        assert k < n ==> before[k] == accounts[k];
      }
    }
  }

  // Two keys are written alike but for hyphens and underscores.
  predicate AlikeInNames(a: string, b: string) {
    |a| == |b| && forall i :: 0 <= i < |a| ==> a[i] == b[i] || (a[i] in "-_" && b[i] in "-_")
  }

  // A key of 1 to 32 characters from a-z, 0-9, '_' and '-', with a user name and a password.
  ghost predicate UsableKey(env: Env, key: string) {
    && 1 <= |key| <= 32
    && (forall i :: 0 <= i < |key| ==> 'a' <= key[i] <= 'z' || '0' <= key[i] <= '9' || key[i] in "-_")
    && forall v :: NameOf(v, key) ==>
                     env("FILEEE_ACCOUNT_" + v + "_USERNAME") != "" && env("FILEEE_ACCOUNT_" + v + "_PASSWORD") != ""
  }

  lemma UsableExactly(env: Env, key: string)
    ensures GoodKey(env, key) <==> UsableKey(env, key)
  {
    assert forall i :: 0 <= i < |key| ==>
        (IsKeyChar(key[i]) <==> 'a' <= key[i] <= 'z' || '0' <= key[i] <= '9' || key[i] in "-_");
    if IsKey(key) {
      NameIsVariable(Variable(key), key);
      forall v | NameOf(v, key) ensures v == Variable(key) {
        NameIsVariable(v, key);
      }
    }
  }

  // Multi mode loads exactly if it is not combined with a static token, there are accounts, every key
  // is usable, no two are alike in names, and no subject has two places.
  lemma {:induction false} MultiLoadsExactly(authMode: AuthMode, allowed: seq<string>, env: Env,
                                             l: Result<Loaded, LoadError>)
    requires Loads(ModeMulti, authMode, allowed, env, l)
    ensures
      var keys := AccountKeys(env);
      l.Ok? <==>
        && authMode != AuthToken && keys != []
        && (forall n :: 0 <= n < |keys| ==> UsableKey(env, keys[n]))
        && (forall i, j :: 0 <= i < j < |keys| ==> !AlikeInNames(keys[i], keys[j]))
        && OneOwner(AccountsOf(env, keys))
  {
    var keys := AccountKeys(env);
    forall n | 0 <= n < |keys| ensures GoodKey(env, keys[n]) <==> UsableKey(env, keys[n]) {
      UsableExactly(env, keys[n]);
    }
    OneOwnerExactly(AccountsOf(env, keys));
    if forall n :: 0 <= n < |keys| ==> GoodKey(env, keys[n]) {
      forall i, j | 0 <= i < j < |keys| ensures Prefix(keys[i]) == Prefix(keys[j]) <==> AlikeInNames(keys[i], keys[j]) {
        PrefixesClashExactly(keys[i], keys[j]);
      }
    }
  }
}
