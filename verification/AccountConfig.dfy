// ladeKonten: the accounts and the subject index, read from the environment.
module AccountConfig {
  import opened Wrappers
  import opened Text
  import opened ConfigLists

  type Env = string -> string

  datatype AuthMode = AuthOIDC | AuthToken | AuthBoth
  datatype AccountMode = ModeSingle | ModeMulti

  datatype Account = Account(key: string, username: string, password: string, totpSeed: string, subjects: seq<string>)

  datatype Loaded = Loaded(accounts: seq<Account>, subjectIndex: map<string, string>)

  datatype LoadError =
    | MissingLogin
    | TokenHasNoSubject
    | NoAccounts
    | DuplicateKey(key: string)
    | BadKey(key: string)
    | PrefixClash(first: string, second: string)
    | MissingCredentials(prefix: string)
    | SubjectClash(subject: string, firstKey: string, secondKey: string)

  const DEFAULT_ACCOUNT_KEY: string := "default"

  // ---------------------------------------------------------------- keys and the variables they read

  predicate IsKeyChar(c: char) {
    'a' <= c <= 'z' || '0' <= c <= '9' || c == '_' || c == '-'
  }

  // ^[a-z0-9_-]{1,32}$
  predicate IsKey(key: string) {
    1 <= |key| <= 32 && forall i :: 0 <= i < |key| ==> IsKeyChar(key[i])
  }

  // '-' read as '_', letters in upper case.
  function VariableChar(c: char): char {
    if c == '-' then '_' else if 'a' <= c <= 'z' then (c as int - 32) as char else c
  }

  function Variable(key: string): string {
    seq(|key|, i requires 0 <= i < |key| => VariableChar(key[i]))
  }

  function Prefix(key: string): string {
    "FILEEE_ACCOUNT_" + Variable(key)
  }

  const SUFFIXES: set<string> := {"_USERNAME", "_PASSWORD", "_TOTP_SEED", "_SUBJECTS"}

  function AccountOf(env: Env, key: string): Account {
    var p := Prefix(key);
    Account(key, env(p + "_USERNAME"), env(p + "_PASSWORD"), env(p + "_TOTP_SEED"),
            Items(Split(env(p + "_SUBJECTS"), ',')))
  }

  function AccountsOf(env: Env, keys: seq<string>): seq<Account> {
    seq(|keys|, i requires 0 <= i < |keys| => AccountOf(env, keys[i]))
  }

  predicate HasCredentials(a: Account) {
    a.username != "" && a.password != ""
  }

  // ---------------------------------------------------------------- who is assigned to what

  datatype Entry = Entry(subject: string, account: Account)

  // The assignments of one account, up to subject n, and of all accounts, in order.
  function EntriesUpTo(a: Account, n: nat): seq<Entry>
    requires n <= |a.subjects|
  {
    seq(n, i requires 0 <= i < n => Entry(a.subjects[i], a))
  }

  function Entries(accounts: seq<Account>): seq<Entry> {
    if accounts == [] then []
    else
      var last := accounts[|accounts| - 1];
      Entries(accounts[..|accounts| - 1]) + EntriesUpTo(last, |last.subjects|)
  }

  // No subject is assigned twice, to two accounts or within one.
  ghost predicate SingleAssignment(es: seq<Entry>) {
    forall i, j :: 0 <= i < j < |es| ==> es[i].subject != es[j].subject
  }

  // The index says exactly what the assignments say.
  ghost predicate Indexes(index: map<string, string>, es: seq<Entry>) {
    && (forall i :: 0 <= i < |es| ==> es[i].subject in index && index[es[i].subject] == es[i].account.key)
    && (forall s :: s in index ==> exists i :: 0 <= i < |es| && es[i].subject == s)
  }

  // ---------------------------------------------------------------- what ladeKonten accepts

  predicate GoodKey(env: Env, key: string) {
    IsKey(key) && HasCredentials(AccountOf(env, key))
  }

  ghost predicate OwnPrefixes(keys: seq<string>) {
    forall i, j :: 0 <= i < j < |keys| ==> Prefix(keys[i]) != Prefix(keys[j])
  }

  ghost predicate GoodKeys(env: Env, keys: seq<string>) {
    (forall i :: 0 <= i < |keys| ==> GoodKey(env, keys[i])) && OwnPrefixes(keys)
  }

  function AccountKeys(env: Env): seq<string> {
    Items(Split(env("FILEEE_ACCOUNTS"), ','))
  }

  ghost predicate Acceptable(accountMode: AccountMode, authMode: AuthMode, env: Env) {
    match accountMode
    case ModeSingle => env("FILEEE_USERNAME") != "" && env("FILEEE_PASSWORD") != ""
    case ModeMulti =>
      && authMode != AuthToken
      && AccountKeys(env) != []
      && GoodKeys(env, AccountKeys(env))
      && SingleAssignment(Entries(AccountsOf(env, AccountKeys(env))))
  }

  function AccountsLoaded(accountMode: AccountMode, allowed: seq<string>, env: Env): seq<Account> {
    match accountMode
    case ModeSingle =>
      [Account(DEFAULT_ACCOUNT_KEY, env("FILEEE_USERNAME"), env("FILEEE_PASSWORD"), env("FILEEE_TOTP_SEED"), allowed)]
    case ModeMulti => AccountsOf(env, AccountKeys(env))
  }

  // An error names what is wrong.
  ghost predicate Justified(e: LoadError, accountMode: AccountMode, authMode: AuthMode, env: Env) {
    var keys := AccountKeys(env);
    match e
    case MissingLogin => accountMode == ModeSingle && (env("FILEEE_USERNAME") == "" || env("FILEEE_PASSWORD") == "")
    case TokenHasNoSubject => accountMode == ModeMulti && authMode == AuthToken
    case NoAccounts => accountMode == ModeMulti && keys == []
    case DuplicateKey(key) => exists i, j :: 0 <= i < j < |keys| && keys[i] == keys[j] == key
    case BadKey(key) => key in keys && !IsKey(key)
    case PrefixClash(first, second) =>
        first != second && first in keys && second in keys && Prefix(first) == Prefix(second)
    case MissingCredentials(prefix) =>
        exists key :: key in keys && Prefix(key) == prefix && !HasCredentials(AccountOf(env, key))
    case SubjectClash(subject, first, second) => Clash(Entries(AccountsOf(env, keys)), subject, first, second)
  }

  // Two assignments of one subject, the first to an account of key first, the second of key second.
  ghost predicate Clash(es: seq<Entry>, subject: string, first: string, second: string) {
    exists i, j :: 0 <= i < j < |es| && es[i].subject == es[j].subject == subject
                   && es[i].account.key == first && es[j].account.key == second
  }

  // What a call of ladeKonten may return.
  ghost predicate Loads(accountMode: AccountMode, authMode: AuthMode, allowed: seq<string>, env: Env,
                        r: Result<Loaded, LoadError>) {
    && (r.Ok? <==> Acceptable(accountMode, authMode, env))
    && (r.Ok? ==> r.value.accounts == AccountsLoaded(accountMode, allowed, env))
    && (r.Ok? ==> Indexes(r.value.subjectIndex, Entries(r.value.accounts)))
    && (r.Err? ==> Justified(r.error, accountMode, authMode, env))
  }

  // ---------------------------------------------------------------- one more account, one more subject

  lemma AccountsOfMore(env: Env, keys: seq<string>, n: nat)
    requires n < |keys|
    ensures AccountsOf(env, keys[..n + 1]) == AccountsOf(env, keys[..n]) + [AccountOf(env, keys[n])]
    ensures Entries(AccountsOf(env, keys[..n + 1])) ==
            Entries(AccountsOf(env, keys[..n]))
            + EntriesUpTo(AccountOf(env, keys[n]), |AccountOf(env, keys[n]).subjects|)
  {
    var more := AccountsOf(env, keys[..n + 1]);
    assert more == AccountsOf(env, keys[..n]) + [AccountOf(env, keys[n])];
    assert more[..|more| - 1] == AccountsOf(env, keys[..n]);
  }

  lemma {:induction false} EntriesPrefix(env: Env, keys: seq<string>, n: nat)
    requires n <= |keys|
    ensures Entries(AccountsOf(env, keys[..n])) <= Entries(AccountsOf(env, keys))
    decreases |keys| - n
  {
    if n == |keys| {
      assert keys[..n] == keys;
    } else {
      EntriesPrefix(env, keys, n + 1);
      AccountsOfMore(env, keys, n);
    }
  }

  lemma NextEntry(es: seq<Entry>, a: Account, n: nat)
    requires n < |a.subjects|
    ensures es + EntriesUpTo(a, n + 1) == es + EntriesUpTo(a, n) + [Entry(a.subjects[n], a)]
    ensures es + EntriesUpTo(a, n + 1) <= es + EntriesUpTo(a, |a.subjects|)
  {
  }

  // A subject that the index does not hold yet extends it by one assignment.
  lemma IndexMore(index: map<string, string>, es: seq<Entry>, e: Entry)
    requires SingleAssignment(es) && Indexes(index, es) && e.subject !in index
    ensures SingleAssignment(es + [e]) && Indexes(index[e.subject := e.account.key], es + [e])
  {
    var more := es + [e];
    var index' := index[e.subject := e.account.key];
    assert more[|es|] == e;
    forall s | s in index' ensures exists i :: 0 <= i < |more| && more[i].subject == s {
      if s != e.subject {
        var i :| 0 <= i < |es| && es[i].subject == s;
        assert more[i].subject == s;
      }
    }
  }

  // One that it holds is assigned twice as soon as it is assigned again.
  lemma IndexClash(index: map<string, string>, es: seq<Entry>, e: Entry, all: seq<Entry>)
    requires Indexes(index, es) && e.subject in index && es + [e] <= all
    ensures Clash(all, e.subject, index[e.subject], e.account.key) && !SingleAssignment(all)
  {
    var i :| 0 <= i < |es| && es[i].subject == e.subject;
    assert all[i] == (es + [e])[i] == es[i] && all[|es|] == (es + [e])[|es|] == e;
  }

  lemma ClashLater(es: seq<Entry>, all: seq<Entry>, subject: string, first: string, second: string)
    requires es <= all && Clash(es, subject, first, second)
    ensures Clash(all, subject, first, second)
  {
    var i, j :| 0 <= i < j < |es| && es[i].subject == es[j].subject == subject
                && es[i].account.key == first && es[j].account.key == second;
    assert all[i] == es[i] && all[j] == es[j];
  }

  lemma ClashIsDouble(es: seq<Entry>, subject: string, first: string, second: string)
    requires Clash(es, subject, first, second)
    ensures !SingleAssignment(es)
  {
  }

  // ---------------------------------------------------------------- the loops

  // The subjects of one account, added to the index that holds the assignments es so far.
  method AssignSubjects(konto: Account, index: map<string, string>, ghost es: seq<Entry>)
    returns (index': map<string, string>, clash: Option<LoadError>)
    requires SingleAssignment(es) && Indexes(index, es)
    ensures clash.None? ==> SingleAssignment(es + EntriesUpTo(konto, |konto.subjects|))
    ensures clash.None? ==> Indexes(index', es + EntriesUpTo(konto, |konto.subjects|))
    ensures clash.Some? ==> clash.value.SubjectClash?
    ensures clash.Some? ==>
              Clash(es + EntriesUpTo(konto, |konto.subjects|), clash.value.subject, clash.value.firstKey,
                      clash.value.secondKey)
  {
    index' := index;
    ghost var sofar := es;
    assert es + EntriesUpTo(konto, 0) == es;
    for n := 0 to |konto.subjects|
      invariant sofar == es + EntriesUpTo(konto, n)
      invariant SingleAssignment(sofar) && Indexes(index', sofar)
    {
      var subject := konto.subjects[n];
      ghost var e := Entry(subject, konto);
      NextEntry(es, konto, n);
      if subject in index' {
        IndexClash(index', sofar, e, es + EntriesUpTo(konto, |konto.subjects|));
        return index', Some(SubjectClash(subject, index'[subject], konto.key));
      }
      IndexMore(index', sofar, e);
      index' := index'[subject := konto.key];
      sofar := sofar + [e];
    }
    return index', None;
  }

  ghost predicate IsSetOf(seen: set<string>, keys: seq<string>) {
    forall key :: key in seen <==> key in keys
  }

  lemma SeenMore(seen: set<string>, keys: seq<string>, n: nat)
    requires n < |keys| && IsSetOf(seen, keys[..n])
    ensures IsSetOf(seen + {keys[n]}, keys[..n + 1])
  {
    assert keys[..n + 1] == keys[..n] + [keys[n]];
  }

  ghost predicate PrefixesOf(prefixes: map<string, string>, keys: seq<string>) {
    && (forall i :: 0 <= i < |keys| ==> Prefix(keys[i]) in prefixes)
    && (forall p :: p in prefixes ==> prefixes[p] in keys && Prefix(prefixes[p]) == p)
  }

  lemma PrefixesMore(prefixes: map<string, string>, keys: seq<string>, n: nat)
    requires n < |keys| && PrefixesOf(prefixes, keys[..n])
    ensures PrefixesOf(prefixes[Prefix(keys[n]) := keys[n]], keys[..n + 1])
  {
    assert keys[..n + 1] == keys[..n] + [keys[n]];
  }

  lemma OwnPrefixesMore(keys: seq<string>, n: nat, prefixes: map<string, string>)
    requires n < |keys| && OwnPrefixes(keys[..n]) && PrefixesOf(prefixes, keys[..n]) && Prefix(keys[n]) !in prefixes
    ensures OwnPrefixes(keys[..n + 1])
  {
    var before, more := keys[..n], keys[..n + 1];
    forall i, j | 0 <= i < j < |more| ensures Prefix(more[i]) != Prefix(more[j]) {
      assert more[i] == before[i];
      if j < n {
        assert more[j] == before[j];
      } else {
        assert Prefix(before[i]) in prefixes && more[j] == keys[n];
      }
    }
  }

  lemma GoodKeysMore(env: Env, keys: seq<string>, n: nat, prefixes: map<string, string>)
    requires n < |keys| && GoodKeys(env, keys[..n]) && PrefixesOf(prefixes, keys[..n])
    requires GoodKey(env, keys[n]) && Prefix(keys[n]) !in prefixes
    ensures GoodKeys(env, keys[..n + 1])
  {
    OwnPrefixesMore(keys, n, prefixes);
    var more := keys[..n + 1];
    forall i | 0 <= i < |more| ensures GoodKey(env, more[i]) {
      assert i < n ==> more[i] == keys[..n][i];
    }
  }

  // The checks of one key against those before it; the first that fails is the error.
  method CheckKey(env: Env, keys: seq<string>, n: nat, seen: set<string>, prefixes: map<string, string>)
    returns (e: Option<LoadError>)
    requires n < |keys| && keys == AccountKeys(env)
    requires IsSetOf(seen, keys[..n]) && PrefixesOf(prefixes, keys[..n])
    ensures e.None? ==> GoodKey(env, keys[n]) && Prefix(keys[n]) !in prefixes
    ensures e.Some? ==> Refuted(env, keys, e.value)
  {
    var key := keys[n];
    if key in seen {
      ghost var i :| 0 <= i < n && keys[..n][i] == key;
      assert keys[i] == keys[n];
      return Some(DuplicateKey(key));
    }
    if !IsKey(key) {
      return Some(BadKey(key));
    }
    var prefix := Prefix(key);
    if prefix in prefixes {
      return Some(PrefixClash(prefixes[prefix], key));
    }
    var konto := AccountOf(env, key);
    if konto.username == "" || konto.password == "" {
      return Some(MissingCredentials(prefix));
    }
    return None;
  }

  // The loop over the keys.
  method LoadAccounts(env: Env, keys: seq<string>) returns (r: Result<Loaded, LoadError>)
    requires keys == AccountKeys(env)
    ensures r.Ok? ==> GoodKeys(env, keys) && r.value.accounts == AccountsOf(env, keys)
    ensures r.Ok? ==> SingleAssignment(Entries(r.value.accounts))
    ensures r.Ok? ==> Indexes(r.value.subjectIndex, Entries(r.value.accounts))
    ensures r.Err? ==> Refuted(env, keys, r.error)
  {
    var seen: set<string> := {};
    var prefixes: map<string, string> := map[];
    var accounts: seq<Account> := [];
    var index: map<string, string> := map[];
    for n := 0 to |keys|
      invariant IsSetOf(seen, keys[..n])
      invariant PrefixesOf(prefixes, keys[..n])
      invariant GoodKeys(env, keys[..n])
      invariant accounts == AccountsOf(env, keys[..n])
      invariant SingleAssignment(Entries(accounts)) && Indexes(index, Entries(accounts))
    {
      var key := keys[n];
      var wrong := CheckKey(env, keys, n, seen, prefixes);
      if wrong.Some? {
        return Err(wrong.value);
      }
      SeenMore(seen, keys, n);
      PrefixesMore(prefixes, keys, n);
      GoodKeysMore(env, keys, n, prefixes);
      seen := seen + {key};
      prefixes := prefixes[Prefix(key) := key];
      var konto := AccountOf(env, key);
      AccountsOfMore(env, keys, n);
      var clash;
      index, clash := AssignSubjects(konto, index, Entries(accounts));
      if clash.Some? {
        ClashesRefute(env, keys, n, clash.value);
        return Err(clash.value);
      }
      accounts := accounts + [konto];
    }
    assert keys[..|keys|] == keys;
    return Ok(Loaded(accounts, index));
  }

  lemma ClashesRefute(env: Env, keys: seq<string>, n: nat, e: LoadError)
    requires keys == AccountKeys(env) && n < |keys| && e.SubjectClash?
    requires Clash(Entries(AccountsOf(env, keys[..n + 1])), e.subject, e.firstKey, e.secondKey)
    ensures Refuted(env, keys, e)
  {
    EntriesPrefix(env, keys, n + 1);
    ClashLater(Entries(AccountsOf(env, keys[..n + 1])), Entries(AccountsOf(env, keys)), e.subject, e.firstKey,
               e.secondKey);
  }

  // A justified error leaves nothing acceptable.
  ghost predicate Refuted(env: Env, keys: seq<string>, e: LoadError) {
    && (e.DuplicateKey? || e.BadKey? || e.PrefixClash? || e.MissingCredentials? || e.SubjectClash?)
    && Justified(e, ModeMulti, AuthOIDC, env)
  }

  lemma SharedPrefixIsBad(env: Env, keys: seq<string>, i: nat, j: nat)
    requires i < |keys| && j < |keys| && i != j && Prefix(keys[i]) == Prefix(keys[j])
    ensures !GoodKeys(env, keys)
  {
    assert i < j || j < i;
  }

  lemma RefutedIsUnacceptable(env: Env, keys: seq<string>, e: LoadError, authMode: AuthMode)
    requires keys == AccountKeys(env) && Refuted(env, keys, e)
    ensures !Acceptable(ModeMulti, authMode, env) && Justified(e, ModeMulti, authMode, env)
  {
    match e
    case DuplicateKey(key) =>
      var i, j :| 0 <= i < j < |keys| && keys[i] == keys[j] == key;
      SharedPrefixIsBad(env, keys, i, j);
    case BadKey(key) =>
    case PrefixClash(first, second) =>
      var i :| 0 <= i < |keys| && keys[i] == first;
      var j :| 0 <= j < |keys| && keys[j] == second;
      SharedPrefixIsBad(env, keys, i, j);
    case MissingCredentials(prefix) =>
    case SubjectClash(subject, first, second) =>
      ClashIsDouble(Entries(AccountsOf(env, keys)), subject, first, second);
  }

  method LadeKonten(accountMode: AccountMode, authMode: AuthMode, allowed: seq<string>, env: Env)
    returns (r: Result<Loaded, LoadError>)
    ensures Loads(accountMode, authMode, allowed, env, r)
  {
    if accountMode == ModeSingle {
      var user, pass := env("FILEEE_USERNAME"), env("FILEEE_PASSWORD");
      if user == "" || pass == "" {
        return Err(MissingLogin);
      }
      var konto := Account(DEFAULT_ACCOUNT_KEY, user, pass, env("FILEEE_TOTP_SEED"), allowed);
      var index: map<string, string> := map[];
      for n := 0 to |allowed|
        invariant forall s :: s in index <==> s in allowed[..n]
        invariant forall s :: s in index ==> index[s] == DEFAULT_ACCOUNT_KEY
      {
        index := index[allowed[n] := DEFAULT_ACCOUNT_KEY];
      }
      assert allowed[..|allowed|] == allowed;
      OneAccountIndexed(konto, index);
      return Ok(Loaded([konto], index));
    }
    if authMode == AuthToken {
      return Err(TokenHasNoSubject);
    }
    var keys := SplitListe(env("FILEEE_ACCOUNTS"));
    if |keys| == 0 {
      return Err(NoAccounts);
    }
    r := LoadAccounts(env, keys);
    if r.Err? {
      RefutedIsUnacceptable(env, keys, r.error, authMode);
    }
  }

  lemma OnlyEntries(a: Account)
    ensures Entries([a]) == EntriesUpTo(a, |a.subjects|)
  {
    assert [a][..0] == [];
  }

  lemma OneAccountIndexed(a: Account, index: map<string, string>)
    requires forall s :: s in index <==> s in a.subjects
    requires forall s :: s in index ==> index[s] == a.key
    ensures Indexes(index, Entries([a]))
  {
    OnlyEntries(a);
    var es := EntriesUpTo(a, |a.subjects|);
    forall s | s in index ensures exists i :: 0 <= i < |es| && es[i].subject == s {
      var i :| 0 <= i < |a.subjects| && a.subjects[i] == s;
      assert es[i].subject == s;
    }
  }
}
