// diag.redactingHandler: every attribute is masked before it reaches the base log handler.
module Redaction {
  import opened Wrappers
  import opened Text

  // slog.Attr and slog.Value; Deferred is a LogValuer, whose value is computed when resolved.
  datatype Attr = Attr(key: string, value: Value)
  datatype Value = Scalar(text: string) | Group(attrs: seq<Attr>) | Deferred(logged: Value)

  const FORBIDDEN_KEY_FRAGMENTS: seq<string> := [
    "password", "secret", "totp", "seed", "token", "authorization", "apikey", "api_key", "credential", "cookie"]

  const REDACTED_VALUE: string := "***"

  // unicode.ToLower, exact on every character whose lower case is an ASCII letter; the others
  // stay outside ASCII and so never take part in a fragment.
  function LowerChar(c: char): char {
    if 'A' <= c <= 'Z' then (c as int + 32) as char
    else if c == '\U{212A}' then 'k'
    else if c == '\U{0130}' then 'i'
    else c
  }

  function ToLower(s: string): string {
    seq(|s|, i requires 0 <= i < |s| => LowerChar(s[i]))
  }

  predicate IsForbiddenKey(key: string) {
    exists i :: 0 <= i < |FORBIDDEN_KEY_FRAGMENTS| && FirstIndex(ToLower(key), FORBIDDEN_KEY_FRAGMENTS[i]).Some?
  }

  // Character c of a key stands for character l of a fragment: itself, the capital letter, and
  // beyond ASCII the Kelvin sign for k and the dotted capital I for i.
  predicate StandsFor(c: char, l: char) {
    || c == l
    || ('A' <= c <= 'Z' && c as int + 32 == l as int)
    || (c == '\U{212A}' && l == 'k')
    || (c == '\U{0130}' && l == 'i')
  }

  // The fragment is spelt out at position p of the key, in any mixture of cases.
  predicate SpeltAt(key: string, fragment: string, p: nat) {
    p + |fragment| <= |key| && forall i :: 0 <= i < |fragment| ==> StandsFor(key[p + i], fragment[i])
  }

  predicate Lower(s: string) {
    forall i :: 0 <= i < |s| ==> 'a' <= s[i] <= 'z' || s[i] == '_'
  }

  lemma FragmentsAreLower(fragment: string)
    requires fragment in FORBIDDEN_KEY_FRAGMENTS
    ensures Lower(fragment)
  {
    assert Lower("password") && Lower("secret") && Lower("totp") && Lower("seed") && Lower("token");
    assert Lower("authorization") && Lower("apikey") && Lower("api_key") && Lower("credential") && Lower("cookie");
  }

  lemma SpeltIsFound(key: string, fragment: string, p: nat)
    requires Lower(fragment)
    ensures OccursAt(ToLower(key), fragment, p) <==> SpeltAt(key, fragment, p)
  {
    if p + |fragment| <= |key| {
      var part := ToLower(key)[p..p + |fragment|];
      assert forall i :: 0 <= i < |fragment| ==> part[i] == LowerChar(key[p + i]);
      assert part == fragment <==> forall i :: 0 <= i < |fragment| ==> LowerChar(key[p + i]) == fragment[i];
    }
  }

  // A key is forbidden exactly if one of the fragments is spelt out somewhere in it.
  lemma ForbiddenExactly(key: string)
    ensures IsForbiddenKey(key) <==>
            exists fragment, p: nat :: fragment in FORBIDDEN_KEY_FRAGMENTS && SpeltAt(key, fragment, p)
  {
    if i :| 0 <= i < |FORBIDDEN_KEY_FRAGMENTS| && FirstIndex(ToLower(key), FORBIDDEN_KEY_FRAGMENTS[i]).Some? {
      FragmentsAreLower(FORBIDDEN_KEY_FRAGMENTS[i]);
      SpeltIsFound(key, FORBIDDEN_KEY_FRAGMENTS[i], FirstIndex(ToLower(key), FORBIDDEN_KEY_FRAGMENTS[i]).value);
    }
    if fragment, p: nat :| fragment in FORBIDDEN_KEY_FRAGMENTS && SpeltAt(key, fragment, p) {
      FragmentsAreLower(fragment);
      SpeltIsFound(key, fragment, p);
      var i :| 0 <= i < |FORBIDDEN_KEY_FRAGMENTS| && FORBIDDEN_KEY_FRAGMENTS[i] == fragment;
      assert FirstIndex(ToLower(key), FORBIDDEN_KEY_FRAGMENTS[i]).Some?;
    }
  }

  // Whatever stands before and after it.
  lemma FragmentAnywhere(before: string, spelling: string, after: string, fragment: string)
    requires fragment in FORBIDDEN_KEY_FRAGMENTS && SpeltAt(spelling, fragment, 0)
    ensures IsForbiddenKey(before + spelling + after)
  {
    var key := before + spelling + after;
    forall i | 0 <= i < |fragment| ensures StandsFor(key[|before| + i], fragment[i]) {
      assert StandsFor(spelling[0 + i], fragment[i]);
    }
    assert SpeltAt(key, fragment, |before|);
    ForbiddenExactly(key);
  }

  function Resolve(v: Value): (r: Value)
    ensures !r.Deferred? && (r == v || r < v)
  {
    if v.Deferred? then Resolve(v.logged) else v
  }

  predicate IsEmptyGroup(v: Value) {
    v.Group? && v.attrs == []
  }

  // Empty groups are dropped when a group or a record is put together.
  function Kept(attrs: seq<Attr>): seq<Attr> {
    if attrs == [] then []
    else (if IsEmptyGroup(attrs[0].value) then [] else [attrs[0]]) + Kept(attrs[1..])
  }

  function Redact(a: Attr): Attr
    decreases a, 0
  {
    var v := Resolve(a.value);
    if IsForbiddenKey(a.key) then Attr(a.key, Scalar(REDACTED_VALUE))
    else if !v.Group? then Attr(a.key, v)
    else Attr(a.key, Group(Kept(RedactAll(v.attrs))))
  }

  function RedactAll(attrs: seq<Attr>): (r: seq<Attr>)
    ensures |r| == |attrs|
    decreases attrs, 1
  {
    if attrs == [] then [] else [Redact(attrs[0])] + RedactAll(attrs[1..])
  }

  // ---------------------------------------------------------------- handlers

  // How a logger was derived, and what it is asked to log.
  datatype Step = With(attrs: seq<Attr>) | WithGroup(name: string)
  datatype Record = Record(level: string, message: string, attrs: seq<Attr>)

  // What the base handler is given in place of each.
  function PassStep(s: Step): Step {
    match s
    case With(attrs) => With(RedactAll(attrs))
    case WithGroup(name) => WithGroup(name)
  }

  function PassChain(chain: seq<Step>): seq<Step> {
    if chain == [] then [] else [PassStep(chain[0])] + PassChain(chain[1..])
  }

  function PassRecord(r: Record): Record {
    Record(r.level, r.message, Kept(RedactAll(r.attrs)))
  }

  // ---------------------------------------------------------------- noninterference

  // Nothing at all to show: groups within groups, with neither a value nor a forbidden key inside.
  predicate Hollow(a: Attr)
    decreases a, 0
  {
    !IsForbiddenKey(a.key) && Resolve(a.value).Group? && AllHollow(Resolve(a.value).attrs)
  }

  predicate AllHollow(attrs: seq<Attr>)
    decreases attrs, 1
  {
    attrs != [] ==> Hollow(attrs[0]) && AllHollow(attrs[1..])
  }

  // Equal up to the values at or below forbidden keys, and to hollow members of groups.
  ghost predicate LowEq(a: Attr, b: Attr)
    decreases a, b, 0
  {
    var v, w := Resolve(a.value), Resolve(b.value);
    && a.key == b.key
    && (IsForbiddenKey(a.key) || (if v.Group? && w.Group? then LowEqMembers(v.attrs, w.attrs) else v == w))
  }

  ghost predicate LowEqMembers(xs: seq<Attr>, ys: seq<Attr>)
    decreases xs, ys, 1
  {
    if xs != [] && Hollow(xs[0]) then LowEqMembers(xs[1..], ys)
    else if ys != [] && Hollow(ys[0]) then LowEqMembers(xs, ys[1..])
    else if xs == [] || ys == [] then xs == ys
    else LowEq(xs[0], ys[0]) && LowEqMembers(xs[1..], ys[1..])
  }

  ghost predicate LowEqSteps(xs: seq<Step>, ys: seq<Step>) {
    |xs| == |ys| && forall i :: 0 <= i < |xs| ==> LowEqStep(xs[i], ys[i])
  }

  ghost predicate LowEqStep(x: Step, y: Step) {
    if x.With? && y.With? then
      |x.attrs| == |y.attrs| && forall i :: 0 <= i < |x.attrs| ==> LowEq(x.attrs[i], y.attrs[i])
    else x == y
  }

  ghost predicate LowEqRecord(r: Record, r': Record) {
    r.level == r'.level && r.message == r'.message && LowEqMembers(r.attrs, r'.attrs)
  }

  lemma {:induction false} HollowLeavesNothing(a: Attr)
    ensures Hollow(a) <==> IsEmptyGroup(Redact(a).value)
    decreases a, 0
  {
    var v := Resolve(a.value);
    if v.Group? {
      AllHollowLeaveNothing(v.attrs);
    }
  }

  lemma {:induction false} AllHollowLeaveNothing(attrs: seq<Attr>)
    ensures AllHollow(attrs) <==> Kept(RedactAll(attrs)) == []
    decreases attrs, 1
  {
    if attrs != [] {
      HollowLeavesNothing(attrs[0]);
      AllHollowLeaveNothing(attrs[1..]);
      KeptSplits(attrs);
    }
  }

  lemma {:induction false} KeptSplits(attrs: seq<Attr>)
    requires attrs != []
    ensures Kept(RedactAll(attrs)) ==
            (if Hollow(attrs[0]) then [] else [Redact(attrs[0])]) + Kept(RedactAll(attrs[1..]))
    decreases attrs, 0
  {
    HollowLeavesNothing(attrs[0]);
    assert RedactAll(attrs)[1..] == RedactAll(attrs[1..]);
  }

  lemma {:induction false} RedactIsLow(a: Attr, b: Attr)
    ensures Redact(a) == Redact(b) <==> LowEq(a, b)
    decreases a, b, 0
  {
    var v, w := Resolve(a.value), Resolve(b.value);
    if a.key == b.key && !IsForbiddenKey(a.key) && v.Group? && w.Group? {
      MembersAreLow(v.attrs, w.attrs);
    }
  }

  lemma {:induction false} MembersAreLow(xs: seq<Attr>, ys: seq<Attr>)
    ensures Kept(RedactAll(xs)) == Kept(RedactAll(ys)) <==> LowEqMembers(xs, ys)
    decreases xs, ys, 1
  {
    if xs != [] {
      KeptSplits(xs);
    }
    if ys != [] {
      KeptSplits(ys);
    }
    if xs != [] && Hollow(xs[0]) {
      MembersAreLow(xs[1..], ys);
    } else if ys != [] && Hollow(ys[0]) {
      MembersAreLow(xs, ys[1..]);
    } else if xs != [] && ys != [] {
      RedactIsLow(xs[0], ys[0]);
      MembersAreLow(xs[1..], ys[1..]);
      var x, y := Kept(RedactAll(xs)), Kept(RedactAll(ys));
      assert x[0] == Redact(xs[0]) && y[0] == Redact(ys[0]);
      assert x[1..] == Kept(RedactAll(xs[1..])) && y[1..] == Kept(RedactAll(ys[1..]));
    }
  }

  lemma {:induction false} RedactAllAt(attrs: seq<Attr>, i: nat)
    requires i < |attrs|
    ensures RedactAll(attrs)[i] == Redact(attrs[i])
  {
    if i > 0 {
      RedactAllAt(attrs[1..], i - 1);
    }
  }

  lemma StepIsLow(x: Step, y: Step)
    ensures PassStep(x) == PassStep(y) <==> LowEqStep(x, y)
  {
    if x.With? && y.With? && |x.attrs| == |y.attrs| {
      forall i | 0 <= i < |x.attrs|
        ensures RedactAll(x.attrs)[i] == RedactAll(y.attrs)[i] <==> LowEq(x.attrs[i], y.attrs[i])
      {
        RedactAllAt(x.attrs, i);
        RedactAllAt(y.attrs, i);
        RedactIsLow(x.attrs[i], y.attrs[i]);
      }
    }
  }

  lemma {:induction false} ChainIsLow(xs: seq<Step>, ys: seq<Step>)
    ensures PassChain(xs) == PassChain(ys) <==> LowEqSteps(xs, ys)
  {
    if xs != [] && ys != [] {
      StepIsLow(xs[0], ys[0]);
      ChainIsLow(xs[1..], ys[1..]);
      assert PassChain(xs)[0] == PassStep(xs[0]) && PassChain(xs)[1..] == PassChain(xs[1..]);
      assert PassChain(ys)[0] == PassStep(ys[0]) && PassChain(ys)[1..] == PassChain(ys[1..]);
      assert |xs| == |ys| ==> forall i :: 0 < i < |xs| ==> xs[i] == xs[1..][i - 1] && ys[i] == ys[1..][i - 1];
    }
  }

  // The base handler receives the same input for two loggers and records exactly when these differ
  // only at or below forbidden keys (and in hollow groups).
  lemma {:induction false} Noninterference(chain: seq<Step>, chain': seq<Step>, r: Record, r': Record)
    ensures PassChain(chain) == PassChain(chain') && PassRecord(r) == PassRecord(r')
            <==> LowEqSteps(chain, chain') && LowEqRecord(r, r')
  {
    ChainIsLow(chain, chain');
    MembersAreLow(r.attrs, r'.attrs);
  }

  // ---------------------------------------------------------------- what arrives

  // A value in a log line: the groups opened by WithGroup, the attribute keys below them, the text.
  datatype Leaf = Leaf(groups: seq<string>, path: seq<string>, text: string)

  // The leaves of an attribute in order, below an open path.
  function Leaves(groups: seq<string>, path: seq<string>, a: Attr): seq<Leaf>
    decreases a, 0
  {
    var v := Resolve(a.value);
    if v.Group? then AllLeaves(groups, path + [a.key], v.attrs) else [Leaf(groups, path + [a.key], v.text)]
  }

  function AllLeaves(groups: seq<string>, path: seq<string>, attrs: seq<Attr>): seq<Leaf>
    decreases attrs, 1
  {
    if attrs == [] then [] else Leaves(groups, path, attrs[0]) + AllLeaves(groups, path, attrs[1..])
  }

  // The log line of a record handed to a handler derived by these steps.
  function Line(groups: seq<string>, chain: seq<Step>, r: Record): seq<Leaf>
    decreases |chain|
  {
    if chain == [] then AllLeaves(groups, [], r.attrs)
    else match chain[0]
      case With(attrs) => AllLeaves(groups, [], attrs) + Line(groups, chain[1..], r)
      case WithGroup(name) => Line(groups + [name], chain[1..], r)
  }

  // No attribute key on the path is forbidden; the names of opened groups are not looked at.
  predicate Clean(leaf: Leaf) {
    !Dirty(leaf.path)
  }

  predicate Dirty(path: seq<string>) {
    exists i :: 0 <= i < |path| && IsForbiddenKey(path[i])
  }

  // Withheld at the first forbidden key.
  predicate Masked(leaf: Leaf) {
    && leaf.text == REDACTED_VALUE
    && leaf.path != []
    && IsForbiddenKey(leaf.path[|leaf.path| - 1])
    && !Dirty(leaf.path[..|leaf.path| - 1])
  }

  function Filter<T>(s: seq<T>, keep: T -> bool): seq<T> {
    if s == [] then [] else (if keep(s[0]) then [s[0]] else []) + Filter(s[1..], keep)
  }

  function CleanOnly(leaves: seq<Leaf>): seq<Leaf> {
    Filter(leaves, Clean)
  }

  predicate SafeLine(leaves: seq<Leaf>) {
    forall leaf :: leaf in leaves ==> Clean(leaf) || Masked(leaf)
  }

  lemma {:induction false} FilterOfSum<T>(x: seq<T>, y: seq<T>, keep: T -> bool)
    ensures Filter(x + y, keep) == Filter(x, keep) + Filter(y, keep)
  {
    if x == [] {
      assert x + y == y;
    } else {
      FilterOfSum(x[1..], y, keep);
      assert (x + y)[0] == x[0] && (x + y)[1..] == x[1..] + y;
    }
  }

  lemma DirtyBelow(path: seq<string>, key: string)
    ensures Dirty(path + [key]) <==> Dirty(path) || IsForbiddenKey(key)
  {
    assert (path + [key])[|path|] == key;
    assert forall i :: 0 <= i < |path| ==> (path + [key])[i] == path[i];
  }

  lemma {:induction false} NothingCleanBelow(groups: seq<string>, path: seq<string>, attrs: seq<Attr>)
    requires Dirty(path)
    ensures CleanOnly(AllLeaves(groups, path, attrs)) == []
    decreases attrs, 1
  {
    if attrs != [] {
      NothingCleanIn(groups, path, attrs[0]);
      NothingCleanBelow(groups, path, attrs[1..]);
      FilterOfSum(Leaves(groups, path, attrs[0]), AllLeaves(groups, path, attrs[1..]), Clean);
    }
  }

  lemma {:induction false} NothingCleanIn(groups: seq<string>, path: seq<string>, a: Attr)
    requires Dirty(path) || IsForbiddenKey(a.key)
    ensures CleanOnly(Leaves(groups, path, a)) == []
    decreases a, 0
  {
    DirtyBelow(path, a.key);
    var v := Resolve(a.value);
    if v.Group? {
      NothingCleanBelow(groups, path + [a.key], v.attrs);
    } else {
      var leaf := Leaf(groups, path + [a.key], v.text);
      assert Leaves(groups, path, a) == [leaf] && !Clean(leaf);
      assert Filter([leaf], Clean) == Filter([leaf][1..], Clean);
    }
  }

  lemma {:induction false} KeptHasTheSameLeaves(groups: seq<string>, path: seq<string>, attrs: seq<Attr>)
    ensures AllLeaves(groups, path, Kept(attrs)) == AllLeaves(groups, path, attrs)
  {
    if attrs != [] {
      KeptHasTheSameLeaves(groups, path, attrs[1..]);
      if IsEmptyGroup(attrs[0].value) {
        assert Leaves(groups, path, attrs[0]) == [];
        assert Kept(attrs) == Kept(attrs[1..]);
      } else {
        assert Kept(attrs)[0] == attrs[0] && Kept(attrs)[1..] == Kept(attrs[1..]);
      }
    }
  }

  lemma {:induction false} RedactShows(groups: seq<string>, path: seq<string>, a: Attr)
    requires !Dirty(path)
    ensures CleanOnly(Leaves(groups, path, Redact(a))) == CleanOnly(Leaves(groups, path, a))
    ensures SafeLine(Leaves(groups, path, Redact(a)))
    decreases a, 0
  {
    var v := Resolve(a.value);
    DirtyBelow(path, a.key);
    if IsForbiddenKey(a.key) {
      NothingCleanIn(groups, path, a);
      NothingCleanIn(groups, path, Redact(a));
    } else if v.Group? {
      RedactAllShows(groups, path + [a.key], v.attrs);
      KeptHasTheSameLeaves(groups, path + [a.key], RedactAll(v.attrs));
    }
  }

  lemma {:induction false} RedactAllShows(groups: seq<string>, path: seq<string>, attrs: seq<Attr>)
    requires !Dirty(path)
    ensures CleanOnly(AllLeaves(groups, path, RedactAll(attrs))) == CleanOnly(AllLeaves(groups, path, attrs))
    ensures SafeLine(AllLeaves(groups, path, RedactAll(attrs)))
    decreases attrs, 1
  {
    if attrs != [] {
      RedactShows(groups, path, attrs[0]);
      RedactAllShows(groups, path, attrs[1..]);
      FilterOfSum(Leaves(groups, path, attrs[0]), AllLeaves(groups, path, attrs[1..]), Clean);
      FilterOfSum(Leaves(groups, path, Redact(attrs[0])), AllLeaves(groups, path, RedactAll(attrs[1..])), Clean);
      assert RedactAll(attrs)[1..] == RedactAll(attrs[1..]);
    }
  }

  // Through any chain, the values with no forbidden key on their path arrive unchanged and in
  // order, and whatever else arrives is a mask at the first forbidden key. Level and message arrive
  // as they are.
  lemma {:induction false} LinesAreMaskedExactly(groups: seq<string>, chain: seq<Step>, r: Record)
    ensures CleanOnly(Line(groups, PassChain(chain), PassRecord(r))) == CleanOnly(Line(groups, chain, r))
    ensures SafeLine(Line(groups, PassChain(chain), PassRecord(r)))
    ensures PassRecord(r).level == r.level && PassRecord(r).message == r.message
    decreases |chain|
  {
    if chain == [] {
      RedactAllShows(groups, [], r.attrs);
      KeptHasTheSameLeaves(groups, [], RedactAll(r.attrs));
    } else {
      var rest := PassChain(chain[1..]);
      assert PassChain(chain)[1..] == rest;
      match chain[0]
      case With(attrs) =>
        LinesAreMaskedExactly(groups, chain[1..], r);
        RedactAllShows(groups, [], attrs);
        FilterOfSum(AllLeaves(groups, [], attrs), Line(groups, chain[1..], r), Clean);
        FilterOfSum(AllLeaves(groups, [], RedactAll(attrs)), Line(groups, rest, PassRecord(r)), Clean);
      case WithGroup(name) =>
        LinesAreMaskedExactly(groups + [name], chain[1..], r);
    }
  }
}
