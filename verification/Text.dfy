// The few string operations of Go's strings, unicode, strconv and encoding/hex packages that
// the tool layer relies on.
module Text {
  import opened Wrappers

  type Byte = b: nat | b < 256

  // unicode.IsSpace
  predicate IsSpace(c: char) {
    var n := c as int;
    || 0x09 <= n <= 0x0D || n == 0x20 || n == 0x85 || n == 0xA0 || n == 0x1680 || 0x2000 <= n <= 0x200A
    || n == 0x2028 || n == 0x2029 || n == 0x202F || n == 0x205F || n == 0x3000
  }

  // strings.TrimSpace(s) == ""
  predicate IsBlank(s: string) {
    forall i :: 0 <= i < |s| ==> IsSpace(s[i])
  }

  // strings.Join
  function Join(parts: seq<string>, sep: string): string {
    if |parts| == 0 then "" else if |parts| == 1 then parts[0]
    else Join(parts[..|parts| - 1], sep) + sep + parts[|parts| - 1]
  }

  // strings.Split with a separator of one character.
  function Split(s: string, sep: char): (parts: seq<string>)
    ensures parts != []
  {
    if s == "" then [""]
    else
      var rest := Split(s[1..], sep);
      if s[0] == sep then [""] + rest else [[s[0]] + rest[0]] + rest[1..]
  }

  lemma {:induction false} SplitWithout(s: string, sep: char)
    requires sep !in s
    ensures Split(s, sep) == [s]
  {
    if s != "" {
      SplitWithout(s[1..], sep);
      assert s[0] in s && [s[0]] + s[1..] == s;
    }
  }

  lemma {:induction false} SplitOfSum(s: string, sep: char, t: string)
    requires sep !in t
    ensures Split(s + [sep] + t, sep) == Split(s, sep) + [t]
  {
    if s == "" {
      SplitWithout(t, sep);
      assert ([sep] + t)[1..] == t && s + [sep] + t == [sep] + t;
    } else {
      SplitOfSum(s[1..], sep, t);
      assert (s + [sep] + t)[0] == s[0] && (s + [sep] + t)[1..] == s[1..] + [sep] + t;
    }
  }

  // What was joined with a separator is split into the same parts again.
  lemma {:induction false} SplitOfJoin(parts: seq<string>, sep: char)
    requires parts != [] && forall t :: t in parts ==> sep !in t
    ensures Split(Join(parts, [sep]), sep) == parts
  {
    if |parts| == 1 {
      SplitWithout(parts[0], sep);
    } else {
      var init, t := parts[..|parts| - 1], parts[|parts| - 1];
      SplitOfJoin(init, sep);
      SplitOfSum(Join(init, [sep]), sep, t);
      assert parts == init + [t];
    }
  }

  // The text before the first separator, and the text after it, are determined by the whole.
  lemma FirstPart(a: string, sep: char, x: string, b: string, y: string)
    requires a + [sep] + x == b + [sep] + y && sep !in a && sep !in b
    ensures a == b && x == y
  {
    var whole := a + [sep] + x;
    assert whole[|a|] == sep && whole[|b|] == sep;
    assert a == whole[..|a|] && b == whole[..|b|];
    assert x == whole[|a| + 1..] && y == whole[|b| + 1..];
  }

  lemma SamePrefix(p: string, x: string, y: string)
    requires p + x == p + y
    ensures x == y
  {
    assert x == (p + x)[|p|..] && y == (p + y)[|p|..];
  }

  lemma SameSuffix(x: string, y: string, e: string)
    requires x + e == y + e
    ensures x == y
  {
    assert |x| == |y| && x == (x + e)[..|x|] && y == (y + e)[..|y|];
  }

  predicate OccursAt(s: string, sub: string, i: int) {
    0 <= i <= |s| - |sub| && s[i..i + |sub|] == sub
  }

  ghost predicate Occurs(s: string, sub: string) {
    exists i :: OccursAt(s, sub, i)
  }

  // strings.Index from position i on: the first occurrence, if any.
  function FirstFrom(s: string, sub: string, i: nat): (r: Option<nat>)
    requires i <= |s|
    ensures r.Some? ==> i <= r.value && OccursAt(s, sub, r.value)
    ensures r.Some? ==> forall j :: i <= j < r.value ==> !OccursAt(s, sub, j)
    ensures r.None? ==> forall j :: i <= j ==> !OccursAt(s, sub, j)
    decreases |s| - i
  {
    if OccursAt(s, sub, i) then Some(i)
    else if i == |s| then None
    else FirstFrom(s, sub, i + 1)
  }

  function FirstIndex(s: string, sub: string): Option<nat> {
    FirstFrom(s, sub, 0)
  }

  // The first occurrence is determined by being one, with none before it.
  lemma FirstIndexIs(s: string, sub: string, i: nat)
    requires OccursAt(s, sub, i) && forall j :: 0 <= j < i ==> !OccursAt(s, sub, j)
    ensures FirstIndex(s, sub) == Some(i)
  {
  }

  predicate Avoids(s: string, c: char) {
    c !in s
  }

  const DIGITS: string := "0123456789abcdef"

  // %d
  function Decimal(n: int): (s: string)
    ensures Avoids(s, '<') && s != ""
    decreases if n < 0 then 1 else 0, if n < 0 then -n else n
  {
    if n < 0 then "-" + Decimal(-n)
    else if n < 10 then [DIGITS[n]]
    else Decimal(n / 10) + [DIGITS[n % 10]]
  }

  // The number that decimal digits stand for.
  function Numeral(s: string): int {
    if s == "" then 0 else 10 * Numeral(s[..|s| - 1]) + (s[|s| - 1] as int - '0' as int)
  }

  function Value(s: string): int {
    if s != "" && s[0] == '-' then -Numeral(s[1..]) else Numeral(s)
  }

  lemma DigitOf(n: nat)
    requires n < 10
    ensures DIGITS[n] as int - '0' as int == n && '0' <= DIGITS[n] <= '9'
  {
  }

  predicate AllDigits(s: string) {
    forall i :: 0 <= i < |s| ==> '0' <= s[i] <= '9'
  }

  lemma {:induction false} DecimalDigits(n: nat)
    ensures Numeral(Decimal(n)) == n && AllDigits(Decimal(n))
    decreases n
  {
    DigitOf(n % 10);
    if n < 10 {
      assert Numeral("") == 0 && Decimal(n)[..0] == "";
    } else {
      DecimalDigits(n / 10);
      assert Decimal(n)[..|Decimal(n)| - 1] == Decimal(n / 10);
    }
  }

  // Digits, with a sign in front if the number is negative.
  predicate IsNumber(s: string) {
    AllDigits(s) || (s != "" && s[0] == '-' && AllDigits(s[1..]))
  }

  lemma Signed(digits: string)
    ensures Value("-" + digits) == -Numeral(digits)
    ensures AllDigits(digits) ==> IsNumber("-" + digits)
  {
    assert ("-" + digits)[1..] == digits;
  }

  lemma Minus(m: int)
    requires m > 0
    ensures Decimal(-m) == "-" + Decimal(m)
  {
  }

  lemma NonNegativeReadsBack(m: nat)
    ensures Value(Decimal(m)) == m && IsNumber(Decimal(m))
  {
    DecimalDigits(m);
    Unsigned(Decimal(m));
  }

  lemma NegativeReadsBack(m: int)
    requires m > 0
    ensures Value(Decimal(-m)) == -m && IsNumber(Decimal(-m))
  {
    DecimalDigits(m);
    Signed(Decimal(m));
    Minus(m);
  }

  // A number is written so that it can be read: in digits, and with its own value.
  lemma DecimalReadsBack(n: int)
    ensures Value(Decimal(n)) == n && IsNumber(Decimal(n))
  {
    if n < 0 {
      NegativeReadsBack(-n);
    } else {
      NonNegativeReadsBack(n);
    }
  }

  lemma Unsigned(digits: string)
    requires AllDigits(digits)
    ensures Value(digits) == Numeral(digits)
  {
  }

  predicate IsHex(s: string) {
    forall i :: 0 <= i < |s| ==> s[i] in DIGITS
  }

  // hex.EncodeToString
  function HexEncode(bytes: seq<Byte>): (s: string)
    ensures |s| == 2 * |bytes| && IsHex(s)
  {
    if bytes == [] then ""
    else
      var b := bytes[0];
      [DIGITS[b / 16], DIGITS[b % 16]] + HexEncode(bytes[1..])
  }

  lemma DigitsDiffer(i: nat, j: nat)
    requires i < 16 && j < 16 && DIGITS[i] == DIGITS[j]
    ensures i == j
  {
  }

  lemma BytesDiffer(a: Byte, b: Byte)
    requires DIGITS[a / 16] == DIGITS[b / 16] && DIGITS[a % 16] == DIGITS[b % 16]
    ensures a == b
  {
    DigitsDiffer(a / 16, b / 16);
    DigitsDiffer(a % 16, b % 16);
  }

  lemma HexHead(a: seq<Byte>)
    requires a != []
    ensures |HexEncode(a)| >= 2 && HexEncode(a)[2..] == HexEncode(a[1..])
    ensures HexEncode(a)[0] == DIGITS[a[0] / 16] && HexEncode(a)[1] == DIGITS[a[0] % 16]
  {
  }

  // Different bytes are written differently.
  lemma {:induction false} HexIsInjective(a: seq<Byte>, b: seq<Byte>)
    requires HexEncode(a) == HexEncode(b)
    ensures a == b
  {
    if a != [] && b != [] {
      HexHead(a);
      HexHead(b);
      BytesDiffer(a[0], b[0]);
      HexIsInjective(a[1..], b[1..]);
      assert a == [a[0]] + a[1..] && b == [b[0]] + b[1..];
    }
  }
}
