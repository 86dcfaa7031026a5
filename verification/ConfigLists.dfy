// Comma-separated lists in environment variables.
module ConfigLists {
  import opened Wrappers
  import opened Text

  function TrimLeft(s: string): string {
    if s != "" && IsSpace(s[0]) then TrimLeft(s[1..]) else s
  }

  function TrimRight(s: string): string {
    if s != "" && IsSpace(s[|s| - 1]) then TrimRight(s[..|s| - 1]) else s
  }

  // strings.TrimSpace
  function TrimSpace(s: string): string {
    TrimRight(TrimLeft(s))
  }

  // What a list keeps of its parts.
  function Items(parts: seq<string>): seq<string> {
    if parts == [] then []
    else
      var t := TrimSpace(parts[|parts| - 1]);
      Items(parts[..|parts| - 1]) + if t != "" then [t] else []
  }

  method SplitListe(raw: string) returns (out: seq<string>)
    ensures out == Items(Split(raw, ','))
  {
    out := [];
    var parts := Split(raw, ',');
    for i := 0 to |parts|
      invariant out == Items(parts[..i])
    {
      assert parts[..i + 1][..i] == parts[..i];
      var t := TrimSpace(parts[i]);
      if t != "" {
        out := out + [t];
      }
    }
    assert parts[..|parts|] == parts;
  }

  // A list item: something, without a comma, without space around it.
  predicate IsItem(t: string) {
    && t != ""
    && ',' !in t
    && !IsSpace(t[0])
    && !IsSpace(t[|t| - 1])
  }

  lemma {:induction false} TrimLeftIsSuffix(s: string)
    ensures |TrimLeft(s)| <= |s| && TrimLeft(s) == s[|s| - |TrimLeft(s)|..]
    ensures TrimLeft(s) == "" || !IsSpace(TrimLeft(s)[0])
  {
    if s != "" && IsSpace(s[0]) {
      TrimLeftIsSuffix(s[1..]);
    }
  }

  lemma {:induction false} TrimRightIsPrefix(s: string)
    ensures |TrimRight(s)| <= |s| && TrimRight(s) == s[..|TrimRight(s)|]
    ensures TrimRight(s) == "" || !IsSpace(TrimRight(s)[|TrimRight(s)| - 1])
  {
    if s != "" && IsSpace(s[|s| - 1]) {
      TrimRightIsPrefix(s[..|s| - 1]);
    }
  }

  lemma TrimmedIsItem(s: string)
    requires ',' !in s && TrimSpace(s) != ""
    ensures IsItem(TrimSpace(s))
  {
    TrimLeftIsSuffix(s);
    TrimRightIsPrefix(TrimLeft(s));
  }

  lemma {:induction false} PartsHaveNoSeparator(s: string, sep: char, i: nat)
    requires i < |Split(s, sep)|
    ensures sep !in Split(s, sep)[i]
  {
    if s != "" {
      var rest := Split(s[1..], sep);
      if s[0] == sep {
        if i > 0 {
          PartsHaveNoSeparator(s[1..], sep, i - 1);
        }
      } else {
        PartsHaveNoSeparator(s[1..], sep, i);
      }
    }
  }

  lemma {:induction false} ItemsAreItems(parts: seq<string>)
    requires forall i :: 0 <= i < |parts| ==> ',' !in parts[i]
    ensures forall t :: t in Items(parts) ==> IsItem(t)
  {
    if parts != [] {
      ItemsAreItems(parts[..|parts| - 1]);
      if TrimSpace(parts[|parts| - 1]) != "" {
        TrimmedIsItem(parts[|parts| - 1]);
      }
    }
  }

  // Whatever the variable holds, a list has only proper items: never an empty subject or key.
  lemma ListsHoldItems(raw: string)
    ensures forall t :: t in Items(Split(raw, ',')) ==> IsItem(t)
  {
    forall i | 0 <= i < |Split(raw, ',')| ensures ',' !in Split(raw, ',')[i] {
      PartsHaveNoSeparator(raw, ',', i);
    }
    ItemsAreItems(Split(raw, ','));
  }

  lemma ItemIsTrimmed(t: string)
    requires IsItem(t)
    ensures TrimSpace(t) == t
  {
    assert TrimLeft(t) == t;
  }

  lemma {:induction false} ItemsOfItems(items: seq<string>)
    requires forall t :: t in items ==> IsItem(t)
    ensures Items(items) == items
  {
    if items != [] {
      var init, t := items[..|items| - 1], items[|items| - 1];
      assert t in items && items == init + [t];
      ItemsOfItems(init);
      ItemIsTrimmed(t);
    }
  }

  // A list that was joined is read back as it was.
  lemma ListRoundTrip(items: seq<string>)
    requires forall t :: t in items ==> IsItem(t)
    ensures Items(Split(Join(items, ","), ',')) == items
  {
    if items == [] {
      assert [""][..0] == [];
    } else {
      SplitOfJoin(items, ',');
      ItemsOfItems(items);
    }
  }

  lemma {:induction false} TrimLeftDrops(l: string, t: string)
    requires IsBlank(l)
    ensures TrimLeft(l + t) == TrimLeft(t)
  {
    if l == "" {
      assert l + t == t;
    } else {
      assert IsSpace(l[0]) && (l + t)[1..] == l[1..] + t;
      TrimLeftDrops(l[1..], t);
    }
  }

  lemma {:induction false} TrimRightDrops(t: string, r: string)
    requires IsBlank(r)
    ensures TrimRight(t + r) == TrimRight(t)
  {
    if r == "" {
      assert t + r == t;
    } else {
      var n := |r| - 1;
      assert IsSpace(r[n]) && (t + r)[..|t + r| - 1] == t + r[..n];
      TrimRightDrops(t, r[..n]);
    }
  }

  // Space around an item, and nothing else, is taken off.
  lemma {:induction false} TrimTakesOffSpace(l: string, t: string, r: string)
    requires IsBlank(l) && IsBlank(r) && (t == "" || (!IsSpace(t[0]) && !IsSpace(t[|t| - 1])))
    ensures TrimSpace(l + t + r) == t
  {
    if t == "" {
      TrimLeftDrops(l + t + r, "");
      assert l + t + r + "" == l + t + r;
    } else {
      assert l + t + r == l + (t + r);
      TrimLeftDrops(l, t + r);
      assert (t + r)[0] == t[0];
      TrimRightDrops(t, r);
    }
  }

  // A part as an operator may write it: an item, or nothing, with space around it.
  datatype Part = Part(left: string, item: string, right: string)

  predicate WellWritten(p: Part) {
    IsBlank(p.left) && IsBlank(p.right) && ',' !in p.left && ',' !in p.right && (p.item == "" || IsItem(p.item))
  }

  function Written(p: Part): string {
    p.left + p.item + p.right
  }

  function AllWritten(parts: seq<Part>): seq<string> {
    seq(|parts|, i requires 0 <= i < |parts| => Written(parts[i]))
  }

  // The items of the parts, in order.
  function ItemsIn(parts: seq<Part>): seq<string> {
    if parts == [] then []
    else
      var item := parts[|parts| - 1].item;
      ItemsIn(parts[..|parts| - 1]) + if item == "" then [] else [item]
  }

  lemma {:induction false} ItemsOfWritten(parts: seq<Part>)
    requires forall p :: p in parts ==> WellWritten(p)
    ensures Items(AllWritten(parts)) == ItemsIn(parts)
  {
    if parts != [] {
      var n := |parts| - 1;
      assert parts[n] in parts && AllWritten(parts)[..n] == AllWritten(parts[..n]);
      ItemsOfWritten(parts[..n]);
      TrimTakesOffSpace(parts[n].left, parts[n].item, parts[n].right);
    }
  }

  // However a list is spaced out, and whatever blank entries it has, its items are read in order.
  lemma WrittenListIsRead(parts: seq<Part>)
    requires parts != [] && forall p :: p in parts ==> WellWritten(p)
    ensures Items(Split(Join(AllWritten(parts), ","), ',')) == ItemsIn(parts)
  {
    forall t | t in AllWritten(parts) ensures ',' !in t {
      var i :| 0 <= i < |parts| && t == Written(parts[i]);
      assert WellWritten(parts[i]);
    }
    SplitOfJoin(AllWritten(parts), ',');
    ItemsOfWritten(parts);
  }
}
