// How framed text gets into a tool result: internal/tools/read_generic.go and read.go, from
// the wrap functions to attachUntrustedStructured.
module UntrustedResults {
  import opened Wrappers
  import opened Text
  import opened Framing

  datatype Content = TextContent(text: string) | OtherContent

  class CallToolResult {
    var content: seq<Content>

    constructor (content: seq<Content>)
      ensures this.content == content
    {
      this.content := content;
    }
  }

  // The embedded untrustedTextField of an output struct.
  class Output {
    var untrustedText: string

    constructor ()
      ensures untrustedText == ""
    {
      untrustedText := "";
    }
  }

  // ---------------------------------------------------------------- wrapping

  // The lines that carry any text.
  function NonBlank(lines: seq<string>): seq<string> {
    if lines == [] then []
    else
      var before, line := NonBlank(lines[..|lines| - 1]), lines[|lines| - 1];
      if IsBlank(line) then before else before + [line]
  }

  method CollectNonBlank(lines: seq<string>) returns (nonEmpty: seq<string>)
    ensures nonEmpty == NonBlank(lines)
  {
    nonEmpty := [];
    for i := 0 to |lines|
      invariant nonEmpty == NonBlank(lines[..i])
    {
      assert lines[..i + 1][..i] == lines[..i];
      if !IsBlank(lines[i]) {
        nonEmpty := nonEmpty + [lines[i]];
      }
    }
    assert lines[..|lines|] == lines;
  }

  // The positions of the lines that carry text, and no others, in increasing order.
  ghost predicate Selects(at: seq<nat>, lines: seq<string>) {
    && (forall i :: 0 <= i < |at| ==> at[i] < |lines| && !IsBlank(lines[at[i]]))
    && (forall i, j :: 0 <= i < j < |at| ==> at[i] < at[j])
    && (forall k :: 0 <= k < |lines| && !IsBlank(lines[k]) ==> k in at)
  }

  ghost predicate Picks(at: seq<nat>, lines: seq<string>, picked: seq<string>) {
    Selects(at, lines) && |picked| == |at| && forall i :: 0 <= i < |at| ==> picked[i] == lines[at[i]]
  }

  // What is framed are the lines at those positions.
  lemma {:induction false} NonBlankExactly(lines: seq<string>) returns (at: seq<nat>)
    ensures Picks(at, lines, NonBlank(lines))
  {
    at := [];
    if lines != [] {
      var n := |lines| - 1;
      var before := NonBlankExactly(lines[..n]);
      at := if IsBlank(lines[n]) then before else before + [n];
      PicksMore(before, lines, NonBlank(lines[..n]), n);
    }
  }

  lemma PicksMore(at: seq<nat>, lines: seq<string>, picked: seq<string>, n: nat)
    requires |lines| == n + 1 && Picks(at, lines[..n], picked)
    ensures if IsBlank(lines[n]) then Picks(at, lines, picked) else Picks(at + [n], lines, picked + [lines[n]])
  {
    var more := at + [n];
    assert more[|at|] == n;
    forall k | 0 <= k < n && !IsBlank(lines[k]) ensures k in at && k in more {
      assert lines[..n][k] == lines[k];
      var i :| 0 <= i < |at| && at[i] == k;
      assert more[i] == k;
    }
  }

  // What the content of a result framing these lines has to be.
  function Framed(boundary: string, lines: seq<string>): seq<Content> {
    if NonBlank(lines) == [] then []
    else [TextContent(FormatUntrustedBlock(boundary, Join(NonBlank(lines), "\n")))]
  }

  // newUntrustedBoundary: hexadecimal text of 16 random bytes, or an error.
  function NewUntrustedBoundary(random: Option<seq<Byte>>): (r: Option<string>)
    requires random.Some? ==> |random.value| == 16
    ensures r.Some? ==> IsHex(r.value) && |r.value| == 32
  {
    if random.Some? then Some(HexEncode(random.value)) else None
  }

  // Two boundaries are alike only if the random bytes behind them are.
  lemma BoundariesDiffer(random: seq<Byte>, random': seq<Byte>)
    requires |random| == 16 == |random'|
    ensures NewUntrustedBoundary(Some(random)) == NewUntrustedBoundary(Some(random')) <==> random == random'
  {
    if NewUntrustedBoundary(Some(random)) == NewUntrustedBoundary(Some(random')) {
      HexIsInjective(random, random');
    }
  }

  // wrapUntrustedLines; the boundary is only generated when there is something to frame.
  method WrapUntrustedLines(lines: seq<string>, boundary: Option<string>) returns (res: CallToolResult?)
    ensures res == null <==> boundary.None? && NonBlank(lines) != []
    ensures res != null ==> fresh(res) && res.content == (if boundary.Some? then Framed(boundary.value, lines) else [])
  {
    var nonEmpty := CollectNonBlank(lines);
    if |nonEmpty| == 0 {
      return new CallToolResult([]);
    }
    if boundary.None? {
      return null;
    }
    return new CallToolResult([TextContent(FormatUntrustedBlock(boundary.value, Join(nonEmpty, "\n")))]);
  }

  // wrapUntrustedLinesWithBoundary: the same with a boundary made beforehand, and no error.
  method WrapUntrustedLinesWithBoundary(boundary: string, lines: seq<string>) returns (res: CallToolResult)
    ensures fresh(res) && res.content == Framed(boundary, lines)
  {
    var nonEmpty := CollectNonBlank(lines);
    if |nonEmpty| == 0 {
      return new CallToolResult([]);
    }
    return new CallToolResult([TextContent(FormatUntrustedBlock(boundary, Join(nonEmpty, "\n")))]);
  }

  // documentLine; quote is strconv.Quote.
  function DocumentLine(id: string, title: string, quote: string -> string): string {
    if title == "" then "- id=" + id + " (no title)"
    else "- id=" + id + " title=" + quote(EscapeNewlines(title))
  }

  function EscapeNewlines(s: string): (r: string)
    ensures Avoids(r, '\n')
  {
    if s == "" then "" else (if s[0] == '\n' then "\\n" else [s[0]]) + EscapeNewlines(s[1..])
  }

  lemma {:induction false} JoinFront(parts: seq<string>, sep: string)
    requires |parts| > 1
    ensures Join(parts, sep) == parts[0] + sep + Join(parts[1..], sep)
  {
    var n := |parts| - 1;
    if n == 1 {
      assert parts[..1] == [parts[0]] && parts[1..] == [parts[1]];
    } else {
      JoinFront(parts[..n], sep);
      assert parts[..n][1..] == parts[1..][..n - 1] && parts[1..][n - 1] == parts[n];
    }
  }

  lemma JoinHead(c: char, first: string, rest: seq<string>, sep: string)
    ensures Join([[c] + first] + rest, sep) == [c] + Join([first] + rest, sep)
  {
    if rest != [] {
      JoinFront([[c] + first] + rest, sep);
      JoinFront([first] + rest, sep);
      assert ([[c] + first] + rest)[1..] == rest == ([first] + rest)[1..];
    }
  }

  lemma JoinOfBreak(s: string, rest: string, sep: char, with: string)
    requires s == [sep] + rest
    ensures Join(Split(s, sep), with) == with + Join(Split(rest, sep), with)
  {
    var parts := Split(rest, sep);
    assert s[1..] == rest && Split(s, sep) == [""] + parts;
    JoinFront([""] + parts, with);
    assert ([""] + parts)[1..] == parts;
  }

  lemma JoinOfChar(s: string, c: char, rest: string, sep: char, with: string)
    requires s == [c] + rest && c != sep
    ensures Join(Split(s, sep), with) == [c] + Join(Split(rest, sep), with)
  {
    var parts := Split(rest, sep);
    assert s[1..] == rest && Split(s, sep) == [[c] + parts[0]] + parts[1..];
    JoinHead(c, parts[0], parts[1..], with);
    assert [parts[0]] + parts[1..] == parts;
  }

  // The title line by line, with a backslash and an n between the lines instead of a line break.
  lemma {:induction false} EscapeReplaces(s: string)
    ensures EscapeNewlines(s) == Join(Split(s, '\n'), "\\n")
  {
    if s != "" {
      EscapeReplaces(s[1..]);
      if s[0] == '\n' {
        JoinOfBreak(s, s[1..], '\n', "\\n");
      } else {
        JoinOfChar(s, s[0], s[1..], '\n', "\\n");
      }
    }
  }

  function Summary(returned: nat, total: int): string {
    "Returned " + Decimal(returned) + " of " + Decimal(total) + " total document(s)."
  }

  lemma NumberHasNoSpace(n: int)
    ensures ' ' !in Decimal(n)
  {
    DecimalReadsBack(n);
    assert forall i :: 0 < i < |Decimal(n)| ==> Decimal(n)[i] == Decimal(n)[1..][i - 1];
  }

  // The summary tells both counts: two that read alike count alike.
  lemma SummaryTells(returned: nat, total: int, returned': nat, total': int)
    ensures Summary(returned, total) == Summary(returned', total') <==> returned == returned' && total == total'
    ensures "Returned " + Decimal(returned) + [' '] <= Summary(returned, total)
  {
    var a, b, d, e := Decimal(returned), Decimal(total), Decimal(returned'), Decimal(total');
    Grouped("Returned ", a, " of ", b, " total document(s).");
    if Summary(returned, total) == Summary(returned', total') {
      NumberHasNoSpace(returned);
      NumberHasNoSpace(returned');
      Grouped("Returned ", d, " of ", e, " total document(s).");
      SamePrefix("Returned ", a + [' '] + ("of " + b + " total document(s)."),
                 d + [' '] + ("of " + e + " total document(s)."));
      FirstPart(a, ' ', "of " + b + " total document(s).", d, "of " + e + " total document(s).");
      SameSuffix("of " + b, "of " + e, " total document(s).");
      SamePrefix("of ", b, e);
      DecimalReadsBack(returned);
      DecimalReadsBack(returned');
      DecimalReadsBack(total);
      DecimalReadsBack(total');
    }
  }

  lemma Grouped(p: string, a: string, m: string, b: string, e: string)
    requires m != ""
    ensures p + a + m + b + e == p + (a + [m[0]] + (m[1..] + b + e))
    ensures p + a + [m[0]] <= p + a + m + b + e
  {
    assert m == [m[0]] + m[1..];
  }

  // ---------------------------------------------------------------- rows can be read back

  // Between quotation marks, on one line, every mark inside after a backslash.
  predicate IsQuoted(q: string) {
    && |q| >= 2 && q[0] == '"' && q[|q| - 1] == '"' && '\n' !in q
    && forall i :: 0 < i < |q| - 1 && q[i] == '"' ==> q[i - 1] == '\\'
  }

  // What strconv.Quote promises.
  ghost predicate Quotes(quote: string -> string) {
    && (forall s :: IsQuoted(quote(s)))
    && (forall s, s' :: quote(s) == quote(s') ==> s == s')
  }

  // A quoted text at the end of a line starts where it starts, whatever stands before it.
  lemma QuotedAtEnd(a: string, q: string, b: string, q': string)
    requires a + q == b + q' && IsQuoted(q) && IsQuoted(q') && a != "" && b != ""
    requires a[|a| - 1] == '=' && b[|b| - 1] == '='
    ensures a == b && q == q'
  {
    var line := a + q;
    assert |a| == |b| by {
      assert line[|b| - 1] == '=' && line[|b|] == '"' && line[|a| - 1] == '=' && line[|a|] == '"';
    }
    assert a == line[..|a|] && b == line[..|b|] && q == line[|a|..] && q' == line[|b|..];
  }

  lemma EscapedIsEmpty(s: string)
    ensures EscapeNewlines(s) == "" <==> s == ""
  {
  }

  lemma LastCharacter(s: string, e: string)
    requires e != ""
    ensures (s + e)[|s + e| - 1] == e[|e| - 1]
  {
  }

  // How a line ends tells whether it has a title.
  lemma LineEnds(id: string, title: string, quote: string -> string)
    requires Quotes(quote)
    ensures
      var line := DocumentLine(id, title, quote);
      line != "" && line[|line| - 1] == if title == "" then ')' else '"'
  {
    if title == "" {
      LastCharacter("- id=" + id, " (no title)");
    } else {
      assert IsQuoted(quote(EscapeNewlines(title)));
      LastCharacter("- id=" + id + " title=", quote(EscapeNewlines(title)));
    }
  }

  lemma TitledLines(id: string, q: string, id': string, q': string)
    requires "- id=" + id + " title=" + q == "- id=" + id' + " title=" + q' && IsQuoted(q) && IsQuoted(q')
    ensures id == id' && q == q'
  {
    LastCharacter("- id=" + id, " title=");
    LastCharacter("- id=" + id', " title=");
    QuotedAtEnd("- id=" + id + " title=", q, "- id=" + id' + " title=", q');
    SameSuffix("- id=" + id, "- id=" + id', " title=");
    SamePrefix("- id=", id, id');
  }

  lemma UntitledLines(id: string, id': string)
    requires "- id=" + id + " (no title)" == "- id=" + id' + " (no title)"
    ensures id == id'
  {
    SameSuffix("- id=" + id, "- id=" + id', " (no title)");
    SamePrefix("- id=", id, id');
  }

  // A row's line begins with its ID, and tells the ID and the escaped title: two rows have one line
  // exactly if they agree in both.
  lemma RowIsReadable(id: string, title: string, id': string, title': string, quote: string -> string)
    requires Quotes(quote)
    ensures "- id=" + id <= DocumentLine(id, title, quote)
    ensures DocumentLine(id, title, quote) == DocumentLine(id', title', quote) <==>
            id == id' && EscapeNewlines(title) == EscapeNewlines(title')
  {
    EscapedIsEmpty(title);
    EscapedIsEmpty(title');
    if DocumentLine(id, title, quote) == DocumentLine(id', title', quote) {
      LineEnds(id, title, quote);
      LineEnds(id', title', quote);
      if title == "" {
        UntitledLines(id, id');
      } else {
        var q, q' := quote(EscapeNewlines(title)), quote(EscapeNewlines(title'));
        assert IsQuoted(q) && IsQuoted(q');
        TitledLines(id, q, id', q');
      }
    }
  }

  // renderDocumentList
  function RenderDocumentList(returned: nat, total: int, lines: seq<string>, boundary: Option<string>): Option<string> {
    if lines == [] then Some(Summary(returned, total))
    else if boundary.None? then None
    else Some(Summary(returned, total) + "\n\n" + FormatUntrustedBlock(boundary.value, Join(lines, "\n")))
  }

  // ---------------------------------------------------------------- attaching

  // The framed part of a result's first block, from the first opening tag on.
  function FramedPart(content: seq<Content>): Option<string> {
    if content == [] || !content[0].TextContent? then None
    else
      match FirstIndex(content[0].text, OPEN)
      case None => None
      case Some(i) => Some(content[0].text[i..])
  }

  // attachUntrustedStructured. marshalled is the JSON of the output with the field blanked,
  // or None when it cannot be marshalled; in that case the code has already blanked the field.
  method AttachUntrustedStructured(res: CallToolResult?, out: Output, marshalled: Option<string>)
    modifies res, out
    ensures res == null || FramedPart(old(res.content)).None? ==>
              out.untrustedText == old(out.untrustedText) && (res != null ==> res.content == old(res.content))
    ensures res != null && FramedPart(old(res.content)).Some? ==>
              if marshalled.None? then out.untrustedText == "" && res.content == old(res.content)
              else
                && out.untrustedText == FramedPart(old(res.content)).value
                && res.content == [TextContent(marshalled.value), old(res.content)[0]]
  {
    if res == null || |res.content| == 0 {
      return;
    }
    if !res.content[0].TextContent? {
      return;
    }
    var tc := res.content[0];
    var idx := FirstIndex(tc.text, OPEN);
    if idx.None? {
      return;
    }
    out.untrustedText := "";
    if marshalled.None? {
      return;
    }
    out.untrustedText := tc.text[idx.value..];
    res.content := [TextContent(marshalled.value), tc];
  }

  // ---------------------------------------------------------------- what reaches the client

  lemma {:induction false} FramedPartOfLines(boundary: string, lines: seq<string>)
    ensures FramedPart(Framed(boundary, lines)) ==
            if NonBlank(lines) == [] then None else Some(FormatUntrustedBlock(boundary, Join(NonBlank(lines), "\n")))
  {
    if NonBlank(lines) != [] {
      var block := FormatUntrustedBlock(boundary, Join(NonBlank(lines), "\n"));
      OpenTagFirst("", boundary, Join(NonBlank(lines), "\n"));
      assert "" + block == block;
    }
  }

  lemma NoOpenTag(s: string, open: string)
    requires Avoids(s, '<') && open != "" && open[0] == '<'
    ensures FirstIndex(s, open) == None
  {
    forall j ensures !OccursAt(s, open, j) {
      if 0 <= j <= |s| - |open| {
        assert s[j..j + |open|][0] == s[j];
      }
    }
  }

  lemma SummaryIsPlain(returned: nat, total: int)
    ensures Avoids(Summary(returned, total), '<') && Avoids(Summary(returned, total) + "\n\n", '<')
  {
    assert Avoids("Returned ", '<') && Avoids(" of ", '<') && Avoids(" total document(s).", '<');
  }

  lemma FramedPartOfList(returned: nat, total: int, lines: seq<string>, boundary: string)
    ensures
      var text := RenderDocumentList(returned, total, lines, Some(boundary)).value;
      FramedPart([TextContent(text)]) ==
        if lines == [] then None else Some(FormatUntrustedBlock(boundary, Join(lines, "\n")))
  {
    var summary := Summary(returned, total);
    SummaryIsPlain(returned, total);
    if lines != [] {
      OpenTagFirst(summary + "\n\n", boundary, Join(lines, "\n"));
    } else {
      NoOpenTag(summary, OPEN);
    }
  }

  // The tail of listFromService, getFromService and documentFromService: the structured field
  // is exactly the framed block, the untouched text is the second block, and a client that
  // knows the boundary recovers the foreign lines from the field.
  method FrameLines(lines: seq<string>, boundary: string, marshalled: string) returns (res: CallToolResult, out: Output)
    requires IsHex(boundary)
    ensures fresh(res) && fresh(out)
    ensures NonBlank(lines) == [] ==> res.content == [] && out.untrustedText == ""
    ensures NonBlank(lines) != [] ==>
              && out.untrustedText == FormatUntrustedBlock(boundary, Join(NonBlank(lines), "\n"))
              && res.content == [TextContent(marshalled), TextContent(out.untrustedText)]
              && (Recover(boundary, out.untrustedText) == Some(Join(NonBlank(lines), "\n")) <==>
                  !Occurs(Join(NonBlank(lines), "\n"), CloseTag(boundary)))
  {
    res := WrapUntrustedLinesWithBoundary(boundary, lines);
    out := new Output();
    FramedPartOfLines(boundary, lines);
    FramingIsParseable(boundary, Join(NonBlank(lines), "\n"));
    AttachUntrustedStructured(res, out, Some(marshalled));
  }

  datatype Row = Row(id: string, title: string)

  function DocumentLines(rows: seq<Row>, quote: string -> string): seq<string> {
    seq(|rows|, i requires 0 <= i < |rows| => DocumentLine(rows[i].id, rows[i].title, quote))
  }

  // listDocumentsResult: every row gets a line, the field is the framed block alone, the
  // second block the summary followed by it. null is the boundary error.
  method ListDocumentsResult(rows: seq<Row>, total: int, boundary: Option<string>,
                             quote: string -> string, marshalled: string)
    returns (res: CallToolResult?, out: Output)
    ensures fresh(out)
    ensures res == null <==> boundary.None? && rows != []
    ensures res != null && rows == [] ==> res.content == [TextContent(Summary(0, total))] && out.untrustedText == ""
    ensures res != null && rows != [] ==>
              && out.untrustedText == FormatUntrustedBlock(boundary.value, Join(DocumentLines(rows, quote), "\n"))
              && res.content ==
                 [TextContent(marshalled), TextContent(Summary(|rows|, total) + "\n\n" + out.untrustedText)]
  {
    out := new Output();
    var lines: seq<string> := [];
    for i := 0 to |rows|
      invariant lines == DocumentLines(rows[..i], quote)
    {
      lines := lines + [DocumentLine(rows[i].id, rows[i].title, quote)];
    }
    assert rows[..|rows|] == rows;
    var text := RenderDocumentList(|rows|, total, lines, boundary);
    if text.None? {
      return null, out;
    }
    var result := new CallToolResult([TextContent(text.value)]);
    FramedPartOfList(|rows|, total, lines, if boundary.Some? then boundary.value else "");
    AttachUntrustedStructured(result, out, Some(marshalled));
    res := result;
  }

  // ---------------------------------------------------------------- a list can be read back

  lemma OneLinePerRow(id: string, title: string, quote: string -> string)
    requires Quotes(quote) && '\n' !in id
    ensures '\n' !in DocumentLine(id, title, quote)
  {
    assert IsQuoted(quote(EscapeNewlines(title)));
    assert '\n' !in "- id=" && '\n' !in " (no title)" && '\n' !in " title=";
  }

  // The lines under the summary are one for each row, in order, and two lists have the same lines
  // exactly if they agree, row by row, in the IDs and the escaped titles.
  lemma ListIsReadable(rows: seq<Row>, rows': seq<Row>, quote: string -> string)
    requires Quotes(quote) && rows != [] && rows' != []
    requires forall row :: row in rows || row in rows' ==> '\n' !in row.id
    ensures Split(Join(DocumentLines(rows, quote), "\n"), '\n') == DocumentLines(rows, quote)
    ensures Join(DocumentLines(rows, quote), "\n") == Join(DocumentLines(rows', quote), "\n") <==>
            |rows| == |rows'| && forall i :: 0 <= i < |rows| ==> RowsAlike(rows[i], rows'[i])
  {
    LinesSplit(rows, quote);
    LinesSplit(rows', quote);
    LinesTellRows(rows, rows', quote);
  }

  predicate RowsAlike(row: Row, row': Row) {
    row.id == row'.id && EscapeNewlines(row.title) == EscapeNewlines(row'.title)
  }

  lemma LinesTellRows(rows: seq<Row>, rows': seq<Row>, quote: string -> string)
    requires Quotes(quote)
    ensures DocumentLines(rows, quote) == DocumentLines(rows', quote) <==>
            |rows| == |rows'| && forall i :: 0 <= i < |rows| ==> RowsAlike(rows[i], rows'[i])
  {
    if |rows| == |rows'| {
      forall i | 0 <= i < |rows|
        ensures DocumentLines(rows, quote)[i] == DocumentLines(rows', quote)[i] <==> RowsAlike(rows[i], rows'[i])
      {
        RowIsReadable(rows[i].id, rows[i].title, rows'[i].id, rows'[i].title, quote);
      }
    }
  }

  lemma LinesSplit(rows: seq<Row>, quote: string -> string)
    requires Quotes(quote) && rows != [] && forall row :: row in rows ==> '\n' !in row.id
    ensures Split(Join(DocumentLines(rows, quote), "\n"), '\n') == DocumentLines(rows, quote)
  {
    forall line | line in DocumentLines(rows, quote) ensures '\n' !in line {
      var i :| 0 <= i < |rows| && line == DocumentLine(rows[i].id, rows[i].title, quote);
      assert rows[i] in rows;
      OneLinePerRow(rows[i].id, rows[i].title, quote);
    }
    SplitOfJoin(DocumentLines(rows, quote), '\n');
  }
}
