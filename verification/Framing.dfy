// The block that frames foreign text: internal/tools/read.go, untrustedTemplate and
// formatUntrustedBlock. Whoever knows the boundary can find the end of the block and recover
// the framed text, whatever that text is, as long as it does not contain the closing tag.
module Framing {
  import opened Wrappers
  import opened Text

  const TAG_NAME: string := "untrusted_external_content"
  const OPEN: string := "<" + TAG_NAME + " boundary="
  const CLOSE: string := "</" + TAG_NAME + " boundary="

  // The two stretches of the template's prose: any texts without '<'.
  type PlainText = s: string | Avoids(s, '<')

  const PROSE_BEFORE: PlainText
  const PROSE_AFTER: PlainText

  // %q of a hexadecimal string.
  function Quoted(boundary: string): string {
    "\"" + boundary + "\""
  }

  function CloseTag(boundary: string): string {
    CLOSE + Quoted(boundary) + ">"
  }

  // Everything before the framed text.
  function Header(boundary: string): string {
    OPEN + Quoted(boundary) + ">\n" + PROSE_BEFORE + Quoted(boundary) + PROSE_AFTER
  }

  function FormatUntrustedBlock(boundary: string, body: string): string {
    Header(boundary) + body + "\n" + CloseTag(boundary)
  }

  // ---------------------------------------------------------------- the closing tag

  // A tag starts with "</" and fits on a line; a header has no other '<' than its first
  // character, which does not start a closing tag.
  predicate TagLike(tag: string) {
    |tag| >= 2 && tag[0] == '<' && tag[1] == '/' && '\n' !in tag
  }

  predicate HeaderLike(h: string) {
    |h| >= 2 && h[0] == '<' && h[1] != '/' && '<' !in h[1..]
  }

  // In header + body + newline + tag, a tag without a newline occurs at the end and otherwise
  // only inside the body.
  lemma TagOccurrences(h: string, body: string, tag: string, p: int)
    requires TagLike(tag) && HeaderLike(h) && OccursAt(h + body + "\n" + tag, tag, p)
    ensures p == |h| + |body| + 1 || (p >= |h| && OccursAt(body, tag, p - |h|))
  {
    var text := h + body + "\n" + tag;
    forall q | p <= q < p + |tag| ensures text[q] == tag[q - p] {
      assert text[p..p + |tag|][q - p] == text[q];
    }
    assert text[p] == '<' && text[p + 1] == '/' && text[1] == h[1];
    var newline := |h| + |body|;
    assert text[newline] == '\n';
    if |h| <= p < newline {
      assert body[p - |h|..p - |h| + |tag|] == text[p..p + |tag|];
    }
  }

  lemma TagInBody(h: string, body: string, tag: string, j: int)
    requires OccursAt(body, tag, j)
    ensures OccursAt(h + body + "\n" + tag, tag, |h| + j)
  {
    var text := h + body + "\n" + tag;
    assert text[|h| + j..|h| + j + |tag|] == body[j..j + |tag|];
  }

  lemma HexIsPlain(boundary: string)
    requires IsHex(boundary)
    ensures Avoids(boundary, '<') && Avoids(boundary, '\n')
  {
    assert Avoids(DIGITS, '<') && Avoids(DIGITS, '\n');
  }

  lemma HeaderParts(open: string, quoted: string, before: string, after: string)
    requires HeaderLike(open) && Avoids(quoted, '<') && Avoids(before, '<') && Avoids(after, '<')
    ensures HeaderLike(open + quoted + ">\n" + before + quoted + after)
  {
    var tail := quoted + ">\n" + before + quoted + after;
    assert Avoids(tail, '<');
    assert open + quoted + ">\n" + before + quoted + after == open + tail;
    assert (open + tail)[1..] == open[1..] + tail;
  }

  lemma {:induction false} HeaderShape(boundary: string)
    requires IsHex(boundary)
    ensures HeaderLike(Header(boundary))
  {
    QuotedIsPlain(boundary);
    OpenIsHeaderLike();
    HeaderParts(OPEN, Quoted(boundary), PROSE_BEFORE, PROSE_AFTER);
  }

  lemma OpenIsHeaderLike()
    ensures HeaderLike(OPEN)
  {
    assert Avoids(TAG_NAME, '<') && Avoids(" boundary=", '<') && TAG_NAME[0] == 'u';
    assert OPEN[1..] == TAG_NAME + " boundary=" && OPEN[1] == TAG_NAME[0];
  }

  lemma QuotedIsPlain(boundary: string)
    requires IsHex(boundary)
    ensures Avoids(Quoted(boundary), '<') && Avoids(Quoted(boundary), '\n')
  {
    HexIsPlain(boundary);
  }

  lemma TagShape(boundary: string)
    requires IsHex(boundary)
    ensures TagLike(CloseTag(boundary))
  {
    QuotedIsPlain(boundary);
    assert Avoids(TAG_NAME, '\n') && Avoids(" boundary=", '\n') && CLOSE[0] == '<' && CLOSE[1] == '/';
    TagParts(CLOSE, Quoted(boundary));
  }

  lemma TagParts(close: string, quoted: string)
    requires TagLike(close) && Avoids(quoted, '\n')
    ensures TagLike(close + quoted + ">")
  {
  }

  // ---------------------------------------------------------------- unique parsing

  // What a reader who knows the header and the closing tag does: take the text between the
  // header and the first closing tag, without the newline the template puts before that tag.
  function RecoverBetween(h: string, tag: string, text: string): Option<string> {
    match FirstIndex(text, tag)
    case None => None
    case Some(end) => if |h| + 1 <= end then Some(text[|h|..end - 1]) else None
  }

  function Recover(boundary: string, text: string): Option<string> {
    RecoverBetween(Header(boundary), CloseTag(boundary), text)
  }

  lemma ParseBetween(block: string, h: string, body: string, tag: string)
    requires HeaderLike(h) && TagLike(tag) && block == h + body + "\n" + tag
    ensures !Occurs(body, tag) <==> FirstIndex(block, tag) == Some(|block| - |tag|)
    ensures block[|block| - |tag| - 1] == '\n' && '\n' !in tag
    ensures !Occurs(body, tag) <==> RecoverBetween(h, tag, block) == Some(body)
  {
    var end := |h| + |body| + 1;
    assert block[end..end + |tag|] == tag;
    if Occurs(body, tag) {
      var j :| OccursAt(body, tag, j);
      TagInBody(h, body, tag, j);
      assert FirstIndex(block, tag).value <= |h| + j < end;
    } else {
      forall p | 0 <= p < end ensures !OccursAt(block, tag, p) {
        if OccursAt(block, tag, p) {
          TagOccurrences(h, body, tag, p);
        }
      }
      FirstIndexIs(block, tag, end);
      assert block[|h|..end - 1] == body;
    }
  }

  // The first closing tag is the last line of the block, and the framed text is recovered
  // exactly, if and only if the closing tag with this boundary does not occur in that text.
  lemma {:induction false} FramingIsParseable(boundary: string, body: string)
    requires IsHex(boundary)
    ensures
      var block, tag := FormatUntrustedBlock(boundary, body), CloseTag(boundary);
      && (!Occurs(body, tag) <==> FirstIndex(block, tag) == Some(|block| - |tag|))
      && block[|block| - |tag| - 1] == '\n' && '\n' !in tag
      && (!Occurs(body, tag) <==> Recover(boundary, block) == Some(body))
  {
    HeaderShape(boundary);
    TagShape(boundary);
    ParseBetween(FormatUntrustedBlock(boundary, body), Header(boundary), body, CloseTag(boundary));
  }

  lemma BlockParts(boundary: string, body: string) returns (rest: string)
    ensures FormatUntrustedBlock(boundary, body) == OPEN + "\"" + (boundary + ['"'] + rest) && ">\n" <= rest
  {
    var before, after := PROSE_BEFORE, PROSE_AFTER + body + "\n" + CloseTag(boundary);
    rest := ">\n" + before + Quoted(boundary) + after;
    Regroup(OPEN, boundary, ">\n", before, Quoted(boundary), PROSE_AFTER, body, CloseTag(boundary));
  }

  lemma Regroup(open: string, boundary: string, end: string, before: string, quoted: string, after: string,
                body: string, tag: string)
    ensures open + ("\"" + boundary + "\"") + end + before + quoted + after + body + "\n" + tag ==
            open + "\"" + (boundary + ['"'] + (end + before + quoted + (after + body + "\n" + tag)))
  {
  }

  // The first line of a block names its boundary, and so the block determines both the boundary and
  // the text, whatever that text is.
  lemma BlockDetermines(boundary: string, body: string, boundary': string, body': string)
    requires IsHex(boundary) && IsHex(boundary')
    ensures FormatUntrustedBlock(boundary, body) == FormatUntrustedBlock(boundary', body') <==>
            boundary == boundary' && body == body'
    ensures OPEN + "\"" + (boundary + "\">\n") <= FormatUntrustedBlock(boundary, body)
  {
    var rest := BlockParts(boundary, body);
    if FormatUntrustedBlock(boundary, body) == FormatUntrustedBlock(boundary', body') {
      var rest' := BlockParts(boundary', body');
      NoQuote(boundary);
      NoQuote(boundary');
      SamePrefix(OPEN + "\"", boundary + ['"'] + rest, boundary' + ['"'] + rest');
      FirstPart(boundary, '"', rest, boundary', rest');
      SameFrame(Header(boundary), body, body', CloseTag(boundary));
    }
  }

  lemma SameFrame(header: string, body: string, body': string, tag: string)
    requires header + body + "\n" + tag == header + body' + "\n" + tag
    ensures body == body'
  {
    SameSuffix(header + body + "\n", header + body' + "\n", tag);
    SameSuffix(header + body, header + body', "\n");
    SamePrefix(header, body, body');
  }

  lemma NoQuote(boundary: string)
    requires IsHex(boundary)
    ensures '"' !in boundary
  {
    assert '"' !in DIGITS;
  }

  lemma OpenTagFirstIn(prefix: string, block: string, open: string)
    requires Avoids(prefix, '<') && open != "" && open[0] == '<' && open <= block
    ensures FirstIndex(prefix + block, open) == Some(|prefix|) && (prefix + block)[|prefix|..] == block
  {
    var text := prefix + block;
    assert text[|prefix|..|prefix| + |open|] == block[..|open|];
    forall p | 0 <= p < |prefix| ensures !OccursAt(text, open, p) {
      assert text[p] == prefix[p];
      assert text[p..p + |open|][0] == text[p];
    }
    FirstIndexIs(text, open, |prefix|);
  }

  // The first opening tag in a text whose prefix has no '<' is the block's own, however many
  // opening tags the body forges.
  lemma OpenTagFirst(prefix: string, boundary: string, body: string)
    requires Avoids(prefix, '<')
    ensures
      var text := prefix + FormatUntrustedBlock(boundary, body);
      FirstIndex(text, OPEN) == Some(|prefix|) && text[|prefix|..] == FormatUntrustedBlock(boundary, body)
  {
    OpenTagFirstIn(prefix, FormatUntrustedBlock(boundary, body), OPEN);
  }
}
