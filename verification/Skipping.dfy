/** Unknown elements are skipped exactly: whatever is nested in them, the parse
    goes on right behind their close tag. */
module Skipping {
  import opened Lists
  import opened Wire
  import opened Grammar
  import opened Encoding
  import opened RoundTrip

  /** A character of an attribute value: itself, or one of the five entities. */
  datatype Piece = Raw(c: char) | Ent(c: char)

  /** An attribute as it may be spelled: white space in front, and around the '='. */
  datatype XAttr = XAttr(gap: string, name: string, before: string, after: string, quote: char, pieces: seq<Piece>)

  /** A well-formed piece of markup no one recognises. White space may end every tag. */
  datatype Junk =
    | Chars(text: string)
    | Leaf(name: string, attrs: seq<XAttr>, gap: string)
    | Nested(name: string, attrs: seq<XAttr>, gap: string, kids: seq<Junk>, endGap: string)

  predicate Blanks(s: string) {
    forall i :: 0 <= i < |s| ==> Blank?(s[i])
  }

  predicate PieceOk(p: Piece, quote: char) {
    match p
    case Raw(c) => c != quote && c != '&'
    case Ent(c) => EntityOf(c).Some?
  }

  /** A name in the parser's alphabet, of any length. */
  predicate AnyName(name: string) {
    name != "" && forall i :: 0 <= i < |name| ==> IdentChar(name[i])
  }

  predicate XAttrOk(a: XAttr) {
    && a.gap != "" && Blanks(a.gap) && AnyName(a.name) && Blanks(a.before) && Blanks(a.after)
    && (a.quote == '\'' || a.quote == '"')
    && forall i :: 0 <= i < |a.pieces| ==> PieceOk(a.pieces[i], a.quote)
  }

  predicate XAttrsOk(attrs: seq<XAttr>) {
    forall i :: 0 <= i < |attrs| ==> XAttrOk(attrs[i])
  }

  predicate WellFormed(j: Junk)
    decreases j
  {
    match j
    case Chars(text) => forall i :: 0 <= i < |text| ==> text[i] != '<'
    case Leaf(name, attrs, gap) => AnyName(name) && XAttrsOk(attrs) && Blanks(gap)
    case Nested(name, attrs, gap, kids, endGap) =>
      && AnyName(name) && XAttrsOk(attrs) && Blanks(gap) && Blanks(endGap)
      && forall i :: 0 <= i < |kids| ==> WellFormed(kids[i])
  }

  // What the parser asks for beyond that

  /** Element names below the token limit, and no white space in close tags. */
  predicate Skippable(j: Junk)
    decreases j
  {
    match j
    case Chars(_) => true
    case Leaf(name, _, _) => |name| < MAX_TOKEN
    case Nested(name, _, _, kids, endGap) =>
      |name| < MAX_TOKEN && endGap == "" && forall i :: 0 <= i < |kids| ==> Skippable(kids[i])
  }

  /** The attributes of the outermost tag are read, not skipped: no white space around the
      '=', and names and values within the token limit. */
  predicate Tight(a: XAttr) {
    |a.name| < MAX_TOKEN && a.before == "" && a.after == "" && |a.pieces| <= MAX_TOKEN
  }

  predicate AllTight(attrs: seq<XAttr>) {
    forall i :: 0 <= i < |attrs| ==> Tight(attrs[i])
  }

  predicate Passable(j: Junk)
    requires !j.Chars?
  {
    Skippable(j) && AllTight(j.attrs)
  }

  function PieceText(p: Piece): string {
    match p
    case Raw(c) => [c]
    case Ent(c) => EscapeChar(c)
  }

  function PiecesText(ps: seq<Piece>): string {
    if ps == [] then "" else PieceText(ps[0]) + PiecesText(ps[1..])
  }

  function Value(ps: seq<Piece>): string {
    seq(|ps|, i requires 0 <= i < |ps| => ps[i].c)
  }

  function XAttrHead(a: XAttr): string {
    a.gap + (a.name + (a.before + ("=" + a.after)))
  }

  function XAttrText(a: XAttr): string {
    XAttrHead(a) + ([a.quote] + (PiecesText(a.pieces) + [a.quote]))
  }

  function XAttrsText(attrs: seq<XAttr>): string {
    if attrs == [] then "" else XAttrText(attrs[0]) + XAttrsText(attrs[1..])
  }

  function Values(attrs: seq<XAttr>): seq<Attr> {
    if attrs == [] then [] else [Grammar.Attr(attrs[0].name, Value(attrs[0].pieces))] + Values(attrs[1..])
  }

  function TagText(attrs: seq<XAttr>, gap: string): string {
    XAttrsText(attrs) + gap
  }

  function Text(j: Junk): string
    decreases j, 1
  {
    match j
    case Chars(text) => text
    case Leaf(name, attrs, gap) => "<" + (name + (TagText(attrs, gap) + "/>"))
    case Nested(name, attrs, gap, kids, endGap) =>
      "<" + (name + (TagText(attrs, gap) + (">" + (TextAll(kids) + CloseText(name, endGap)))))
  }

  function CloseText(name: string, endGap: string): string {
    "</" + (name + (endGap + ">"))
  }

  function TextAll(js: seq<Junk>): string
    decreases js, 0
  {
    if js == [] then "" else Text(js[0]) + TextAll(js[1..])
  }

  // Passing over a tag whose attributes are not parsed

  lemma {:induction false} QuoteSkipped(ps: seq<Piece>, quote: char, rest: string)
    requires (quote == '\'' || quote == '"') && forall i :: 0 <= i < |ps| ==> PieceOk(ps[i], quote)
    ensures FinishTag(PiecesText(ps) + ([quote] + rest), quote) == FinishTag(rest, NO_QUOTE)
  {
    hide PieceText;
    if ps == [] {
      assert PiecesText(ps) + ([quote] + rest) == [quote] + rest;
      assert ([quote] + rest)[1..] == rest;
    } else {
      var tail := PiecesText(ps[1..]) + ([quote] + rest);
      Assoc(PieceText(ps[0]), PiecesText(ps[1..]), [quote] + rest);
      assert PieceOk(ps[0], quote);
      PieceNoQuote(ps[0], quote);
      InQuote(PieceText(ps[0]), quote, tail);
      QuoteSkipped(ps[1..], quote, rest);
    }
  }

  lemma PieceNoQuote(p: Piece, quote: char)
    requires PieceOk(p, quote) && (quote == '\'' || quote == '"')
    ensures forall i :: 0 <= i < |PieceText(p)| ==> PieceText(p)[i] != quote
  {
  }

  lemma {:induction false} InQuote(s: string, quote: char, rest: string)
    requires quote != NO_QUOTE && forall i :: 0 <= i < |s| ==> s[i] != quote
    ensures FinishTag(s + rest, quote) == FinishTag(rest, quote)
  {
    if s == "" {
      assert s + rest == rest;
    } else {
      assert (s + rest)[1..] == s[1..] + rest;
      InQuote(s[1..], quote, rest);
    }
  }

  /** Bytes outside quotes that end nothing. */
  lemma {:induction false} OutOfQuote(s: string, rest: string)
    requires forall i :: 0 <= i < |s| ==> s[i] != '\'' && s[i] != '"' && s[i] != '>' && s[i] != '/'
    ensures FinishTag(s + rest, NO_QUOTE) == FinishTag(rest, NO_QUOTE)
  {
    if s == "" {
      assert s + rest == rest;
    } else {
      assert (s + rest)[1..] == s[1..] + rest;
      OutOfQuote(s[1..], rest);
    }
  }

  lemma AttrSkipped(a: XAttr, rest: string)
    requires XAttrOk(a)
    ensures FinishTag(XAttrText(a) + rest, NO_QUOTE) == FinishTag(rest, NO_QUOTE)
  {
    hide PiecesText, FinishTag;
    var head, tail := XAttrHead(a), PiecesText(a.pieces) + ([a.quote] + rest);
    assert XAttrText(a) + rest == head + ([a.quote] + tail) by { hide XAttrHead; }
    OutOfQuote(head, [a.quote] + tail);
    QuoteOpens(a.quote, tail);
    QuoteSkipped(a.pieces, a.quote, rest);
  }

  lemma QuoteOpens(quote: char, rest: string)
    requires quote == '\'' || quote == '"'
    ensures FinishTag([quote] + rest, NO_QUOTE) == FinishTag(rest, quote)
  {
    assert ([quote] + rest)[1..] == rest;
  }

  lemma {:induction false} AttrsSkipped(attrs: seq<XAttr>, rest: string)
    requires XAttrsOk(attrs)
    ensures FinishTag(XAttrsText(attrs) + rest, NO_QUOTE) == FinishTag(rest, NO_QUOTE)
  {
    hide XAttrText, FinishTag, XAttrOk;
    if attrs == [] {
      assert XAttrsText(attrs) + rest == rest;
    } else {
      Assoc(XAttrText(attrs[0]), XAttrsText(attrs[1..]), rest);
      AttrSkipped(attrs[0], XAttrsText(attrs[1..]) + rest);
      AttrsSkipped(attrs[1..], rest);
    }
  }

  lemma GapSkipped(gap: string, rest: string)
    requires Blanks(gap)
    ensures FinishTag(gap + rest, NO_QUOTE) == FinishTag(rest, NO_QUOTE)
  {
    OutOfQuote(gap, rest);
  }

  lemma TagTextStarts(attrs: seq<XAttr>, gap: string, end: string)
    requires end != "" && !IdentChar(end[0]) && Blanks(gap) && XAttrsOk(attrs)
    ensures TagText(attrs, gap) + end != "" && !IdentChar((TagText(attrs, gap) + end)[0])
  {
    if attrs == [] {
      assert TagText(attrs, gap) + end == gap + end;
    } else {
      assert XAttrOk(attrs[0]);
      assert XAttrText(attrs[0])[0] == attrs[0].gap[0];
    }
  }

  /** A start tag is one skipping step; it opens one level unless it closes itself. */
  lemma StartTagSkipped(depth: nat, name: string, attrs: seq<XAttr>, gap: string, closed: bool, rest: string)
    requires depth > 0 && AnyName(name) && XAttrsOk(attrs) && Blanks(gap)
    ensures SkipStep(depth, "<" + (name + (TagText(attrs, gap) + TagEnd(closed, rest))))
         == if |name| < MAX_TOKEN then Done(if closed then depth else depth + 1, rest) else Fail(TokenTooLong)
  {
    hide XAttrsText, FinishTag, Ident, XAttrsOk;
    var end := TagEnd(closed, rest);
    var body := TagText(attrs, gap) + end;
    TagTextStarts(attrs, gap, end);
    NameReads(name, body);
    Assoc(XAttrsText(attrs), gap, end);
    AttrsSkipped(attrs, gap + end);
    GapSkipped(gap, end);
    TagEndSkipped(closed, rest);
    assert ("<" + (name + body))[1..] == name + body;
    assert (name + body)[0] == name[0];
  }

  /** A name is read up to the byte after it, if it is within the limit. */
  lemma NameReads(name: string, rest: string)
    requires AnyName(name) && rest != "" && !IdentChar(rest[0])
    ensures Ident(name + rest) == if |name| < MAX_TOKEN then Done(name, rest) else Fail(TokenTooLong)
  {
    RunOf(name, rest);
    assert (name + rest)[..|name|] == name && (name + rest)[|name|..] == rest;
  }

  lemma {:induction false} RunOf(name: string, rest: string)
    requires (forall i :: 0 <= i < |name| ==> IdentChar(name[i])) && rest != "" && !IdentChar(rest[0])
    ensures IdentRun(name + rest) == |name|
  {
    hide IdentChar;
    if name == "" {
      assert name + rest == rest;
    } else {
      assert (name + rest)[1..] == name[1..] + rest;
      RunOf(name[1..], rest);
    }
  }

  lemma TagEndSkipped(closed: bool, rest: string)
    ensures FinishTag(TagEnd(closed, rest), NO_QUOTE) == Done(closed, rest)
  {
    assert closed ==> TagEnd(closed, rest)[2..] == rest;
    assert !closed ==> TagEnd(closed, rest)[1..] == rest;
  }

  /** A close tag is one skipping step back out, if no white space follows its name. */
  lemma CloseTagSkipped(depth: nat, name: string, endGap: string, rest: string)
    requires depth > 0 && AnyName(name) && |name| < MAX_TOKEN && Blanks(endGap)
    ensures SkipStep(depth, CloseText(name, endGap) + rest)
         == if endGap == "" then Done(depth - 1, rest) else Fail(ExpectedByte('>', endGap[0]))
  {
    hide Ident;
    var tail := endGap + (">" + rest);
    assert CloseText(name, endGap) + rest == "</" + (name + tail);
    assert ("</" + (name + tail))[2..] == name + tail;
    NameReads(name, tail);
    assert tail[0] == if endGap == "" then '>' else endGap[0];
    assert endGap == "" ==> tail[1..] == rest;
  }

  lemma {:induction false} CharsSkipped(depth: nat, text: string, rest: string)
    requires depth > 0 && forall i :: 0 <= i < |text| ==> text[i] != '<'
    ensures SkipElement(depth, text + rest) == SkipElement(depth, rest)
  {
    if text == "" {
      assert text + rest == rest;
    } else {
      assert (text + rest)[1..] == text[1..] + rest;
      CharsSkipped(depth, text[1..], rest);
    }
  }

  lemma NestedShape(name: string, tag: string, kids: string, end: string, rest: string)
    ensures "<" + (name + (tag + (">" + (kids + end)))) + rest
         == "<" + (name + (tag + TagEnd(false, kids + (end + rest))))
  {
  }

  lemma LeafShape(name: string, tag: string, rest: string)
    ensures "<" + (name + (tag + "/>")) + rest == "<" + (name + (tag + TagEnd(true, rest)))
  {
  }

  /** The depth counter follows the tree: a whole subtree brings it back to where it was,
      at the byte after the subtree; a tree the parser does not take stops it. */
  lemma {:induction false} JunkSkipped(depth: nat, j: Junk, rest: string)
    requires depth > 0 && WellFormed(j)
    ensures if Skippable(j) then SkipElement(depth, Text(j) + rest) == SkipElement(depth, rest)
            else SkipElement(depth, Text(j) + rest).Fail?
    decreases j, 1
  {
    hide SkipStep, XAttrsText, TagText, TagEnd, CloseText;
    match j
    case Chars(text) => CharsSkipped(depth, text, rest);
    case Leaf(name, attrs, gap) =>
      LeafShape(name, TagText(attrs, gap), rest);
      StartTagSkipped(depth, name, attrs, gap, true, rest);
    case Nested(name, attrs, gap, kids, endGap) =>
      var end := CloseText(name, endGap) + rest;
      NestedShape(name, TagText(attrs, gap), TextAll(kids), CloseText(name, endGap), rest);
      StartTagSkipped(depth, name, attrs, gap, false, TextAll(kids) + end);
      AllSkipped(depth + 1, kids, end);
      if |name| < MAX_TOKEN {
        CloseTagSkipped(depth + 1, name, endGap, rest);
      }
  }

  lemma {:induction false} AllSkipped(depth: nat, js: seq<Junk>, rest: string)
    requires depth > 0 && forall i :: 0 <= i < |js| ==> WellFormed(js[i])
    ensures if forall i :: 0 <= i < |js| ==> Skippable(js[i])
            then SkipElement(depth, TextAll(js) + rest) == SkipElement(depth, rest)
            else SkipElement(depth, TextAll(js) + rest).Fail?
    decreases js, 0
  {
    hide SkipStep, Text, WellFormed, Skippable;
    if js == [] {
      assert TextAll(js) + rest == rest;
    } else {
      Assoc(Text(js[0]), TextAll(js[1..]), rest);
      JunkSkipped(depth, js[0], TextAll(js[1..]) + rest);
      AllSkipped(depth, js[1..], rest);
      assert (forall i :: 0 <= i < |js| ==> Skippable(js[i]))
        <==> Skippable(js[0]) && forall i :: 0 <= i < |js[1..]| ==> Skippable(js[1..][i]);
    }
  }

  // The outermost tag, whose attributes are parsed

  lemma {:induction false} PiecesRead(ps: seq<Piece>, quote: char, acc: string, rest: string)
    requires (quote == '\'' || quote == '"') && |acc| <= MAX_TOKEN
    requires forall i :: 0 <= i < |ps| ==> PieceOk(ps[i], quote)
    ensures QuotedBody(quote, PiecesText(ps) + ([quote] + rest), acc)
         == if |acc| + |ps| <= MAX_TOKEN then Done(acc + Value(ps), rest) else Fail(TokenTooLong)
  {
    hide EscapeChar, Entity, EntityOf, EntityName;
    if ps == [] {
      assert PiecesText(ps) + ([quote] + rest) == [quote] + rest;
      assert ([quote] + rest)[1..] == rest;
      assert acc + Value(ps) == acc;
    } else {
      var tail := PiecesText(ps[1..]) + ([quote] + rest);
      var s := PieceText(ps[0]) + tail;
      Assoc(PieceText(ps[0]), PiecesText(ps[1..]), [quote] + rest);
      assert PieceOk(ps[0], quote);
      EscapedChar(ps[0].c, tail);
      assert ps[0].Raw? ==> s[1..] == tail;
      if |acc| < MAX_TOKEN {
        PiecesRead(ps[1..], quote, acc + [ps[0].c], rest);
        assert acc + [ps[0].c] + Value(ps[1..]) == acc + Value(ps);
      }
    }
  }

  lemma {:induction false} GapRead(name: string, gap: string, rest: string, acc: seq<Attr>)
    requires Blanks(gap)
    ensures TagBody(name, gap + rest, acc) == TagBody(name, rest, acc)
    decreases |gap|
  {
    if gap == "" {
      assert gap + rest == rest;
    } else {
      assert (gap + rest)[1..] == gap[1..] + rest;
      GapRead(name, gap[1..], rest, acc);
    }
  }

  function AttrOf(a: XAttr): Attr {
    Grammar.Attr(a.name, Value(a.pieces))
  }

  /** Exactly the tight attributes are read. */
  lemma PairReads(a: XAttr, rest: string)
    requires XAttrOk(a)
    ensures var r := AttrPair(a.name +
            (a.before + ("=" + (a.after + ([a.quote] + (PiecesText(a.pieces) + ([a.quote] + rest)))))));
            if Tight(a) then r == Done(AttrOf(a), rest) else r.Fail?
  {
    hide PiecesText, Ident, QuotedBody, Value;
    var body := PiecesText(a.pieces) + ([a.quote] + rest);
    var value := a.after + ([a.quote] + body);
    var tail := a.before + ("=" + value);
    assert tail[0] == if a.before == "" then '=' else a.before[0];
    NameReads(a.name, tail);
    assert a.before == "" ==> tail[1..] == value;
    assert value[0] == if a.after == "" then a.quote else a.after[0];
    assert a.after == "" ==> value[1..] == body;
    PiecesRead(a.pieces, a.quote, "", rest);
    assert "" + Value(a.pieces) == Value(a.pieces);
  }

  lemma XAttrReads(name: string, a: XAttr, rest: string, acc: seq<Attr>)
    requires XAttrOk(a)
    ensures var r := TagBody(name, XAttrText(a) + rest, acc);
            if Tight(a) then r == TagBody(name, rest, acc + [AttrOf(a)]) else r.Fail?
  {
    hide AttrPair, AttrOf, PiecesText;
    var pair := a.name + (a.before + ("=" + (a.after + ([a.quote] + (PiecesText(a.pieces) + ([a.quote] + rest))))));
    assert XAttrText(a) + rest == a.gap + pair;
    GapRead(name, a.gap, pair, acc);
    assert IdentChar(pair[0]) by { assert pair[0] == a.name[0]; }
    PairReads(a, rest);
  }

  lemma {:induction false} XAttrsRead(name: string, attrs: seq<XAttr>, rest: string, acc: seq<Attr>)
    requires XAttrsOk(attrs)
    ensures var r := TagBody(name, XAttrsText(attrs) + rest, acc);
            if AllTight(attrs) then r == TagBody(name, rest, acc + Values(attrs)) else r.Fail?
  {
    hide XAttrText, TagBody, XAttrOk, Tight;
    if attrs == [] {
      assert XAttrsText(attrs) + rest == rest;
      assert acc + Values(attrs) == acc;
    } else {
      var a := AttrOf(attrs[0]);
      Assoc(XAttrText(attrs[0]), XAttrsText(attrs[1..]), rest);
      XAttrReads(name, attrs[0], XAttrsText(attrs[1..]) + rest, acc);
      XAttrsRead(name, attrs[1..], rest, acc + [a]);
      assert acc + [a] + Values(attrs[1..]) == acc + Values(attrs);
      assert AllTight(attrs) <==> Tight(attrs[0]) && AllTight(attrs[1..]);
    }
  }

  lemma XStartTagReads(name: string, attrs: seq<XAttr>, gap: string, closed: bool, rest: string)
    requires AnyName(name) && XAttrsOk(attrs) && Blanks(gap)
    ensures var r := StartTag("<" + (name + (TagText(attrs, gap) + TagEnd(closed, rest))));
            if |name| < MAX_TOKEN && AllTight(attrs) then r == Done(Tag(name, Values(attrs), closed), rest) else r.Fail?
  {
    hide XAttrsText, TagBody, XAttrsOk, Ident, Values, AllTight;
    var end := TagEnd(closed, rest);
    var body := TagText(attrs, gap) + end;
    TagTextStarts(attrs, gap, end);
    NameReads(name, body);
    assert ("<" + (name + body))[1..] == name + body;
    Assoc(XAttrsText(attrs), gap, end);
    XAttrsRead(name, attrs, gap + end, []);
    assert [] + Values(attrs) == Values(attrs);
    GapRead(name, gap, end, Values(attrs));
    TagEndReads(name, Values(attrs), closed, rest);
  }

  /** What an element's start tag leaves to skip. */
  function AfterTag(j: Junk, rest: string): string
    requires !j.Chars?
  {
    if j.Leaf? then rest else TextAll(j.kids) + (CloseText(j.name, j.endGap) + rest)
  }

  /** An element's start tag is read and its content skipped up to its own end; or the
      parser stops in it. */
  lemma ElementSkipped(j: Junk, rest: string)
    requires !j.Chars? && WellFormed(j)
    ensures Text(j) + rest == "<" + (j.name + (TagText(j.attrs, j.gap) + TagEnd(j.Leaf?, AfterTag(j, rest))))
    ensures var r := StartTag(Text(j) + rest);
            if Passable(j) then r.Done? && r.value.name == j.name && SkipBody(r.value, r.rest) == Done((), rest)
            else r.Fail? || (r.value.name == j.name && SkipBody(r.value, r.rest).Fail?)
  {
    hide XAttrsText, TagText, TagEnd, StartTag, SkipStep, CloseText, AllTight, XAttrsOk;
    match j
    case Leaf(name, attrs, gap) =>
      LeafShape(name, TagText(attrs, gap), rest);
      XStartTagReads(name, attrs, gap, true, rest);
    case Nested(name, attrs, gap, kids, endGap) =>
      var end := CloseText(name, endGap) + rest;
      NestedShape(name, TagText(attrs, gap), TextAll(kids), CloseText(name, endGap), rest);
      XStartTagReads(name, attrs, gap, false, TextAll(kids) + end);
      AllSkipped(1, kids, end);
      if |name| < MAX_TOKEN {
        CloseTagSkipped(1, name, endGap, rest);
      }
  }

  /** At top level the parse of the rest is unchanged, and one more element has been
      counted as unknown; unless the parser stops in it. */
  lemma UnknownElementSkipped(cfg: Config, j: Junk, rest: string, unknown: nat, sunk: seq<Delivery>)
    requires !j.Chars? && WellFormed(j) && Classify(j.name).UnknownForm?
    ensures var r := Next(cfg, Text(j) + rest, unknown, sunk);
            if Passable(j) then r == Next(cfg, rest, unknown + 1, sunk) else r.Fail?
  {
    hide Classify, Text, StartTag, SkipBody, Body, Passable;
    var s := Text(j) + rest;
    ElementSkipped(j, rest);
    assert s[1] == j.name[0];
    if Passable(j) {
      assert TopStep(cfg, s, unknown, sunk) == Done(Passed(unknown + 1), rest);
    } else {
      assert TopStep(cfg, s, unknown, sunk).Fail?;
    }
  }

  /** As a stray child it leaves the vector as it was, one more unknown counted. */
  lemma StrayChildSkipped(cfg: Config, v: Progress, close: string, child: string, j: Junk, rest: string)
    requires !j.Chars? && WellFormed(j) && j.name != child
    ensures var r := Members(cfg, v, close, child, Text(j) + rest);
            if Passable(j) then r == Members(cfg, v.(unknown := v.unknown + 1), close, child, rest) else r.Fail?
  {
    hide Text, StartTag, SkipElement, Passable;
    var s := Text(j) + rest;
    ElementSkipped(j, rest);
    assert s[1] == j.name[0];
    if Passable(j) {
      assert MemberStep(cfg, v, close, child, s) == Done(Added(v.(unknown := v.unknown + 1)), rest);
    } else {
      assert MemberStep(cfg, v, close, child, s).Fail?;
    }
  }
}
