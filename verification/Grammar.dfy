/** The grammar of the parser, as functions of the whole unread byte string.
    No buffer appears here; module Parsing proves the buffered parser equal to this. */
module Grammar {
  import opened Wire
  import opened Base64

  /** What a scan yields: a value and the input after it, or the error it stops on. */
  datatype Scan<+T> = Done(value: T, rest: string) | Fail(error: Error) {
    predicate IsFailure() { Fail? }
    function PropagateFailure<U>(): Scan<U>
      requires Fail?
    {
      Fail(error)
    }
    function Extract(): (T, string)
      requires Done?
    {
      (value, rest)
    }
  }

  datatype Attr = Attr(name: string, value: string)
  datatype Tag = Tag(name: string, attrs: seq<Attr>, selfClosed: bool)

  /** What the sink chooser is shown of an in-stream BLOB. */
  datatype BlobMeta = BlobMeta(device: string, property: string, member: string, format: string, size: int)
  datatype Delivery = Delivery(meta: BlobMeta, payload: seq<bv8>)

  /** How a parser is set up: the number text it uses, which BLOBs go to a sink, and
      whether stray text between elements goes to a diagnostics callback. */
  datatype Config = Config(numbers: NumText, routed: BlobMeta -> bool, diagnostics: bool)

  /** An element under construction, with the parser's running side counts. */
  datatype Progress = Progress(el: Element, unknown: nat, sunk: seq<Delivery>)

  // Bytes, identifiers and quoted text

  predicate Blank?(b: char) { b == ' ' || b == '\t' || b == '\r' || b == '\n' }

  predicate IdentChar(b: char) {
    'a' <= b <= 'z' || 'A' <= b <= 'Z' || '0' <= b <= '9' || b == '-' || b == '_'
  }

  /** The length of the identifier that s starts with. */
  function IdentRun(s: string): (n: nat)
    ensures n <= |s|
    ensures forall i :: 0 <= i < n ==> IdentChar(s[i])
    ensures n < |s| ==> !IdentChar(s[n])
  {
    if s == "" || !IdentChar(s[0]) then 0 else 1 + IdentRun(s[1..])
  }

  /** An identifier must be ended by another byte within MAX_TOKEN bytes. */
  function Ident(s: string): (r: Scan<string>)
    ensures r.Done? ==> |r.rest| < |s|
  {
    var n := IdentRun(s);
    if n >= MAX_TOKEN then Fail(TokenTooLong)
    else if n == |s| then Fail(ReadError)
    else if n == 0 then Fail(ExpectedIdent(s[0]))
    else Done(s[..n], s[n..])
  }

  function Expect(want: char, s: string): (r: Scan<()>)
    ensures r.Done? ==> |r.rest| < |s|
  {
    if s == "" then Fail(ReadError)
    else if s[0] != want then Fail(ExpectedByte(want, s[0]))
    else Done((), s[1..])
  }

  /** The name of an entity, up to and including its ';'. */
  function EntityName(s: string, name: string): (r: Scan<string>)
    requires |name| <= 6
    ensures r.Done? ==> |r.rest| < |s|
    decreases |s|
  {
    if s == "" then Fail(ReadError)
    else if s[0] == ';' then Done(name, s[1..])
    else if |name| == 6 then Fail(OversizedEntity)
    else EntityName(s[1..], name + [s[0]])
  }

  /** The predefined entities, section 4.6 of XML 1.0. */
  function EntityChar(name: string): Option<char> {
    if name == "amp" then Some('&')
    else if name == "lt" then Some('<')
    else if name == "gt" then Some('>')
    else if name == "quot" then Some('"')
    else if name == "apos" then Some('\'')
    else None
  }

  function Entity(s: string): (r: Scan<char>)
    ensures r.Done? ==> |r.rest| < |s|
  {
    var (name, s1) :- EntityName(s, "");
    match EntityChar(name)
    case None => Fail(UnknownEntity(name))
    case Some(c) => Done(c, s1)
  }

  function QuotedBody(q: char, s: string, acc: string): (r: Scan<string>)
    ensures r.Done? ==> |r.rest| < |s|
    ensures r.Done? && |acc| <= MAX_TOKEN ==> |r.value| <= MAX_TOKEN
    decreases |s|
  {
    if s == "" then Fail(ReadError)
    else if s[0] == q then Done(acc, s[1..])
    else if s[0] == '&' then
      var (c, s1) :- Entity(s[1..]);
      if |acc| + 1 > MAX_TOKEN then Fail(TokenTooLong) else QuotedBody(q, s1, acc + [c])
    else if |acc| + 1 > MAX_TOKEN then Fail(TokenTooLong)
    else QuotedBody(q, s[1..], acc + [s[0]])
  }

  function Quoted(s: string): (r: Scan<string>)
    ensures r.Done? ==> |r.rest| < |s| && |r.value| <= MAX_TOKEN
  {
    if s == "" then Fail(ReadError)
    else if s[0] != '\'' && s[0] != '"' then Fail(ExpectedQuote(s[0]))
    else QuotedBody(s[0], s[1..], "")
  }

  // Tags

  function AttrPair(s: string): (r: Scan<Attr>)
    ensures r.Done? ==> |r.rest| < |s| && |r.value.value| <= MAX_TOKEN
  {
    var (name, s1) :- Ident(s);
    var (_, s2) :- Expect('=', s1);
    var (value, s3) :- Quoted(s2);
    Done(Attr(name, value), s3)
  }

  function TagBody(name: string, s: string, attrs: seq<Attr>): (r: Scan<Tag>)
    ensures r.Done? ==> |r.rest| < |s| && r.value.name == name
    ensures r.Done? && Bounded(attrs) ==> Bounded(r.value.attrs)
    decreases |s|
  {
    if s == "" then Fail(ReadError)
    else if Blank?(s[0]) then TagBody(name, s[1..], attrs)
    else if s[0] == '>' then Done(Tag(name, attrs, false), s[1..])
    else if s[0] == '/' then
      if |s| > 1 && s[1] == '>' then Done(Tag(name, attrs, true), s[2..]) else Fail(MalformedSelfClose(name))
    else
      var (a, s1) :- AttrPair(s);
      TagBody(name, s1, attrs + [a])
  }

  predicate Bounded(attrs: seq<Attr>) {
    forall i :: 0 <= i < |attrs| ==> |attrs[i].value| <= MAX_TOKEN
  }

  function StartTag(s: string): (r: Scan<Tag>)
    ensures r.Done? ==> |r.rest| < |s| && Bounded(r.value.attrs)
  {
    var (_, s1) :- Expect('<', s);
    var (name, s2) :- Ident(s1);
    TagBody(name, s2, [])
  }

  function CloseTag(s: string): (r: Scan<string>)
    ensures r.Done? ==> |r.rest| < |s|
  {
    var (_, s1) :- Expect('<', s);
    var (_, s2) :- Expect('/', s1);
    var (name, s3) :- Ident(s2);
    var (_, s4) :- Expect('>', s3);
    Done(name, s4)
  }

  /** Text up to the close tag of the given name, which is consumed too. */
  function TextUntilClose(tag: string, s: string, acc: string): (r: Scan<string>)
    ensures r.Done? ==> |r.rest| < |s|
    ensures r.Done? && |acc| <= MAX_TOKEN ==> |r.value| <= MAX_TOKEN
    decreases |s|
  {
    if s == "" then Fail(ReadError)
    else if s[0] == '<' then
      var (name, s1) :- CloseTag(s);
      if name != tag then Fail(WrongClose(tag, name)) else Done(acc, s1)
    else if s[0] == '&' then
      var (c, s1) :- Entity(s[1..]);
      if |acc| + 1 > MAX_TOKEN then Fail(TokenTooLong) else TextUntilClose(tag, s1, acc + [c])
    else if |acc| + 1 > MAX_TOKEN then Fail(TokenTooLong)
    else TextUntilClose(tag, s[1..], acc + [s[0]])
  }

  // Skipping

  const NO_QUOTE := '\0'

  /** The rest of a tag being skipped; true when it closes itself. */
  function FinishTag(s: string, inQuote: char): (r: Scan<bool>)
    ensures r.Done? ==> |r.rest| < |s|
    decreases |s|
  {
    if s == "" then Fail(ReadError)
    else if inQuote != NO_QUOTE then FinishTag(s[1..], if s[0] == inQuote then NO_QUOTE else inQuote)
    else if s[0] == '\'' || s[0] == '"' then FinishTag(s[1..], s[0])
    else if s[0] == '>' then Done(false, s[1..])
    else if s[0] == '/' then
      if |s| == 1 then Fail(ReadError)
      else if s[1] == '>' then Done(true, s[2..])
      else FinishTag(s[1..], NO_QUOTE)
    else FinishTag(s[1..], NO_QUOTE)
  }

  /** One step of skipping: past a byte of text, or past one whole tag. The value
      is the nesting depth afterwards. */
  function SkipStep(depth: nat, s: string): (r: Scan<nat>)
    requires depth > 0
    ensures r.Done? ==> |r.rest| < |s|
  {
    if s == "" then Fail(ReadError)
    else if s[0] != '<' then Done(depth, s[1..])
    else if |s| == 1 then Fail(ReadError)
    else if s[1] == '/' then
      var (_, s1) :- Ident(s[2..]);
      var (_, s2) :- Expect('>', s1);
      Done(depth - 1, s2)
    else
      var (_, s1) :- Ident(s[1..]);
      var (closed, s2) :- FinishTag(s1, NO_QUOTE);
      Done(if closed then depth else depth + 1, s2)
  }

  /** Discard the content of an element open at the given depth. */
  function SkipElement(depth: nat, s: string): (r: Scan<()>)
    ensures r.Done? ==> |r.rest| <= |s|
    decreases |s|
  {
    if depth == 0 then Done((), s)
    else
      var (depth', s1) :- SkipStep(depth, s);
      SkipElement(depth', s1)
  }

  function SkipToTag(s: string): (r: Scan<()>)
    ensures r.Done? ==> |r.rest| <= |s| && r.rest != "" && r.rest[0] == '<'
  {
    if s == "" then Fail(ReadError)
    else if s[0] == '<' then Done((), s)
    else if Blank?(s[0]) then SkipToTag(s[1..])
    else Fail(UnexpectedByte(s[0]))
  }

  /** The rest of a line of stray text, up to the next tag at most. */
  function SkipLine(s: string): (r: Scan<()>)
    ensures r.Done? ==> |r.rest| <= |s|
  {
    if s == "" then Fail(ReadError)
    else if s[0] == '<' then Done((), s)
    else if s[0] == '\n' then Done((), s[1..])
    else SkipLine(s[1..])
  }

  /** The next tag at top level, where stray text may be a diagnostic. */
  function SkipToTop(diagnostics: bool, s: string): (r: Scan<()>)
    ensures r.Done? ==> |r.rest| <= |s| && r.rest != "" && r.rest[0] == '<'
    decreases |s|
  {
    if s == "" then Fail(ReadError)
    else if s[0] == '<' then Done((), s)
    else if Blank?(s[0]) then SkipToTop(diagnostics, s[1..])
    else if !diagnostics then Fail(UnexpectedByte(s[0]))
    else
      var (_, s1) :- SkipLine(s[1..]);
      SkipToTop(diagnostics, s1)
  }

  /** A processing instruction, after its "<?". */
  function SkipPI(s: string, prev: char): (r: Scan<()>)
    ensures r.Done? ==> |r.rest| < |s|
    decreases |s|
  {
    if s == "" then Fail(ReadError)
    else if prev == '?' && s[0] == '>' then Done((), s[1..])
    else SkipPI(s[1..], s[0])
  }

  predicate AtPI(s: string) { |s| >= 2 && s[0] == '<' && s[1] == '?' }
  predicate AtClose(s: string) { |s| >= 2 && s[0] == '<' && s[1] == '/' }

  // BLOB content

  predicate TakesSink(cfg: Config, e: Element, m: Member) {
    !m.attached && cfg.routed(BlobMeta(e.device, e.name, m.name, m.blobFormat, m.size))
  }

  /** Base64 up to the close tag; quad holds the characters of an unfinished quantum. */
  function BlobContent(closeTag: string, s: string, quad: string, acc: seq<bv8>): (r: Scan<seq<bv8>>)
    requires |quad| < 4
    ensures r.Done? ==> |r.rest| < |s|
    decreases |s|
  {
    if s == "" then Fail(ReadError)
    else if s[0] == '<' then
      var (name, s1) :- CloseTag(s);
      if name != closeTag then Fail(WrongClose(closeTag, name))
      else if quad != "" then Fail(TruncatedBase64(|quad|))
      else Done(acc, s1)
    else if Blank?(s[0]) then BlobContent(closeTag, s[1..], quad, acc)
    else if |quad| < 3 then BlobContent(closeTag, s[1..], quad + [s[0]], acc)
    else match DecodeQuad(quad + [s[0]])
         case Bad(e) => Fail(e)
         case Bytes(bs) => BlobContent(closeTag, s[1..], "", acc + bs)
  }

  /** The bytes handed on, to a sink or to the member, before the content ends or fails. */
  function Poured(s: string, quad: string, acc: seq<bv8>): seq<bv8>
    requires |quad| < 4
  {
    if s == "" || s[0] == '<' then acc
    else if Blank?(s[0]) then Poured(s[1..], quad, acc)
    else if |quad| < 3 then Poured(s[1..], quad + [s[0]], acc)
    else match DecodeQuad(quad + [s[0]])
         case Bad(_) => acc
         case Bytes(bs) => Poured(s[1..], "", acc + bs)
  }

  // Vectors

  function SetVectorAttr(e: Element, a: Attr): Element {
    if a.name == "device" then e.(device := a.value)
    else if a.name == "name" then e.(name := a.value)
    else if a.name == "label" then e.(labelText := a.value)
    else if a.name == "group" then e.(group := a.value)
    else if a.name == "state" then e.(state := ParseState(a.value))
    else if a.name == "perm" then e.(perm := ParsePerm(a.value))
    else if a.name == "rule" then e.(rule := ParseRule(a.value))
    else if a.name == "timestamp" then e.(timestamp := a.value)
    else if a.name == "message" then e.(message := a.value)
    else e
  }

  function VectorAttrs(e: Element, attrs: seq<Attr>): Element
    decreases |attrs|
  {
    if attrs == [] then e else VectorAttrs(SetVectorAttr(e, attrs[0]), attrs[1..])
  }

  function SetMemberAttr(n: NumText, t: VType, m: Member, a: Attr): Member {
    if a.name == "name" then m.(name := a.value)
    else if a.name == "label" then m.(labelText := a.value)
    else if a.name == "min" then m.(min := n.parse(a.value), hasRange := true)
    else if a.name == "max" then m.(max := n.parse(a.value), hasRange := true)
    else if a.name == "step" then m.(step := n.parse(a.value), hasRange := true)
    else if a.name == "format" then
      if t == Blob then m.(blobFormat := a.value) else m.(format := a.value)
    else if a.name == "size" then m.(size := ParseInt64(a.value))
    else if a.name == "attached" then m.(attached := a.value == "true")
    else m
  }

  function MemberAttrs(n: NumText, t: VType, m: Member, attrs: seq<Attr>): Member
    decreases |attrs|
  {
    if attrs == [] then m else MemberAttrs(n, t, SetMemberAttr(n, t, m, attrs[0]), attrs[1..])
  }

  function MemberValue(n: NumText, t: VType, m: Member, text: string): Member {
    var trimmed := TrimSpace(text);
    var m := m.(text := trimmed);
    match t
    case Number => m.(value := n.parse(trimmed))
    case Switch => m.(on := trimmed == "On")
    case Light => m.(lightState := ParseState(trimmed))
    case _ => m
  }

  function AddMember(v: Progress, m: Member): Progress {
    v.(el := v.el.(members := v.el.members + [m]))
  }

  function AddBlob(cfg: Config, v: Progress, m: Member, payload: seq<bv8>): Progress {
    if TakesSink(cfg, v.el, m) then
      var meta := BlobMeta(v.el.device, v.el.name, m.name, m.blobFormat, m.size);
      AddMember(v, m).(sunk := v.sunk + [Delivery(meta, payload)])
    else AddMember(v, m.(data := payload))
  }

  /** What one child of a vector adds, its start tag read already. */
  function OneMember(cfg: Config, v: Progress, tag: Tag, childTag: string, s: string): (r: Scan<Progress>)
    ensures r.Done? ==> |r.rest| <= |s|
  {
    if tag.name != childTag then
      var v := v.(unknown := v.unknown + 1);
      if tag.selfClosed then Done(v, s)
      else
        var (_, s1) :- SkipElement(1, s);
        Done(v, s1)
    else if |v.el.members| >= MAX_MEMBERS then Fail(TooManyMembers)
    else
      var m := MemberAttrs(cfg.numbers, v.el.vtype, NO_MEMBER, tag.attrs);
      if tag.selfClosed then Done(AddMember(v, m), s)
      else if v.el.vtype == Blob then
        var (payload, s1) :- BlobContent(childTag, s, "", []);
        Done(AddBlob(cfg, v, m, payload), s1)
      else
        var (text, s1) :- TextUntilClose(childTag, s, "");
        Done(AddMember(v, MemberValue(cfg.numbers, v.el.vtype, m, text)), s1)
  }

  /** Whether a vector goes on after one more child or is closed. */
  datatype Child = Closed | Added(after: Progress)

  function MemberStep(cfg: Config, v: Progress, closeTag: string, childTag: string, s: string): (r: Scan<Child>)
    ensures r.Done? ==> |r.rest| < |s|
  {
    var (_, s1) :- SkipToTag(s);
    if AtClose(s1) then
      var (name, s2) :- CloseTag(s1);
      if name != closeTag then Fail(WrongClose(closeTag, name)) else Done(Closed, s2)
    else
      var (tag, s2) :- StartTag(s1);
      var (v', s3) :- OneMember(cfg, v, tag, childTag, s2);
      Done(Added(v'), s3)
  }

  function Members(cfg: Config, v: Progress, closeTag: string, childTag: string, s: string): (r: Scan<Progress>)
    ensures r.Done? ==> |r.rest| < |s|
    decreases |s|
  {
    var (child, s1) :- MemberStep(cfg, v, closeTag, childTag, s);
    match child
    case Closed => Done(v, s1)
    case Added(v') => Members(cfg, v', closeTag, childTag, s1)
  }

  // Top-level elements

  datatype Form =
    | VectorForm(kind: Kind, vtype: VType, child: string)
    | PlainForm(kind: Kind)
    | ModeForm
    | PingForm(kind: Kind)
    | UnknownForm

  function VTypeOf(s: string): Option<VType> {
    if s == "Number" then Some(Number)
    else if s == "Switch" then Some(Switch)
    else if s == "Text" then Some(Text)
    else if s == "Light" then Some(Light)
    else if s == "BLOB" then Some(Blob)
    else None
  }

  predicate IsVectorTag(prefix: string, name: string) {
    prefix <= name && |name| >= 6 && name[|name| - 6..] == "Vector"
  }

  /** Cutting name[3..|name| - 6] is safe: no three-letter prefix overlaps "Vector". */
  lemma VectorTagLength(prefix: string, name: string)
    requires prefix == "def" || prefix == "set" || prefix == "new"
    requires IsVectorTag(prefix, name)
    ensures |name| >= 9
  {
    assert forall i :: 0 <= i < 3 ==> name[i] == prefix[i] && prefix[i] != 'V';
    assert name[|name| - 6] == name[|name| - 6..][0] == 'V';
  }

  function VectorTagForm(kind: Kind, childPrefix: string, name: string): Form
    requires |name| >= 9
  {
    var middle := name[3..|name| - 6];
    match VTypeOf(middle)
    case None => UnknownForm
    case Some(t) => VectorForm(kind, t, childPrefix + middle)
  }

  function Classify(name: string): Form {
    if IsVectorTag("def", name) then VectorTagLength("def", name); VectorTagForm(KindDef, "def", name)
    else if IsVectorTag("set", name) then VectorTagLength("set", name); VectorTagForm(KindSet, "one", name)
    else if IsVectorTag("new", name) then VectorTagLength("new", name); VectorTagForm(KindNew, "one", name)
    else if name == "message" then PlainForm(KindMessage)
    else if name == "delProperty" then PlainForm(KindDel)
    else if name == "getProperties" then PlainForm(KindGetProps)
    else if name == "enableBLOB" then ModeForm
    else if name == "pingRequest" then PingForm(KindPing)
    else if name == "pingReply" then PingForm(KindPingReply)
    else UnknownForm
  }

  function AttrVal(attrs: seq<Attr>, name: string): string {
    if attrs == [] then ""
    else if attrs[0].name == name then attrs[0].value
    else AttrVal(attrs[1..], name)
  }

  /** Skip the content of an element unless its start tag closed it. */
  function SkipBody(tag: Tag, s: string): (r: Scan<()>)
    ensures r.Done? ==> |r.rest| <= |s|
  {
    if tag.selfClosed then Done((), s) else SkipElement(1, s)
  }

  /** The element a recognised start tag begins. */
  function Body(cfg: Config, tag: Tag, s: string, unknown: nat, sunk: seq<Delivery>): (r: Scan<Progress>)
    requires !Classify(tag.name).UnknownForm?
    ensures r.Done? ==> |r.rest| <= |s|
  {
    match Classify(tag.name)
    case VectorForm(kind, t, child) =>
      var v := Progress(VectorAttrs(Blank(kind, t), tag.attrs), unknown, sunk);
      if tag.selfClosed then Done(v, s) else Members(cfg, v, tag.name, child, s)
    case PlainForm(kind) =>
      var (_, s1) :- SkipBody(tag, s);
      Done(Progress(VectorAttrs(Blank(kind, Number), tag.attrs), unknown, sunk), s1)
    case ModeForm =>
      var e := VectorAttrs(Blank(KindEnableBLOB, Number), tag.attrs);
      if tag.selfClosed then Done(Progress(e, unknown, sunk), s)
      else
        var (text, s1) :- TextUntilClose(tag.name, s, "");
        Done(Progress(e.(message := text), unknown, sunk), s1)
    case PingForm(kind) =>
      var (_, s1) :- SkipBody(tag, s);
      Done(Progress(Blank(kind, Number).(name := AttrVal(tag.attrs, "uid")), unknown, sunk), s1)
  }

  /** One turn at the top level: an instruction or an unknown element is passed
      over, the latter counted, or an element is found. */
  datatype Turn = Passed(unknown: nat) | Found(progress: Progress)

  function TagStep(cfg: Config, tag: Tag, s: string, unknown: nat, sunk: seq<Delivery>): (r: Scan<Turn>)
    ensures r.Done? ==> |r.rest| <= |s|
  {
    if Classify(tag.name).UnknownForm? then
      var (_, s1) :- SkipBody(tag, s);
      Done(Passed(unknown + 1), s1)
    else
      var (v, s1) :- Body(cfg, tag, s, unknown, sunk);
      Done(Found(v), s1)
  }

  function TopStep(cfg: Config, s: string, unknown: nat, sunk: seq<Delivery>): (r: Scan<Turn>)
    ensures r.Done? ==> |r.rest| < |s|
  {
    var (_, s1) :- SkipToTop(cfg.diagnostics, s);
    if AtPI(s1) then
      var (_, s2) :- SkipPI(s1[2..], '\0');
      Done(Passed(unknown), s2)
    else
      var (tag, s2) :- StartTag(s1);
      TagStep(cfg, tag, s2, unknown, sunk)
  }

  /** The next top-level element, given the counts so far. */
  function Next(cfg: Config, s: string, unknown: nat, sunk: seq<Delivery>): (r: Scan<Progress>)
    ensures r.Done? ==> |r.rest| < |s|
    decreases |s|
  {
    var (turn, s1) :- TopStep(cfg, s, unknown, sunk);
    match turn
    case Passed(n) => Next(cfg, s1, n, sunk)
    case Found(v) => Done(v, s1)
  }
}
