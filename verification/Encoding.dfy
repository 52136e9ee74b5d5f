/** Server-direction messages: the text of definitions, updates, messages and
    deletions, with BLOB payloads supplied out of band. */
module Encoding {
  import opened Lists
  import opened Wire
  import opened Base64
  import Grammar

  /** Payloads by member name; a nil payload is an absent key. */
  type Payloads = map<string, seq<bv8>>

  function EscapeChar(c: char): string {
    if c == '&' then "&amp;"
    else if c == '<' then "&lt;"
    else if c == '>' then "&gt;"
    else if c == '\'' then "&apos;"
    else if c == '"' then "&quot;"
    else [c]
  }

  function Escape(s: string): string {
    if s == "" then "" else EscapeChar(s[0]) + Escape(s[1..])
  }

  lemma {:induction false} EscapeAppend(a: string, b: string)
    ensures Escape(a + b) == Escape(a) + Escape(b)
  {
    hide EscapeChar;
    if a == "" {
      assert a + b == b;
    } else {
      EscapeAppend(a[1..], b);
      assert (a + b)[1..] == a[1..] + b;
      Assoc(EscapeChar(a[0]), Escape(a[1..]), Escape(b));
    }
  }

  lemma {:induction false} EscapePlain(s: string)
    requires Plain(s)
    ensures Escape(s) == s
  {
    if s == "" {
    } else {
      assert PlainChar(s[0]);
      assert Plain(s[1..]);
      EscapePlain(s[1..]);
      assert [s[0]] + s[1..] == s;
    }
  }

  type Attr = Grammar.Attr

  /** An attribute that is written only when it has a value. */
  function Opt(name: string, value: string): seq<Attr> {
    if value == "" then [] else [Grammar.Attr(name, value)]
  }

  function AttrText(a: Attr): string {
    " " + a.name + "='" + Escape(a.value) + "'"
  }

  function AttrsText(attrs: seq<Attr>): string {
    if attrs == [] then "" else AttrText(attrs[0]) + AttrsText(attrs[1..])
  }

  lemma {:induction false} AttrsTextAppend(a: seq<Attr>, b: seq<Attr>)
    ensures AttrsText(a + b) == AttrsText(a) + AttrsText(b)
  {
    hide AttrText;
    if a == [] {
      assert a + b == b;
    } else {
      AttrsTextAppend(a[1..], b);
      assert (a + b)[1..] == a[1..] + b;
      Assoc(AttrText(a[0]), AttrsText(a[1..]), AttrsText(b));
    }
  }

  /** The letters between "def", "set" or "one" and "Vector". */
  function TypeTag(t: VType): string {
    match t
    case Number => "Number"
    case Switch => "Switch"
    case Text => "Text"
    case Light => "Light"
    case Blob => "BLOB"
  }

  function VectorTag(def: bool, t: VType): string {
    (if def then "def" else "set") + TypeTag(t) + "Vector"
  }

  function MemberTag(def: bool, t: VType): string {
    (if def then "def" else "one") + TypeTag(t)
  }

  function IdentityAttrs(el: Element, def: bool): seq<Attr> {
    Opt("device", el.device) + Opt("name", el.name)
    + (if def then Opt("label", el.labelText) + Opt("group", el.group) else [])
  }

  function StatusAttrs(el: Element, def: bool): seq<Attr> {
    Opt("state", StateText(el.state))
    + (if def then Opt("perm", PermText(el.perm)) + (if el.vtype == Switch then Opt("rule", RuleText(el.rule)) else [])
        else [])
  }

  function StampAttrs(el: Element): seq<Attr> {
    Opt("timestamp", el.timestamp) + Opt("message", el.message)
  }

  function VectorAttrList(el: Element, def: bool): seq<Attr> {
    IdentityAttrs(el, def) + StatusAttrs(el, def) + StampAttrs(el)
  }

  function RangeAttrs(n: NumText, m: Member): seq<Attr> {
    [Grammar.Attr("min", n.format(m.min)), Grammar.Attr("max", n.format(m.max)), Grammar.Attr("step", n.format(m.step))]
  }

  function Payload(m: Member, blobs: Payloads): seq<bv8> {
    if m.name in blobs then blobs[m.name] else m.data
  }

  /** The size attribute: the member's own, or the length of the payload supplied
      for it out of band. */
  function SizeOf(m: Member, blobs: Payloads): int {
    if m.size != 0 then m.size else if m.name in blobs then |blobs[m.name]| else 0
  }

  function MemberAttrList(n: NumText, t: VType, def: bool, m: Member, blobs: Payloads): seq<Attr> {
    [Grammar.Attr("name", m.name)]
    + (if def then Opt("label", m.labelText) + (if t == Number then Opt("format", m.format) + RangeAttrs(n, m) else [])
       else if t == Number && m.hasRange then RangeAttrs(n, m) else [])
    + (if t == Blob && !def then [Grammar.Attr("size", Dec(SizeOf(m, blobs)))] + Opt("format", m.blobFormat) else [])
  }

  /** The value of a member before escaping. */
  function MemberText(n: NumText, t: VType, m: Member): string {
    match t
    case Number => n.format(m.value)
    case Switch => if m.on then "On" else "Off"
    case Light => StateText(m.lightState)
    case _ => m.text
  }

  function MemberBody(n: NumText, t: VType, def: bool, m: Member, blobs: Payloads): string {
    if t == Blob then (if def then "" else Quanta(Payload(m, blobs)))
    else Escape(MemberText(n, t, m))
  }

  function MemberLine(n: NumText, t: VType, def: bool, m: Member, blobs: Payloads): string {
    "  <" + MemberTag(def, t) + AttrsText(MemberAttrList(n, t, def, m, blobs)) + ">"
    + (MemberBody(n, t, def, m, blobs) + ("</" + MemberTag(def, t) + ">\n"))
  }

  function MemberLines(n: NumText, t: VType, def: bool, members: seq<Member>, blobs: Payloads): string {
    if members == [] then ""
    else MemberLine(n, t, def, members[0], blobs) + MemberLines(n, t, def, members[1..], blobs)
  }

  function VectorText(n: NumText, el: Element, def: bool, blobs: Payloads): string {
    "<" + VectorTag(def, el.vtype) + AttrsText(VectorAttrList(el, def)) + ">\n"
    + MemberLines(n, el.vtype, def, el.members, blobs)
    + ("</" + VectorTag(def, el.vtype) + ">\n")
  }

  function MessageAttrList(el: Element): seq<Attr> {
    Opt("device", el.device) + StampAttrs(el)
  }

  function DelAttrList(el: Element): seq<Attr> {
    Opt("device", el.device) + Opt("name", el.name) + StampAttrs(el)
  }

  predicate IsServerKind(k: Kind) {
    k == KindDef || k == KindSet || k == KindMessage || k == KindDel
  }

  /** The wire form of a server message; None for the kinds only clients send. */
  function ElementText(n: NumText, el: Element, blobs: Payloads): (r: Option<string>)
    ensures r.Some? <==> IsServerKind(el.kind)
  {
    match el.kind
    case KindMessage => Some("<message" + AttrsText(MessageAttrList(el)) + "/>\n")
    case KindDel => Some("<delProperty" + AttrsText(DelAttrList(el)) + "/>\n")
    case KindDef => Some(VectorText(n, el, true, blobs))
    case KindSet => Some(VectorText(n, el, false, blobs))
    case _ => None
  }

  // The encoder itself appends to one builder.

  class Builder {
    var text: string

    constructor ()
      ensures text == ""
    {
      text := "";
    }

    method WriteString(s: string)
      modifies this
      ensures text == old(text) + s
    {
      text := text + s;
    }
  }

  method XmlEscape(sb: Builder, s: string)
    modifies sb
    ensures sb.text == old(sb.text) + Escape(s)
  {
    for i := 0 to |s|
      invariant sb.text == old(sb.text) + Escape(s[..i])
    {
      sb.WriteString(EscapeChar(s[i]));
      assert s[..i + 1] == s[..i] + [s[i]];
      EscapeAppend(s[..i], [s[i]]);
      assert Escape([s[i]]) == EscapeChar(s[i]);
      Assoc(old(sb.text), Escape(s[..i]), EscapeChar(s[i]));
    }
    assert s[..|s|] == s;
  }

  method OptAttr(sb: Builder, name: string, value: string)
    modifies sb
    ensures sb.text == old(sb.text) + AttrsText(Opt(name, value))
  {
    if value == "" {
      return;
    }
    hide Escape, AttrsText;
    sb.WriteString(" ");
    sb.WriteString(name);
    sb.WriteString("='");
    XmlEscape(sb, value);
    sb.WriteString("'");
    OptText(name, value);
    Regroup(old(sb.text), " ", name, "='", Escape(value), "'");
  }

  lemma Regroup(t: string, a: string, b: string, c: string, d: string, e: string)
    ensures t + a + b + c + d + e == t + (a + b + c + d + e)
  {
  }

  lemma OptText(name: string, value: string)
    requires value != ""
    ensures AttrsText(Opt(name, value)) == " " + name + "='" + Escape(value) + "'"
  {
    hide Escape;
    AttrsTextOne(Grammar.Attr(name, value));
  }

  lemma AttrsTextOne(a: Attr)
    ensures AttrsText([a]) == AttrText(a)
  {
  }

  lemma PlainAttrText(name: string, value: string)
    requires Plain(value)
    ensures AttrText(Grammar.Attr(name, value)) == " " + name + "='" + value + "'"
  {
    EscapePlain(value);
  }

  lemma RangeText(n: NumText, m: Member)
    requires n.Lawful()
    ensures AttrsText(RangeAttrs(n, m))
         == " min='" + n.format(m.min) + "'" + (" max='" + n.format(m.max) + "'" + (" step='" + n.format(m.step) + "'"))
  {
    hide AttrText;
    var a := RangeAttrs(n, m);
    PlainAttrText("min", n.format(m.min));
    PlainAttrText("max", n.format(m.max));
    PlainAttrText("step", n.format(m.step));
    assert a == [a[0]] + ([a[1]] + [a[2]]);
    AttrsTextAppend([a[0]], [a[1]] + [a[2]]);
    AttrsTextAppend([a[1]], [a[2]]);
    AttrsTextOne(a[0]);
    AttrsTextOne(a[1]);
    AttrsTextOne(a[2]);
  }

  /** The minimum, maximum and step, as numbers print. */
  method WriteRange(sb: Builder, n: NumText, m: Member)
    requires n.Lawful()
    modifies sb
    ensures sb.text == old(sb.text) + AttrsText(RangeAttrs(n, m))
  {
    RangeText(n, m);
    sb.WriteString(" min='" + n.format(m.min) + "'" +
        (" max='" + n.format(m.max) + "'" + (" step='" + n.format(m.step) + "'")));
  }

  method WriteMemberValue(sb: Builder, n: NumText, t: VType, def: bool, m: Member, blobs: Payloads)
    requires n.Lawful()
    modifies sb
    ensures sb.text == old(sb.text) + MemberBody(n, t, def, m, blobs)
  {
    match t {
      case Number =>
        EscapePlain(n.format(m.value));
        sb.WriteString(n.format(m.value));
      case Switch =>
        EscapePlain("On");
        EscapePlain("Off");
        if m.on {
          sb.WriteString("On");
        } else {
          sb.WriteString("Off");
        }
      case Light =>
        StateParsesBack(m.lightState);
        EscapePlain(StateText(m.lightState));
        sb.WriteString(StateText(m.lightState));
      case Blob =>
        if !def {
          var payload := if m.name in blobs then blobs[m.name] else m.data;
          if |payload| > 0 {
            sb.WriteString(Quanta(payload));
          }
        }
      case Text =>
        XmlEscape(sb, m.text);
    }
  }

  lemma Extend(start: string, attrs: seq<Attr>, more: seq<Attr>) returns (all: seq<Attr>)
    ensures all == attrs + more
    ensures start + AttrsText(all) == start + AttrsText(attrs) + AttrsText(more)
  {
    all := attrs + more;
    AttrsTextAppend(attrs, more);
    Assoc(start, AttrsText(attrs), AttrsText(more));
  }

  method WriteName(sb: Builder, name: string)
    modifies sb
    ensures sb.text == old(sb.text) + AttrsText([Grammar.Attr("name", name)])
  {
    sb.WriteString(" name='");
    XmlEscape(sb, name);
    sb.WriteString("'");
    AttrsTextOne(Grammar.Attr("name", name));
  }

  method WriteSize(sb: Builder, size: int)
    modifies sb
    ensures sb.text == old(sb.text) + AttrsText([Grammar.Attr("size", Dec(size))])
  {
    DecPlain(size);
    PlainAttrText("size", Dec(size));
    AttrsTextOne(Grammar.Attr("size", Dec(size)));
    sb.WriteString(" size='" + Dec(size) + "'");
  }

  /** The attributes of one member, in the order they are written. */
  method WriteMemberAttrs(sb: Builder, n: NumText, t: VType, def: bool, m: Member, blobs: Payloads)
    requires n.Lawful()
    modifies sb
    ensures sb.text == old(sb.text) + AttrsText(MemberAttrList(n, t, def, m, blobs))
  {
    hide AttrText, AttrsText;
    ghost var start := sb.text;
    ghost var attrs: seq<Attr> := [Grammar.Attr("name", m.name)];
    AttrsTextOne(Grammar.Attr("name", m.name));
    WriteName(sb, m.name);
    if def {
      OptAttr(sb, "label", m.labelText);
      attrs := Extend(start, attrs, Opt("label", m.labelText));
      if t == Number {
        OptAttr(sb, "format", m.format);
        attrs := Extend(start, attrs, Opt("format", m.format));
        WriteRange(sb, n, m);
        attrs := Extend(start, attrs, RangeAttrs(n, m));
      }
    } else if t == Number && m.hasRange {
      WriteRange(sb, n, m);
      attrs := Extend(start, attrs, RangeAttrs(n, m));
    }
    if t == Blob && !def {
      var size := if m.size != 0 then m.size else if m.name in blobs then |blobs[m.name]| else 0;
      WriteSize(sb, size);
      attrs := Extend(start, attrs, [Grammar.Attr("size", Dec(size))]);
      OptAttr(sb, "format", m.blobFormat);
      attrs := Extend(start, attrs, Opt("format", m.blobFormat));
    }
    assert attrs == MemberAttrList(n, t, def, m, blobs);
  }

  method WriteMember(sb: Builder, n: NumText, t: VType, def: bool, m: Member, blobs: Payloads)
    requires n.Lawful()
    modifies sb
    ensures sb.text == old(sb.text) + MemberLine(n, t, def, m, blobs)
  {
    hide AttrsText, MemberAttrList, MemberBody, MemberTag;
    var tag := MemberTag(def, t);
    sb.WriteString("  <");
    sb.WriteString(tag);
    WriteMemberAttrs(sb, n, t, def, m, blobs);
    sb.WriteString(">");
    WriteMemberValue(sb, n, t, def, m, blobs);
    sb.WriteString("</");
    sb.WriteString(tag);
    sb.WriteString(">\n");
  }

  lemma {:induction false} MemberLinesAppend(
      n: NumText, t: VType, def: bool, ms: seq<Member>, m: Member, blobs: Payloads)
    ensures MemberLines(n, t, def, ms + [m], blobs)
         == MemberLines(n, t, def, ms, blobs) + MemberLine(n, t, def, m, blobs)
  {
    hide MemberLine;
    if ms == [] {
      assert ms + [m] == [m];
      assert MemberLines(n, t, def, [], blobs) == "";
    } else {
      MemberLinesAppend(n, t, def, ms[1..], m, blobs);
      assert (ms + [m])[1..] == ms[1..] + [m];
      Assoc(MemberLine(n, t, def, ms[0], blobs), MemberLines(n, t, def, ms[1..], blobs),
          MemberLine(n, t, def, m, blobs));
    }
  }

  method WriteIdentity(sb: Builder, el: Element, def: bool)
    modifies sb
    ensures sb.text == old(sb.text) + AttrsText(IdentityAttrs(el, def))
  {
    hide AttrText, AttrsText;
    ghost var start := sb.text;
    OptAttr(sb, "device", el.device);
    OptAttr(sb, "name", el.name);
    ghost var attrs := Extend(start, Opt("device", el.device), Opt("name", el.name));
    if def {
      OptAttr(sb, "label", el.labelText);
      OptAttr(sb, "group", el.group);
      ghost var more := Extend("", Opt("label", el.labelText), Opt("group", el.group));
      Assoc(start + AttrsText(attrs), AttrsText(Opt("label", el.labelText)), AttrsText(Opt("group", el.group)));
      AttrsTextAppend(Opt("label", el.labelText), Opt("group", el.group));
      attrs := Extend(start, attrs, more);
    }
    assert attrs == IdentityAttrs(el, def);
  }

  method WriteStatus(sb: Builder, el: Element, def: bool)
    modifies sb
    ensures sb.text == old(sb.text) + AttrsText(StatusAttrs(el, def))
  {
    hide AttrText, AttrsText;
    ghost var start := sb.text;
    ghost var attrs := Opt("state", StateText(el.state));
    OptAttr(sb, "state", StateText(el.state));
    if def {
      OptAttr(sb, "perm", PermText(el.perm));
      attrs := Extend(start, attrs, Opt("perm", PermText(el.perm)));
      if el.vtype == Switch {
        OptAttr(sb, "rule", RuleText(el.rule));
        attrs := Extend(start, attrs, Opt("rule", RuleText(el.rule)));
      }
    }
    assert attrs == StatusAttrs(el, def);
  }

  method WriteStamps(sb: Builder, el: Element)
    modifies sb
    ensures sb.text == old(sb.text) + AttrsText(StampAttrs(el))
  {
    hide AttrText, AttrsText;
    ghost var start := sb.text;
    OptAttr(sb, "timestamp", el.timestamp);
    OptAttr(sb, "message", el.message);
    ghost var attrs := Extend(start, Opt("timestamp", el.timestamp), Opt("message", el.message));
  }

  method WriteVectorAttrs(sb: Builder, el: Element, def: bool)
    modifies sb
    ensures sb.text == old(sb.text) + AttrsText(VectorAttrList(el, def))
  {
    hide AttrsText, IdentityAttrs, StatusAttrs, StampAttrs;
    ghost var start := sb.text;
    WriteIdentity(sb, el, def);
    WriteStatus(sb, el, def);
    ghost var attrs := Extend(start, IdentityAttrs(el, def), StatusAttrs(el, def));
    WriteStamps(sb, el);
    attrs := Extend(start, attrs, StampAttrs(el));
  }

  method WriteMembers(sb: Builder, n: NumText, t: VType, def: bool, members: seq<Member>, blobs: Payloads)
    requires n.Lawful()
    modifies sb
    ensures sb.text == old(sb.text) + MemberLines(n, t, def, members, blobs)
  {
    hide MemberLine;
    ghost var head := sb.text;
    for i := 0 to |members|
      invariant sb.text == head + MemberLines(n, t, def, members[..i], blobs)
    {
      WriteMember(sb, n, t, def, members[i], blobs);
      MemberLinesAppend(n, t, def, members[..i], members[i], blobs);
      assert members[..i + 1] == members[..i] + [members[i]];
    }
    assert members[..|members|] == members;
  }

  method EncodeVector(sb: Builder, n: NumText, el: Element, blobs: Payloads, def: bool)
    requires n.Lawful() && sb.text == ""
    modifies sb
    ensures sb.text == VectorText(n, el, def, blobs)
  {
    hide AttrsText, VectorAttrList, MemberLines, MemberLine, VectorTag, NumText.Lawful;
    var tag := VectorTag(def, el.vtype);
    sb.WriteString("<");
    sb.WriteString(tag);
    WriteVectorAttrs(sb, el, def);
    sb.WriteString(">\n");
    WriteMembers(sb, n, el.vtype, def, el.members, blobs);
    WriteClose(sb, tag);
  }

  method WriteClose(sb: Builder, tag: string)
    modifies sb
    ensures sb.text == old(sb.text) + ("</" + tag + ">\n")
  {
    sb.WriteString("</");
    sb.WriteString(tag);
    sb.WriteString(">\n");
  }

  method EncodeMessage(sb: Builder, el: Element)
    requires sb.text == ""
    modifies sb
    ensures sb.text == "<message" + AttrsText(MessageAttrList(el)) + "/>\n"
  {
    hide AttrsText, StampAttrs;
    sb.WriteString("<message");
    ghost var start := sb.text;
    OptAttr(sb, "device", el.device);
    WriteStamps(sb, el);
    ghost var attrs := Extend(start, Opt("device", el.device), StampAttrs(el));
    sb.WriteString("/>\n");
  }

  method EncodeDel(sb: Builder, el: Element)
    requires sb.text == ""
    modifies sb
    ensures sb.text == "<delProperty" + AttrsText(DelAttrList(el)) + "/>\n"
  {
    hide AttrsText, StampAttrs;
    sb.WriteString("<delProperty");
    ghost var start := sb.text;
    OptAttr(sb, "device", el.device);
    OptAttr(sb, "name", el.name);
    ghost var attrs := Extend(start, Opt("device", el.device), Opt("name", el.name));
    WriteStamps(sb, el);
    attrs := Extend(start, attrs, StampAttrs(el));
    sb.WriteString("/>\n");
  }

  /** EncodeElement with no payloads and EncodeBlobElement with some. */
  method EncodeElement(n: NumText, el: Element, blobs: Payloads) returns (r: Option<string>)
    requires n.Lawful()
    ensures r == ElementText(n, el, blobs)
  {
    hide AttrsText, VectorText;
    var sb := new Builder();
    match el.kind {
      case KindMessage =>
        EncodeMessage(sb, el);
      case KindDel =>
        EncodeDel(sb, el);
      case KindDef =>
        EncodeVector(sb, n, el, blobs, true);
      case KindSet =>
        EncodeVector(sb, n, el, blobs, false);
      case _ =>
        return None;
    }
    return Some(sb.text);
  }

  /** The answer to a ping. */
  function PingReplyText(uid: string): string {
    "<pingReply" + AttrsText(Opt("uid", uid)) + "/>\n"
  }

  method EncodePingReply(uid: string) returns (s: string)
    ensures s == PingReplyText(uid)
  {
    hide AttrsText;
    var sb := new Builder();
    sb.WriteString("<pingReply");
    OptAttr(sb, "uid", uid);
    sb.WriteString("/>\n");
    return sb.text;
  }
}
