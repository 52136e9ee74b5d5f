/** What the encoder writes, the parser reads back: the codec round trip. */
module RoundTrip {
  import opened Lists
  import opened Wire
  import opened Base64
  import opened Grammar
  import opened Encoding
  import BlobStream

  // Escaped text

  lemma {:induction false} EntityNameReads(name: string, acc: string, rest: string)
    requires |acc| + |name| <= 6 && forall i :: 0 <= i < |name| ==> name[i] != ';'
    ensures EntityName(name + (";" + rest), acc) == Done(acc + name, rest)
  {
    var s := name + (";" + rest);
    if name == "" {
      assert s[1..] == rest;
      assert acc + name == acc;
    } else {
      assert s[1..] == name[1..] + (";" + rest);
      EntityNameReads(name[1..], acc + [name[0]], rest);
      assert acc + [name[0]] + name[1..] == acc + name;
    }
  }

  /** The entity name that stands for a character, if one does. */
  function EntityOf(c: char): Option<string> {
    if c == '&' then Some("amp")
    else if c == '<' then Some("lt")
    else if c == '>' then Some("gt")
    else if c == '\'' then Some("apos")
    else if c == '"' then Some("quot")
    else None
  }

  lemma EntityNames(c: char)
    ensures match EntityOf(c)
            case None => EscapeChar(c) == [c] && c != '&' && c != '<' && c != '\''
            case Some(name) =>
              && EscapeChar(c) == "&" + name + ";" && EntityChar(name) == Some(c)
              && |name| <= 6 && forall i :: 0 <= i < |name| ==> name[i] != ';'
  {
    assert "lt"[0] != "gt"[0];
    assert "quot"[0] != "apos"[0];
    assert |"amp"| == 3 && |"lt"| == 2 && |"gt"| == 2 && |"quot"| == 4 && |"apos"| == 4;
  }

  lemma EntityOfReads(c: char, rest: string)
    ensures match EntityOf(c)
            case None => EscapeChar(c) == [c] && c != '&' && c != '<' && c != '\''
            case Some(name) => EscapeChar(c) == "&" + name + ";" && Entity(name + (";" + rest)) == Done(c, rest)
  {
    hide EntityOf, EscapeChar, EntityChar, EntityName;
    EntityNames(c);
    match EntityOf(c)
    case None =>
    case Some(name) =>
      EntityNameReads(name, "", rest);
      assert "" + name == name;
  }

  /** One escaped character in front of the rest of a text. */
  lemma EscapedChar(c: char, rest: string)
    ensures var s := EscapeChar(c) + rest;
            s != "" &&
            match EntityOf(c)
            case None => s[0] == c && s[1..] == rest && c != '&' && c != '<' && c != '\''
            case Some(_) => s[0] == '&' && Entity(s[1..]) == Done(c, rest)
  {
    hide EscapeChar, Entity, EntityOf;
    EntityOfReads(c, rest);
    match EntityOf(c)
    case None =>
    case Some(name) =>
      var s := EscapeChar(c) + rest;
      assert s[1..] == name + (";" + rest);
  }

  lemma {:induction false} QuotedReads(v: string, acc: string, rest: string)
    requires |acc| + |v| <= MAX_TOKEN
    ensures QuotedBody('\'', Escape(v) + ("'" + rest), acc) == Done(acc + v, rest)
  {
    hide EscapeChar, Entity, EntityOf;
    if v == "" {
      assert Escape(v) + ("'" + rest) == "'" + rest;
      assert ("'" + rest)[1..] == rest;
      assert acc + v == acc;
    } else {
      var tail := Escape(v[1..]) + ("'" + rest);
      EscapedChar(v[0], tail);
      Assoc(EscapeChar(v[0]), Escape(v[1..]), "'" + rest);
      QuotedReads(v[1..], acc + [v[0]], rest);
      assert acc + [v[0]] + v[1..] == acc + v;
    }
  }

  /** A value past the limit is refused, never truncated. */
  lemma {:induction false} LongQuotedRefused(v: string, acc: string, rest: string)
    requires |acc| <= MAX_TOKEN < |acc| + |v|
    ensures QuotedBody('\'', Escape(v) + ("'" + rest), acc) == Fail(TokenTooLong)
  {
    hide EscapeChar, Entity, EntityOf;
    var tail := Escape(v[1..]) + ("'" + rest);
    EscapedChar(v[0], tail);
    Assoc(EscapeChar(v[0]), Escape(v[1..]), "'" + rest);
    if |acc| < MAX_TOKEN {
      LongQuotedRefused(v[1..], acc + [v[0]], rest);
    }
  }

  /** An attribute value survives escaping, quoting and parsing exactly when it is
      within the token limit, whatever bytes it holds. */
  lemma AttributeSurvivesIff(v: string, rest: string)
    ensures Quoted("'" + (Escape(v) + ("'" + rest))) == if |v| <= MAX_TOKEN then Done(v, rest) else Fail(TokenTooLong)
  {
    hide QuotedBody, Escape;
    var body := Escape(v) + ("'" + rest);
    assert ("'" + body)[1..] == body;
    if |v| <= MAX_TOKEN {
      QuotedReads(v, "", rest);
      assert "" + v == v;
    } else {
      LongQuotedRefused(v, "", rest);
    }
  }

  lemma {:induction false} TextReads(tag: string, v: string, acc: string, rest: string)
    requires |acc| + |v| <= MAX_TOKEN
    requires CloseTag("</" + rest).Done? && CloseTag("</" + rest).value == tag
    ensures TextUntilClose(tag, Escape(v) + ("</" + rest), acc) == Done(acc + v, CloseTag("</" + rest).rest)
  {
    hide EscapeChar, Entity, EntityOf, CloseTag;
    if v == "" {
      assert Escape(v) + ("</" + rest) == "</" + rest;
      assert acc + v == acc;
    } else {
      var tail := Escape(v[1..]) + ("</" + rest);
      EscapedChar(v[0], tail);
      Assoc(EscapeChar(v[0]), Escape(v[1..]), "</" + rest);
      TextReads(tag, v[1..], acc + [v[0]], rest);
      assert acc + [v[0]] + v[1..] == acc + v;
    }
  }

  // Tags

  predicate IsName(name: string) {
    0 < |name| < MAX_TOKEN && forall i :: 0 <= i < |name| ==> IdentChar(name[i])
  }

  lemma IdentReads(name: string, rest: string)
    requires IsName(name) && rest != "" && !IdentChar(rest[0])
    ensures Ident(name + rest) == Done(name, rest)
  {
    var s := name + rest;
    assert forall i :: 0 <= i < |name| ==> s[i] == name[i];
    assert s[|name|] == rest[0];
    assert IdentRun(s) == |name|;
    assert s[..|name|] == name && s[|name|..] == rest;
  }

  lemma CloseTagReads(name: string, rest: string)
    requires IsName(name)
    ensures CloseTag("</" + (name + (">" + rest))) == Done(name, rest)
  {
    var s := "</" + (name + (">" + rest));
    assert s[1..] == "/" + (name + (">" + rest));
    assert s[1..][1..] == name + (">" + rest);
    IdentReads(name, ">" + rest);
    assert (">" + rest)[1..] == rest;
  }

  predicate Readable(a: Attr) {
    IsName(a.name) && |a.value| <= MAX_TOKEN
  }

  lemma AttrPairReads(a: Attr, rest: string)
    requires Readable(a)
    ensures AttrPair(a.name + ("='" + (Escape(a.value) + ("'" + rest)))) == Done(a, rest)
  {
    var body := Escape(a.value) + ("'" + rest);
    IdentReads(a.name, "='" + body);
    assert ("='" + body)[1..] == "'" + body;
    assert ("'" + body)[1..] == body;
    QuotedReads(a.value, "", rest);
    assert "" + a.value == a.value;
  }

  /** One written attribute is one step of the tag body. */
  lemma AttrReads(name: string, a: Attr, rest: string, acc: seq<Attr>)
    requires Readable(a)
    ensures TagBody(name, AttrText(a) + rest, acc) == TagBody(name, rest, acc + [a])
  {
    hide AttrPair, Escape;
    var pair := a.name + ("='" + (Escape(a.value) + ("'" + rest)));
    var s := AttrText(a) + rest;
    assert s == " " + pair;
    assert s[1..] == pair;
    assert IdentChar(pair[0]) by { assert pair[0] == a.name[0]; }
    AttrPairReads(a, rest);
  }

  lemma {:induction false} AttrsRead(name: string, attrs: seq<Attr>, rest: string, acc: seq<Attr>)
    requires forall i :: 0 <= i < |attrs| ==> Readable(attrs[i])
    ensures TagBody(name, AttrsText(attrs) + rest, acc) == TagBody(name, rest, acc + attrs)
  {
    hide AttrText, TagBody;
    if attrs == [] {
      assert AttrsText(attrs) + rest == rest;
      assert acc + attrs == acc;
    } else {
      Assoc(AttrText(attrs[0]), AttrsText(attrs[1..]), rest);
      AttrReads(name, attrs[0], AttrsText(attrs[1..]) + rest, acc);
      AttrsRead(name, attrs[1..], rest, acc + [attrs[0]]);
      assert acc + [attrs[0]] + attrs[1..] == acc + attrs;
    }
  }

  function TagEnd(closed: bool, rest: string): string {
    (if closed then "/>" else ">") + rest
  }

  lemma TagEndReads(name: string, attrs: seq<Attr>, closed: bool, rest: string)
    ensures TagBody(name, TagEnd(closed, rest), attrs) == Done(Tag(name, attrs, closed), rest)
  {
    assert closed ==> TagEnd(closed, rest)[2..] == rest;
    assert !closed ==> TagEnd(closed, rest)[1..] == rest;
  }

  lemma AttrsTextStarts(attrs: seq<Attr>, closed: bool, rest: string)
    ensures var s := AttrsText(attrs) + TagEnd(closed, rest);
            s != "" && !IdentChar(s[0])
  {
    if attrs == [] {
      assert AttrsText(attrs) + TagEnd(closed, rest) == TagEnd(closed, rest);
    } else {
      assert AttrText(attrs[0])[0] == ' ';
    }
  }

  lemma StartTagSplits(name: string, body: string)
    requires IsName(name) && body != "" && !IdentChar(body[0])
    ensures StartTag("<" + (name + body)) == TagBody(name, body, [])
  {
    hide TagBody, Ident;
    IdentReads(name, body);
    assert ("<" + (name + body))[1..] == name + body;
  }

  lemma StartTagReads(name: string, attrs: seq<Attr>, closed: bool, rest: string)
    requires IsName(name) && forall i :: 0 <= i < |attrs| ==> Readable(attrs[i])
    ensures StartTag("<" + (name + (AttrsText(attrs) + TagEnd(closed, rest)))) == Done(Tag(name, attrs, closed), rest)
  {
    hide AttrsText, TagEnd, TagBody, StartTag;
    AttrsTextStarts(attrs, closed, rest);
    StartTagSplits(name, AttrsText(attrs) + TagEnd(closed, rest));
    AttrsRead(name, attrs, TagEnd(closed, rest), []);
    assert [] + attrs == attrs;
    TagEndReads(name, attrs, closed, rest);
  }

  // What the wire cannot carry

  /** The attributes a member keeps: a set drops the label and format, a number
      definition always has a range, only a BLOB set has a size and format. */
  function Shell(t: VType, def: bool, m: Member, blobs: Payloads): Member {
    var ranged := t == Number && (def || m.hasRange);
    NO_MEMBER.(
      name := m.name,
      labelText := if def then m.labelText else "",
      min := if ranged then m.min else ZERO,
      max := if ranged then m.max else ZERO,
      step := if ranged then m.step else ZERO,
      hasRange := ranged,
      format := if def && t == Number then m.format else "",
      size := if t == Blob && !def then SizeOf(m, blobs) else 0,
      blobFormat := if t == Blob && !def then m.blobFormat else "")
  }

  /** A member as it arrives, BLOB data aside: its typed value, and the text
      spelled as the encoder spells it, space trimmed. */
  function CanonMember(n: NumText, t: VType, def: bool, m: Member, blobs: Payloads): Member {
    Shell(t, def, m, blobs).(
      text := if t == Blob then "" else TrimSpace(MemberText(n, t, m)),
      value := if t == Number then m.value else ZERO,
      on := t == Switch && m.on,
      lightState := if t == Light then m.lightState else Idle)
  }

  /** The attributes a vector keeps: a set drops label, group, perm and rule. */
  function CanonHead(el: Element, def: bool): Element {
    Blank(if def then KindDef else KindSet, el.vtype).(
      device := el.device, name := el.name,
      labelText := if def then el.labelText else "",
      group := if def then el.group else "",
      state := el.state,
      perm := if def then el.perm else ReadOnly,
      rule := if def && el.vtype == Switch then el.rule else OneOfMany,
      timestamp := el.timestamp, message := el.message)
  }

  /** Add one canonical member, its BLOB data going to the sink or the member. */
  function CanonAdd(cfg: Config, v: Progress, def: bool, m: Member, blobs: Payloads): Progress {
    var c := CanonMember(cfg.numbers, v.el.vtype, def, m, blobs);
    if v.el.vtype == Blob then AddBlob(cfg, v, c, if def then [] else Payload(m, blobs)) else AddMember(v, c)
  }

  function CanonMembers(cfg: Config, v: Progress, def: bool, ms: seq<Member>, blobs: Payloads): Progress
    decreases |ms|
  {
    if ms == [] then v else CanonMembers(cfg, CanonAdd(cfg, v, def, ms[0], blobs), def, ms[1..], blobs)
  }

  /** What a server message is after the wire, continuing from given counts. */
  function Canon(cfg: Config, el: Element, blobs: Payloads, unknown: nat, sunk: seq<Delivery>): Progress
    requires IsServerKind(el.kind)
  {
    match el.kind
    case KindDef => CanonMembers(cfg, Progress(CanonHead(el, true), unknown, sunk), true, el.members, blobs)
    case KindSet => CanonMembers(cfg, Progress(CanonHead(el, false), unknown, sunk), false, el.members, blobs)
    case KindMessage =>
      Progress(Blank(KindMessage, Number).(device := el.device, timestamp := el.timestamp, message := el.message),
          unknown, sunk)
    case _ =>
      Progress(Blank(KindDel, Number).(device := el.device, name := el.name, timestamp := el.timestamp,
          message := el.message), unknown, sunk)
  }

  // Limits: longer tokens are refused by the parser

  predicate MemberFits(m: Member, blobs: Payloads) {
    && |m.name| <= MAX_TOKEN && |m.labelText| <= MAX_TOKEN && |m.format| <= MAX_TOKEN
    && |m.blobFormat| <= MAX_TOKEN && |m.text| <= MAX_TOKEN
    && MIN_INT64 <= SizeOf(m, blobs) <= MAX_INT64
  }

  predicate HeadFits(el: Element) {
    && |el.device| <= MAX_TOKEN && |el.name| <= MAX_TOKEN && |el.labelText| <= MAX_TOKEN
    && |el.group| <= MAX_TOKEN && |el.timestamp| <= MAX_TOKEN && |el.message| <= MAX_TOKEN
  }

  predicate Fits(el: Element, blobs: Payloads) {
    && HeadFits(el)
    && |el.members| <= MAX_MEMBERS
    && forall i :: 0 <= i < |el.members| ==> MemberFits(el.members[i], blobs)
  }

  // Attributes

  lemma {:induction false} VectorAttrsAppend(e: Element, a: seq<Attr>, b: seq<Attr>)
    ensures VectorAttrs(e, a + b) == VectorAttrs(VectorAttrs(e, a), b)
    decreases |a|
  {
    hide SetVectorAttr;
    if a == [] {
      assert a + b == b;
    } else {
      assert (a + b)[1..] == a[1..] + b;
      VectorAttrsAppend(SetVectorAttr(e, a[0]), a[1..], b);
    }
  }

  lemma {:induction false} MemberAttrsAppend(n: NumText, t: VType, m: Member, a: seq<Attr>, b: seq<Attr>)
    ensures MemberAttrs(n, t, m, a + b) == MemberAttrs(n, t, MemberAttrs(n, t, m, a), b)
    decreases |a|
  {
    hide SetMemberAttr;
    if a == [] {
      assert a + b == b;
    } else {
      assert (a + b)[1..] == a[1..] + b;
      MemberAttrsAppend(n, t, SetMemberAttr(n, t, m, a[0]), a[1..], b);
    }
  }

  lemma MemberAttrsOne(n: NumText, t: VType, m: Member, a: Attr)
    ensures MemberAttrs(n, t, m, [a]) == SetMemberAttr(n, t, m, a)
  {
    hide SetMemberAttr;
  }

  lemma VectorNames()
    ensures "label"[0] != "group"[0] && "label"[0] != "state"[0] && "group"[0] != "state"[0]
    ensures "name"[0] != "perm"[0] && "name"[0] != "rule"[0] && "perm"[0] != "rule"[0]
  {
  }

  lemma SetsIdentity(e: Element, v: string)
    ensures SetVectorAttr(e, Attr("device", v)) == e.(device := v)
    ensures SetVectorAttr(e, Attr("name", v)) == e.(name := v)
    ensures SetVectorAttr(e, Attr("label", v)) == e.(labelText := v)
    ensures SetVectorAttr(e, Attr("group", v)) == e.(group := v)
  {
    VectorNames();
  }

  lemma SetsStatus(e: Element, v: string)
    ensures SetVectorAttr(e, Attr("state", v)) == e.(state := ParseState(v))
    ensures SetVectorAttr(e, Attr("perm", v)) == e.(perm := ParsePerm(v))
    ensures SetVectorAttr(e, Attr("rule", v)) == e.(rule := ParseRule(v))
  {
    hide ParseState, ParsePerm, ParseRule;
    VectorNames();
  }

  lemma SetsStamps(e: Element, v: string)
    ensures SetVectorAttr(e, Attr("timestamp", v)) == e.(timestamp := v)
    ensures SetVectorAttr(e, Attr("message", v)) == e.(message := v)
  {
  }

  lemma SetsMember(n: NumText, t: VType, m: Member, v: string)
    ensures SetMemberAttr(n, t, m, Attr("name", v)) == m.(name := v)
    ensures SetMemberAttr(n, t, m, Attr("label", v)) == m.(labelText := v)
    ensures SetMemberAttr(n, t, m, Attr("format", v)) == if t == Blob then m.(blobFormat := v) else m.(format := v)
  {
  }

  lemma SetsRange(n: NumText, t: VType, m: Member, v: string)
    ensures SetMemberAttr(n, t, m, Attr("min", v)) == m.(min := n.parse(v), hasRange := true)
    ensures SetMemberAttr(n, t, m, Attr("max", v)) == m.(max := n.parse(v), hasRange := true)
    ensures SetMemberAttr(n, t, m, Attr("step", v)) == m.(step := n.parse(v), hasRange := true)
  {
    assert "min"[1] != "max"[1] && "step"[0] != "name"[0];
  }

  lemma SetsSize(n: NumText, t: VType, m: Member, v: string)
    ensures SetMemberAttr(n, t, m, Attr("size", v)) == m.(size := ParseInt64(v))
  {
    hide ParseInt64;
    assert "size"[0] != "name"[0] && "size"[1] != "step"[1];
  }

  /** A leading optional attribute sets one field, or leaves the blank one. */
  lemma OptSets(e: Element, name: string, v: string, more: seq<Attr>)
    ensures VectorAttrs(e, Opt(name, v) + more)
         == VectorAttrs(if v == "" then e else SetVectorAttr(e, Attr(name, v)), more)
  {
    hide SetVectorAttr;
    VectorAttrsAppend(e, Opt(name, v), more);
  }

  lemma OptSetsLast(e: Element, name: string, v: string)
    ensures VectorAttrs(e, Opt(name, v)) == if v == "" then e else SetVectorAttr(e, Attr(name, v))
  {
    hide SetVectorAttr;
  }

  lemma IdentityReads(e: Element, el: Element, def: bool)
    requires e.device == "" && e.name == "" && e.labelText == "" && e.group == ""
    ensures VectorAttrs(e, IdentityAttrs(el, def))
         == e.(device := el.device, name := el.name,
               labelText := if def then el.labelText else "", group := if def then el.group else "")
  {
    hide SetVectorAttr, VectorAttrs;
    var tail := if def then Opt("label", el.labelText) + Opt("group", el.group) else [];
    assert IdentityAttrs(el, def) == Opt("device", el.device) + (Opt("name", el.name) + tail);
    OptSets(e, "device", el.device, Opt("name", el.name) + tail);
    SetsIdentity(e, el.device);
    var e1 := e.(device := el.device);
    OptSets(e1, "name", el.name, tail);
    SetsIdentity(e1, el.name);
    var e2 := e1.(name := el.name);
    if def {
      OptSets(e2, "label", el.labelText, Opt("group", el.group));
      SetsIdentity(e2, el.labelText);
      OptSetsLast(e2.(labelText := el.labelText), "group", el.group);
      SetsIdentity(e2.(labelText := el.labelText), el.group);
    } else {
      NoAttrs(e2);
    }
  }

  lemma NoAttrs(e: Element)
    ensures VectorAttrs(e, []) == e
  {
  }

  lemma StatusReads(e: Element, el: Element, def: bool)
    requires e.perm == ReadOnly && e.rule == OneOfMany
    ensures VectorAttrs(e, StatusAttrs(el, def))
         == e.(state := el.state, perm := if def then el.perm else ReadOnly,
               rule := if def && el.vtype == Switch then el.rule else OneOfMany)
  {
    hide SetVectorAttr, VectorAttrs, ParseState, ParsePerm, ParseRule, StateText, PermText, RuleText;
    StateParsesBack(el.state);
    PermParsesBack(el.perm);
    RuleParsesBack(el.rule);
    var rule := if el.vtype == Switch then Opt("rule", RuleText(el.rule)) else [];
    var tail := if def then Opt("perm", PermText(el.perm)) + rule else [];
    OptSets(e, "state", StateText(el.state), tail);
    SetsStatus(e, StateText(el.state));
    var e1 := e.(state := el.state);
    NoAttrs(e1);
    if def {
      OptSets(e1, "perm", PermText(el.perm), rule);
      SetsStatus(e1, PermText(el.perm));
      var e2 := e1.(perm := el.perm);
      NoAttrs(e2);
      OptSetsLast(e2, "rule", RuleText(el.rule));
      SetsStatus(e2, RuleText(el.rule));
    }
  }

  lemma StampReads(e: Element, el: Element)
    requires e.timestamp == "" && e.message == ""
    ensures VectorAttrs(e, StampAttrs(el)) == e.(timestamp := el.timestamp, message := el.message)
  {
    hide SetVectorAttr, VectorAttrs;
    OptSets(e, "timestamp", el.timestamp, Opt("message", el.message));
    SetsStamps(e, el.timestamp);
    OptSetsLast(e.(timestamp := el.timestamp), "message", el.message);
    SetsStamps(e.(timestamp := el.timestamp), el.message);
  }

  lemma HeadReads(el: Element, def: bool)
    ensures VectorAttrs(Blank(if def then KindDef else KindSet, el.vtype), VectorAttrList(el, def)) ==
            CanonHead(el, def)
  {
    hide VectorAttrs, IdentityAttrs, StatusAttrs, StampAttrs;
    var e := Blank(if def then KindDef else KindSet, el.vtype);
    VectorAttrsAppend(e, IdentityAttrs(el, def) + StatusAttrs(el, def), StampAttrs(el));
    VectorAttrsAppend(e, IdentityAttrs(el, def), StatusAttrs(el, def));
    IdentityReads(e, el, def);
    var e1 := VectorAttrs(e, IdentityAttrs(el, def));
    StatusReads(e1, el, def);
    StampReads(VectorAttrs(e1, StatusAttrs(el, def)), el);
  }

  // Members

  lemma MemberOptSets(n: NumText, t: VType, m: Member, name: string, v: string, more: seq<Attr>)
    ensures MemberAttrs(n, t, m, Opt(name, v) + more)
         == MemberAttrs(n, t, if v == "" then m else SetMemberAttr(n, t, m, Attr(name, v)), more)
  {
    hide SetMemberAttr;
    MemberAttrsAppend(n, t, m, Opt(name, v), more);
  }

  lemma RangeReads(n: NumText, t: VType, m: Member, from: Member)
    requires n.Lawful()
    ensures MemberAttrs(n, t, m, RangeAttrs(n, from))
         == m.(min := from.min, max := from.max, step := from.step, hasRange := true)
  {
    hide SetMemberAttr;
    var a := RangeAttrs(n, from);
    assert a[1..] == [a[1], a[2]] && a[1..][1..] == [a[2]] && a[1..][1..][1..] == [];
    var m1 := m.(min := from.min, hasRange := true);
    var m2 := m1.(max := from.max);
    SetsRange(n, t, m, n.format(from.min));
    SetsRange(n, t, m1, n.format(from.max));
    SetsRange(n, t, m2, n.format(from.step));
    assert MemberAttrs(n, t, m1, [a[1], a[2]]) == MemberAttrs(n, t, m2, [a[2]]);
    MemberAttrsOne(n, t, m2, a[2]);
  }

  lemma ShellReads(n: NumText, t: VType, def: bool, m: Member, blobs: Payloads)
    requires n.Lawful() && MIN_INT64 <= SizeOf(m, blobs) <= MAX_INT64
    ensures MemberAttrs(n, t, NO_MEMBER, MemberAttrList(n, t, def, m, blobs)) == Shell(t, def, m, blobs)
  {
    hide SetMemberAttr, MemberAttrs, RangeAttrs, SizeOf;
    var m1 := NO_MEMBER.(name := m.name);
    SetsMember(n, t, NO_MEMBER, m.name);
    MemberAttrsOne(n, t, NO_MEMBER, Attr("name", m.name));
    var list := MemberAttrList(n, t, def, m, blobs);
    NoMemberAttrs(n, t, m1);
    if def {
      var ranged := if t == Number then Opt("format", m.format) + RangeAttrs(n, m) else [];
      assert list == [Attr("name", m.name)] + (Opt("label", m.labelText) + ranged);
      MemberAttrsAppend(n, t, NO_MEMBER, [Attr("name", m.name)], Opt("label", m.labelText) + ranged);
      MemberOptSets(n, t, m1, "label", m.labelText, ranged);
      SetsMember(n, t, m1, m.labelText);
      var m2 := m1.(labelText := m.labelText);
      NoMemberAttrs(n, t, m2);
      if t == Number {
        MemberOptSets(n, t, m2, "format", m.format, RangeAttrs(n, m));
        SetsMember(n, t, m2, m.format);
        RangeReads(n, t, m2.(format := m.format), m);
      }
    } else if t == Number && m.hasRange {
      assert list == [Attr("name", m.name)] + RangeAttrs(n, m);
      MemberAttrsAppend(n, t, NO_MEMBER, [Attr("name", m.name)], RangeAttrs(n, m));
      RangeReads(n, t, m1, m);
    } else if t == Blob {
      var size := SizeOf(m, blobs);
      var tail := [Attr("size", Dec(size))] + Opt("format", m.blobFormat);
      assert list == [Attr("name", m.name)] + tail;
      MemberAttrsAppend(n, t, NO_MEMBER, [Attr("name", m.name)], tail);
      BlobTailReads(n, m1, size, m.blobFormat);
    } else {
      assert list == [Attr("name", m.name)];
    }
  }

  lemma BlobTailReads(n: NumText, m: Member, size: int, format: string)
    requires MIN_INT64 <= size <= MAX_INT64 && m.blobFormat == ""
    ensures MemberAttrs(n, Blob, m, [Attr("size", Dec(size))] + Opt("format", format))
         == m.(size := size, blobFormat := format)
  {
    hide SetMemberAttr, MemberAttrs, Dec, ParseInt64;
    MemberAttrsAppend(n, Blob, m, [Attr("size", Dec(size))], Opt("format", format));
    MemberAttrsOne(n, Blob, m, Attr("size", Dec(size)));
    SetsSize(n, Blob, m, Dec(size));
    DecParsesBack(size);
    var m1 := m.(size := size);
    assert Opt("format", format) == Opt("format", format) + [];
    MemberOptSets(n, Blob, m1, "format", format, []);
    SetsMember(n, Blob, m1, format);
    NoMemberAttrs(n, Blob, m1);
    NoMemberAttrs(n, Blob, m1.(blobFormat := format));
  }

  lemma NoMemberAttrs(n: NumText, t: VType, m: Member)
    ensures MemberAttrs(n, t, m, []) == m
  {
  }

  lemma TypeTagNames(def: bool, t: VType)
    ensures IsName(MemberTag(def, t))
    ensures IsName(VectorTag(def, t))
  {
  }

  lemma MemberAttrsReadable(n: NumText, t: VType, def: bool, m: Member, blobs: Payloads)
    requires n.Lawful() && MemberFits(m, blobs)
    ensures forall i :: 0 <= i < |MemberAttrList(n, t, def, m, blobs)| ==>
            Readable(MemberAttrList(n, t, def, m, blobs)[i])
  {
    hide Dec;
    DecParsesBack(SizeOf(m, blobs));
    var range := RangeAttrs(n, m);
    assert Readable(Attr("name", m.name)) && Readable(Attr("label", m.labelText));
    assert Readable(range[0]) && Readable(range[1]) && Readable(range[2]);
    assert Readable(Attr("format", m.format)) && Readable(Attr("format", m.blobFormat));
    assert Readable(Attr("size", Dec(SizeOf(m, blobs))));
  }

  /** The value and close tag of a member other than a BLOB. */
  lemma ValueReads(n: NumText, t: VType, def: bool, m: Member, blobs: Payloads, rest: string)
    requires n.Lawful() && MemberFits(m, blobs) && t != Blob
    ensures TextUntilClose(
              MemberTag(def, t), Escape(MemberText(n, t, m)) + ("</" + (MemberTag(def, t) + (">" + rest))), "")
         == Done(MemberText(n, t, m), rest)
    ensures MemberValue(n, t, Shell(t, def, m, blobs), MemberText(n, t, m)) == CanonMember(n, t, def, m, blobs)
  {
    hide TextUntilClose, CloseTag, TrimSpace, StateText, ParseState;
    var tag, text := MemberTag(def, t), MemberText(n, t, m);
    TypeTagNames(def, t);
    CloseTagReads(tag, rest);
    StateParsesBack(m.lightState);
    TextReads(tag, text, "", tag + (">" + rest));
    assert "" + text == text;
    match t
    case Number => TrimSpacePlain(text);
    case Switch => TrimSpacePlain(text);
    case Light => TrimSpacePlain(text);
    case Text =>
  }

  /** Up to two blanks in front of a tag are passed over. */
  lemma BlanksSkipped(pad: string, rest: string)
    requires |pad| <= 3 && forall i :: 0 <= i < |pad| ==> Blank?(pad[i])
    ensures SkipToTag(pad + ("<" + rest)) == Done((), "<" + rest)
    ensures forall lenient :: SkipToTop(lenient, pad + ("<" + rest)) == Done((), "<" + rest)
  {
    var s := pad + ("<" + rest);
    if pad == "" {
      assert s == "<" + rest;
    } else {
      assert s[1..] == pad[1..] + ("<" + rest);
      BlanksSkipped(pad[1..], rest);
    }
  }

  /** A member's line split at the places the parser stops. */
  lemma LineShape(tag: string, attrs: string, body: string, rest: string)
    ensures "  <" + tag + attrs + ">" + (body + ("</" + tag + ">\n")) + rest
         == "  " + ("<" + (tag + (attrs + TagEnd(false, body + ("</" + (tag + (">" + ("\n" + rest))))))))
  {
  }

  /** One member, its start tag read: the canonical member is added. */
  lemma OneMemberReads(cfg: Config, v: Progress, def: bool, m: Member, blobs: Payloads, rest: string)
    requires cfg.numbers.Lawful() && MemberFits(m, blobs) && |v.el.members| < MAX_MEMBERS
    ensures var t, tag := v.el.vtype, MemberTag(def, v.el.vtype);
            var attrs := MemberAttrList(cfg.numbers, t, def, m, blobs);
            var body := MemberBody(cfg.numbers, t, def, m, blobs);
            OneMember(cfg, v, Tag(tag, attrs, false), tag, body + ("</" + (tag + (">" + rest))))
            == Done(CanonAdd(cfg, v, def, m, blobs), rest)
  {
    hide MemberAttrList, MemberText, MemberValue, Shell, CanonMember, AddBlob, AddMember, TextUntilClose, BlobContent,
        CloseTag, MemberTag, Quanta, Escape;
    var n, t, tag := cfg.numbers, v.el.vtype, MemberTag(def, v.el.vtype);
    ShellReads(n, t, def, m, blobs);
    TypeTagNames(def, t);
    CloseTagReads(tag, rest);
    if t == Blob {
      var payload := if def then [] else Payload(m, blobs);
      QuantaEmpty();
      BlobStream.QuantaClean(payload);
      BlobStream.BlobRoundTrip(tag, payload, Quanta(payload), tag + (">" + rest));
      BlobShell(n, def, m, blobs);
    } else {
      ValueReads(n, t, def, m, blobs, rest);
    }
  }

  lemma QuantaEmpty()
    ensures Quanta([]) == ""
  {
  }

  lemma BlobShell(n: NumText, def: bool, m: Member, blobs: Payloads)
    ensures Shell(Blob, def, m, blobs) == CanonMember(n, Blob, def, m, blobs)
  {
  }

  lemma MemberStepReads(
      cfg: Config, v: Progress, def: bool, m: Member, blobs: Payloads, close: string, pad: string,
      rest: string)
    requires cfg.numbers.Lawful() && MemberFits(m, blobs) && |v.el.members| < MAX_MEMBERS
    requires pad == "" || pad == "\n"
    ensures MemberStep(cfg, v, close, MemberTag(def, v.el.vtype),
                       pad + (MemberLine(cfg.numbers, v.el.vtype, def, m, blobs) + rest))
         == Done(Added(CanonAdd(cfg, v, def, m, blobs)), "\n" + rest)
  {
    hide MemberAttrList, AttrsText, MemberBody, OneMember, CanonAdd, MemberTag, StartTag, SkipToTag, TagEnd;
    var n, t := cfg.numbers, v.el.vtype;
    var tag, attrs, body := MemberTag(def, t), MemberAttrList(n, t, def, m, blobs), MemberBody(n, t, def, m, blobs);
    TypeTagNames(def, t);
    var after := body + ("</" + (tag + (">" + ("\n" + rest))));
    LineShape(tag, AttrsText(attrs), body, rest);
    var s1 := tag + (AttrsText(attrs) + TagEnd(false, after));
    Assoc(pad, "  ", "<" + s1);
    BlanksSkipped(pad + "  ", s1);
    assert ("<" + s1)[1] == tag[0];
    MemberAttrsReadable(n, t, def, m, blobs);
    StartTagReads(tag, attrs, false, after);
    OneMemberReads(cfg, v, def, m, blobs, "\n" + rest);
  }

  // Vectors

  lemma CanonAddGrows(cfg: Config, v: Progress, def: bool, m: Member, blobs: Payloads)
    ensures var w := CanonAdd(cfg, v, def, m, blobs);
            w.el.vtype == v.el.vtype && |w.el.members| == |v.el.members| + 1 && w.unknown == v.unknown
  {
  }

  lemma EndStepReads(cfg: Config, v: Progress, close: string, child: string, rest: string)
    requires IsName(close)
    ensures MemberStep(cfg, v, close, child, "\n" + ("</" + (close + (">" + ("\n" + rest))))) ==
            Done(Closed, "\n" + rest)
  {
    hide CloseTag;
    var s1 := "</" + (close + (">" + ("\n" + rest)));
    assert s1 == "<" + ("/" + (close + (">" + ("\n" + rest))));
    BlanksSkipped("\n", "/" + (close + (">" + ("\n" + rest))));
    CloseTagReads(close, "\n" + rest);
  }

  lemma {:induction false} MembersRead(
      cfg: Config, v: Progress, def: bool, ms: seq<Member>, blobs: Payloads, close: string, rest: string)
    requires cfg.numbers.Lawful() && IsName(close)
    requires |v.el.members| + |ms| <= MAX_MEMBERS && forall i :: 0 <= i < |ms| ==> MemberFits(ms[i], blobs)
    ensures Members(cfg, v, close, MemberTag(def, v.el.vtype),
                    "\n" + (MemberLines(cfg.numbers, v.el.vtype, def, ms, blobs) +
                        ("</" + (close + (">" + ("\n" + rest))))))
         == Done(CanonMembers(cfg, v, def, ms, blobs), "\n" + rest)
    decreases |ms|
  {
    hide MemberLine, MemberStep, CanonAdd, MemberTag, MemberFits;
    var n, t, end := cfg.numbers, v.el.vtype, "</" + (close + (">" + ("\n" + rest)));
    if ms == [] {
      EndStepReads(cfg, v, close, MemberTag(def, t), rest);
      assert MemberLines(n, t, def, ms, blobs) + end == end;
    } else {
      var line, more := MemberLine(n, t, def, ms[0], blobs), MemberLines(n, t, def, ms[1..], blobs);
      Assoc(line, more, end);
      MemberStepReads(cfg, v, def, ms[0], blobs, close, "\n", more + end);
      CanonAddGrows(cfg, v, def, ms[0], blobs);
      MembersRead(cfg, CanonAdd(cfg, v, def, ms[0], blobs), def, ms[1..], blobs, close, rest);
    }
  }

  lemma ClassifyVector(def: bool, t: VType)
    ensures Classify(VectorTag(def, t)) == VectorForm(if def then KindDef else KindSet, t, MemberTag(def, t))
  {
    var tag := VectorTag(def, t);
    var prefix := if def then "def" else "set";
    assert tag == prefix + (TypeTag(t) + "Vector");
    assert prefix <= tag;
    assert tag[|tag| - 6..] == "Vector";
    assert tag[3..|tag| - 6] == TypeTag(t);
    assert VTypeOf(TypeTag(t)) == Some(t) by {
      assert "Light"[0] != "Number"[0];
      assert "Text"[0] != "BLOB"[0];
      assert "Switch"[0] != "Number"[0];
    }
    assert "set"[0] != "def"[0];
  }

  lemma VectorShape(tag: string, attrs: string, lines: string, tail: string)
    ensures "<" + tag + attrs + ">\n" + lines + ("</" + tag + ">\n") + tail
         == "<" + (tag + (attrs + TagEnd(false, "\n" + (lines + ("</" + (tag + (">" + ("\n" + tail))))))))
  {
  }

  lemma VectorAttrsReadable(el: Element, def: bool)
    requires HeadFits(el)
    ensures forall i :: 0 <= i < |VectorAttrList(el, def)| ==> Readable(VectorAttrList(el, def)[i])
  {
    hide StateText, PermText, RuleText;
    StateParsesBack(el.state);
    PermParsesBack(el.perm);
    RuleParsesBack(el.rule);
    assert Readable(Attr("device", el.device)) && Readable(Attr("name", el.name));
    assert Readable(Attr("label", el.labelText)) && Readable(Attr("group", el.group));
    assert Readable(Attr("state", StateText(el.state))) && Readable(Attr("perm", PermText(el.perm)));
    assert Readable(Attr("rule", RuleText(el.rule)));
    assert Readable(Attr("timestamp", el.timestamp)) && Readable(Attr("message", el.message));
  }

  // Whole elements

  lemma VectorStepReads(
      cfg: Config, el: Element, def: bool, blobs: Payloads, unknown: nat, sunk: seq<Delivery>, pad: string,
      tail: string)
    requires cfg.numbers.Lawful() && Fits(el, blobs) && (pad == "" || pad == "\n")
    ensures TopStep(cfg, pad + (VectorText(cfg.numbers, el, def, blobs) + tail), unknown, sunk)
         == Done(Found(CanonMembers(cfg, Progress(CanonHead(el, def), unknown, sunk), def, el.members, blobs)),
                 "\n" + tail)
  {
    hide VectorAttrList, AttrsText, MemberLines, VectorTag, MemberTag, CanonHead, CanonMembers, Classify, Members,
        StartTag, TagEnd, SkipToTop;
    var tag, attrs := VectorTag(def, el.vtype), VectorAttrList(el, def);
    var lines := MemberLines(cfg.numbers, el.vtype, def, el.members, blobs);
    TypeTagNames(def, el.vtype);
    VectorShape(tag, AttrsText(attrs), lines, tail);
    var inner := "\n" + (lines + ("</" + (tag + (">" + ("\n" + tail)))));
    var s1 := tag + (AttrsText(attrs) + TagEnd(false, inner));
    BlanksSkipped(pad, s1);
    assert ("<" + s1)[1] == tag[0];
    VectorAttrsReadable(el, def);
    StartTagReads(tag, attrs, false, inner);
    ClassifyVector(def, el.vtype);
    HeadReads(el, def);
    var head := CanonHead(el, def);
    HeadHas(el, def);
    MembersRead(cfg, Progress(head, unknown, sunk), def, el.members, blobs, tag, tail);
  }

  lemma HeadHas(el: Element, def: bool)
    ensures CanonHead(el, def).vtype == el.vtype && CanonHead(el, def).members == []
  {
  }

  lemma EmptyShape(tag: string, attrs: string, tail: string)
    ensures "<" + tag + attrs + "/>\n" + tail == "<" + (tag + (attrs + TagEnd(true, "\n" + tail)))
  {
  }

  /** A self-closed element: a message or a deletion. */
  lemma EmptyStepReads(
      cfg: Config, kind: Kind, tag: string, attrs: seq<Attr>, unknown: nat, sunk: seq<Delivery>, pad: string,
      tail: string)
    requires IsName(tag) && Classify(tag) == PlainForm(kind) && (pad == "" || pad == "\n")
    requires forall i :: 0 <= i < |attrs| ==> Readable(attrs[i])
    ensures TopStep(cfg, pad + ("<" + tag + AttrsText(attrs) + "/>\n" + tail), unknown, sunk)
         == Done(Found(Progress(VectorAttrs(Blank(kind, Number), attrs), unknown, sunk)), "\n" + tail)
  {
    hide AttrsText, Classify, StartTag, TagEnd, SkipToTop, VectorAttrs;
    EmptyShape(tag, AttrsText(attrs), tail);
    var s1 := tag + (AttrsText(attrs) + TagEnd(true, "\n" + tail));
    BlanksSkipped(pad, s1);
    assert ("<" + s1)[1] == tag[0];
    StartTagReads(tag, attrs, true, "\n" + tail);
  }

  lemma ClassifyPlain()
    ensures Classify("message") == PlainForm(KindMessage) && IsName("message")
    ensures Classify("delProperty") == PlainForm(KindDel) && IsName("delProperty")
  {
    assert "message"[0] != "def"[0] && "message"[0] != "set"[0] && "message"[0] != "new"[0];
    assert "delProperty"[2] != "def"[2] && "delProperty"[0] != "set"[0] && "delProperty"[0] != "new"[0];
  }

  lemma MessageReads(el: Element)
    requires HeadFits(el)
    ensures VectorAttrs(Blank(KindMessage, Number), MessageAttrList(el))
         == Blank(KindMessage, Number).(device := el.device, timestamp := el.timestamp, message := el.message)
    ensures forall i :: 0 <= i < |MessageAttrList(el)| ==> Readable(MessageAttrList(el)[i])
  {
    hide SetVectorAttr, VectorAttrs;
    var e := Blank(KindMessage, Number);
    OptSets(e, "device", el.device, StampAttrs(el));
    SetsIdentity(e, el.device);
    StampReads(e.(device := el.device), el);
    assert Readable(Attr("device", el.device));
    assert Readable(Attr("timestamp", el.timestamp)) && Readable(Attr("message", el.message));
  }

  lemma DelReads(el: Element)
    requires HeadFits(el)
    ensures VectorAttrs(Blank(KindDel, Number), DelAttrList(el))
         == Blank(KindDel, Number).(device := el.device, name := el.name, timestamp := el.timestamp,
             message := el.message)
    ensures forall i :: 0 <= i < |DelAttrList(el)| ==> Readable(DelAttrList(el)[i])
  {
    hide SetVectorAttr, VectorAttrs;
    var e := Blank(KindDel, Number);
    assert DelAttrList(el) == Opt("device", el.device) + (Opt("name", el.name) + StampAttrs(el));
    OptSets(e, "device", el.device, Opt("name", el.name) + StampAttrs(el));
    SetsIdentity(e, el.device);
    var e1 := e.(device := el.device);
    OptSets(e1, "name", el.name, StampAttrs(el));
    SetsIdentity(e1, el.name);
    StampReads(e1.(name := el.name), el);
    assert Readable(Attr("device", el.device)) && Readable(Attr("name", el.name));
    assert Readable(Attr("timestamp", el.timestamp)) && Readable(Attr("message", el.message));
  }

  /** The round trip of one element in front of anything: the parser yields exactly
      what the wire can carry of it and stops after its final '>'. */
  lemma ElementReads(
      cfg: Config, el: Element, blobs: Payloads, unknown: nat, sunk: seq<Delivery>, pad: string, tail: string)
    requires cfg.numbers.Lawful() && IsServerKind(el.kind) && Fits(el, blobs) && (pad == "" || pad == "\n")
    ensures ElementText(cfg.numbers, el, blobs).Some?
    ensures Next(cfg, pad + (ElementText(cfg.numbers, el, blobs).value + tail), unknown, sunk)
         == Done(Canon(cfg, el, blobs, unknown, sunk), "\n" + tail)
  {
    hide TopStep, VectorText, AttrsText, CanonMembers, VectorAttrs, MessageAttrList, DelAttrList, Classify;
    match el.kind
    case KindDef => VectorStepReads(cfg, el, true, blobs, unknown, sunk, pad, tail);
    case KindSet => VectorStepReads(cfg, el, false, blobs, unknown, sunk, pad, tail);
    case KindMessage =>
      ClassifyPlain();
      MessageReads(el);
      EmptyStepReads(cfg, KindMessage, "message", MessageAttrList(el), unknown, sunk, pad, tail);
      assert "<message" == "<" + "message";
    case KindDel =>
      ClassifyPlain();
      DelReads(el);
      EmptyStepReads(cfg, KindDel, "delProperty", DelAttrList(el), unknown, sunk, pad, tail);
      assert "<delProperty" == "<" + "delProperty";
  }

  lemma ClassifyPing()
    ensures Classify("pingReply") == PingForm(KindPingReply) && IsName("pingReply")
  {
    assert "pingReply"[0] != "def"[0] && "pingReply"[0] != "set"[0] && "pingReply"[0] != "new"[0];
    assert "pingReply"[6] != "pingRequest"[6];
  }

  lemma PingStep(cfg: Config, uid: string, unknown: nat, sunk: seq<Delivery>, rest: string)
    ensures TagStep(cfg, Tag("pingReply", Opt("uid", uid), true), rest, unknown, sunk)
         == Done(Found(Progress(Blank(KindPingReply, Number).(name := uid), unknown, sunk)), rest)
  {
    hide Classify, AttrVal, Opt;
    ClassifyPing();
    UidOf(uid);
  }

  /** A tag at once, nothing in front of it. */
  lemma TopAt(cfg: Config, s: string)
    ensures SkipToTop(cfg.diagnostics, "<" + s) == Done((), "<" + s)
  {
  }

  /** An answer to a ping says which, byte for byte. */
  lemma PingReplyReads(cfg: Config, uid: string, unknown: nat, sunk: seq<Delivery>, tail: string)
    requires |uid| <= MAX_TOKEN
    ensures Next(cfg, PingReplyText(uid) + tail, unknown, sunk)
         == Done(Progress(Blank(KindPingReply, Number).(name := uid), unknown, sunk), "\n" + tail)
  {
    hide AttrsText, Opt, Classify, StartTag, TagEnd, SkipToTop, TagStep, SkipPI;
    var attrs, s := Opt("uid", uid), PingReplyText(uid) + tail;
    EmptyShape("pingReply", AttrsText(attrs), tail);
    assert "<pingReply" == "<" + "pingReply";
    var s1 := "pingReply" + (AttrsText(attrs) + TagEnd(true, "\n" + tail));
    assert s == "<" + s1 && s[1] == 'p';
    TopAt(cfg, s1);
    ClassifyPing();
    UidReadable(uid);
    StartTagReads("pingReply", attrs, true, "\n" + tail);
    PingStep(cfg, uid, unknown, sunk, "\n" + tail);
    assert TopStep(cfg, s, unknown, sunk)
        == Done(Found(Progress(Blank(KindPingReply, Number).(name := uid), unknown, sunk)), "\n" + tail);
  }

  lemma UidReadable(uid: string)
    requires |uid| <= MAX_TOKEN
    ensures forall i :: 0 <= i < |Opt("uid", uid)| ==> Readable(Opt("uid", uid)[i])
  {
  }

  lemma UidOf(uid: string)
    ensures AttrVal(Opt("uid", uid), "uid") == uid
  {
  }

  // Streams

  /** A message to send: an element and the payloads that go with it. */
  datatype Outgoing = Outgoing(el: Element, blobs: Payloads)

  predicate Sendable(o: Outgoing) {
    IsServerKind(o.el.kind) && Fits(o.el, o.blobs)
  }

  predicate AllServerKinds(out: seq<Outgoing>) {
    forall i :: 0 <= i < |out| ==> IsServerKind(out[i].el.kind)
  }

  predicate AllSendable(out: seq<Outgoing>) {
    forall i :: 0 <= i < |out| ==> Sendable(out[i])
  }

  function StreamText(n: NumText, out: seq<Outgoing>): string
    requires AllServerKinds(out)
  {
    if out == [] then "" else ElementText(n, out[0].el, out[0].blobs).value + StreamText(n, out[1..])
  }

  /** Everything a parser reads from s, and the error it ends on. */
  function ReadAll(cfg: Config, s: string, unknown: nat, sunk: seq<Delivery>): (seq<Progress>, Error)
    decreases |s|
  {
    match Next(cfg, s, unknown, sunk)
    case Fail(e) => ([], e)
    case Done(v, rest) =>
      var (more, e) := ReadAll(cfg, rest, v.unknown, v.sunk);
      ([v] + more, e)
  }

  function CanonAll(cfg: Config, out: seq<Outgoing>, unknown: nat, sunk: seq<Delivery>): seq<Progress>
    requires AllServerKinds(out)
    decreases |out|
  {
    if out == [] then []
    else
      var v := Canon(cfg, out[0].el, out[0].blobs, unknown, sunk);
      [v] + CanonAll(cfg, out[1..], v.unknown, v.sunk)
  }

  lemma {:induction false} PaddedStreamReads(
      cfg: Config, out: seq<Outgoing>, unknown: nat, sunk: seq<Delivery>, pad: string)
    requires cfg.numbers.Lawful() && (pad == "" || pad == "\n")
    requires AllServerKinds(out) && AllSendable(out)
    ensures ReadAll(cfg, pad + StreamText(cfg.numbers, out), unknown, sunk) ==
            (CanonAll(cfg, out, unknown, sunk), ReadError)
    decreases |out|
  {
    hide Canon, ElementText, Fits;
    if out == [] {
      assert pad + StreamText(cfg.numbers, out) == pad;
      assert pad != "" ==> pad[1..] == "";
      assert SkipToTop(cfg.diagnostics, pad) == Fail(ReadError);
    } else {
      var o, tail := out[0], StreamText(cfg.numbers, out[1..]);
      ElementReads(cfg, o.el, o.blobs, unknown, sunk, pad, tail);
      var v := Canon(cfg, o.el, o.blobs, unknown, sunk);
      PaddedStreamReads(cfg, out[1..], v.unknown, v.sunk, "\n");
    }
  }

  /** The codec round trip: any list of server messages within the limits, written
      back to back, parses to exactly their canonical forms in order, and then the
      stream ends cleanly. */
  lemma StreamReads(cfg: Config, out: seq<Outgoing>)
    requires cfg.numbers.Lawful()
    requires AllServerKinds(out) && AllSendable(out)
    ensures ReadAll(cfg, StreamText(cfg.numbers, out), 0, []) == (CanonAll(cfg, out, 0, []), ReadError)
  {
    PaddedStreamReads(cfg, out, 0, [], "");
    assert "" + StreamText(cfg.numbers, out) == StreamText(cfg.numbers, out);
  }

  // Stray text between elements

  predicate NoTag(s: string) {
    forall i :: 0 <= i < |s| ==> s[i] != '<'
  }

  predicate AtTagOrEnd(s: string) { s == "" || s[0] == '<' }

  lemma {:induction false} LineSkipped(stray: string, s: string)
    requires NoTag(stray) && AtTagOrEnd(s)
    ensures var r := SkipLine(stray + s);
            if r.Done? then exists k :: 0 <= k <= |stray| && r.rest == stray[k..] + s
                else r == Fail(ReadError) && s == ""
    decreases |stray|
  {
    if stray == "" {
      assert stray + s == s && stray[0..] + s == s;
    } else {
      assert (stray + s)[1..] == stray[1..] + s;
      if stray[0] == '\n' {
        assert SkipLine(stray + s).rest == stray[1..] + s;
      } else {
        LineSkipped(stray[1..], s);
        var r := SkipLine(stray[1..] + s);
        if r.Done? {
          var k :| 0 <= k <= |stray[1..]| && r.rest == stray[1..][k..] + s;
          assert stray[1..][k..] == stray[k + 1..];
        }
      }
    }
  }

  /** With a diagnostics callback, text without tags is passed over like blanks. */
  lemma {:induction false} StraySkipped(stray: string, s: string)
    requires NoTag(stray) && AtTagOrEnd(s)
    ensures SkipToTop(true, stray + s) == if s == "" then Fail(ReadError) else Done((), s)
    decreases |stray|
  {
    if stray == "" {
      assert stray + s == s;
    } else {
      assert (stray + s)[1..] == stray[1..] + s;
      if Blank?(stray[0]) {
        StraySkipped(stray[1..], s);
      } else {
        LineSkipped(stray[1..], s);
        var r := SkipLine(stray[1..] + s);
        if r.Done? {
          var k :| 0 <= k <= |stray[1..]| && r.rest == stray[1..][k..] + s;
          StraySkipped(stray[1..][k..], s);
        }
      }
    }
  }

  /** Without one, the first byte that is not blank stops the parser. */
  lemma {:induction false} StrayRefused(stray: string, s: string)
    requires NoTag(stray) && exists i :: 0 <= i < |stray| && !Blank?(stray[i])
    ensures exists i ::
              0 <= i < |stray| && !Blank?(stray[i]) &&
              SkipToTop(false, stray + s) == Fail(UnexpectedByte(stray[i]))
    decreases |stray|
  {
    assert (stray + s)[1..] == stray[1..] + s;
    if Blank?(stray[0]) {
      var i :| 0 <= i < |stray| && !Blank?(stray[i]);
      assert !Blank?(stray[1..][i - 1]);
      StrayRefused(stray[1..], s);
      var j :| 0 <= j < |stray[1..]| && !Blank?(stray[1..][j])
        && SkipToTop(false, stray[1..] + s) == Fail(UnexpectedByte(stray[1..][j]));
      assert stray[1..][j] == stray[j + 1];
    }
  }

  /** What a driver that also logs to its standard output writes: text before every
      element and after the last. */
  function NoisyText(n: NumText, out: seq<Outgoing>, noise: seq<string>): string
    requires AllServerKinds(out) && |noise| == |out| + 1
    decreases |out|
  {
    if out == [] then noise[0]
    else noise[0] + (ElementText(n, out[0].el, out[0].blobs).value + NoisyText(n, out[1..], noise[1..]))
  }

  lemma StrayPassed(cfg: Config, stray: string, s: string, unknown: nat, sunk: seq<Delivery>)
    requires cfg.diagnostics && NoTag(stray) && AtTagOrEnd(s)
    ensures Next(cfg, stray + s, unknown, sunk) == Next(cfg, s, unknown, sunk)
  {
    hide SkipToTop, StartTag, Body, SkipBody, SkipPI, Classify;
    StraySkipped(stray, s);
    StraySkipped("", s);
    assert "" + s == s;
    assert TopStep(cfg, stray + s, unknown, sunk) == TopStep(cfg, s, unknown, sunk);
  }

  lemma TextStarts(n: NumText, el: Element, blobs: Payloads)
    requires IsServerKind(el.kind)
    ensures "<" <= ElementText(n, el, blobs).value
  {
    hide AttrsText, MemberLines, VectorTag, MessageAttrList, DelAttrList;
  }

  lemma {:induction false} NoisyStreamReads(
      cfg: Config, out: seq<Outgoing>, noise: seq<string>, unknown: nat, sunk: seq<Delivery>, pad: string)
    requires cfg.numbers.Lawful() && cfg.diagnostics && (pad == "" || pad == "\n")
    requires AllServerKinds(out) && AllSendable(out) && |noise| == |out| + 1
    requires forall i :: 0 <= i < |noise| ==> NoTag(noise[i])
    ensures ReadAll(cfg, pad + NoisyText(cfg.numbers, out, noise), unknown, sunk)
         == (CanonAll(cfg, out, unknown, sunk), ReadError)
    decreases |out|
  {
    hide Canon, ElementText, Fits, Next;
    var stray := pad + noise[0];
    assert NoTag(noise[0]);
    if out == [] {
      StrayPassed(cfg, stray, "", unknown, sunk);
      assert stray + "" == pad + NoisyText(cfg.numbers, out, noise);
      NothingNext(cfg, unknown, sunk);
    } else {
      var o, tail := out[0], NoisyText(cfg.numbers, out[1..], noise[1..]);
      var text := ElementText(cfg.numbers, o.el, o.blobs).value;
      TextStarts(cfg.numbers, o.el, o.blobs);
      assert text[0] == '<';
      assert pad + NoisyText(cfg.numbers, out, noise) == stray + (text + tail);
      StrayPassed(cfg, stray, text + tail, unknown, sunk);
      assert "" + (text + tail) == text + tail;
      ElementReads(cfg, o.el, o.blobs, unknown, sunk, "", tail);
      var v := Canon(cfg, o.el, o.blobs, unknown, sunk);
      NoisyStreamReads(cfg, out[1..], noise[1..], v.unknown, v.sunk, "\n");
    }
  }

  lemma NothingNext(cfg: Config, unknown: nat, sunk: seq<Delivery>)
    ensures Next(cfg, "", unknown, sunk) == Fail(ReadError)
  {
  }

  /** Whatever a driver logs between elements, as long as it holds no tag, a parser with a
      diagnostics callback reads exactly the elements. */
  lemma DiagnosticsDoNotMatter(cfg: Config, out: seq<Outgoing>, noise: seq<string>)
    requires cfg.numbers.Lawful() && cfg.diagnostics
    requires AllServerKinds(out) && AllSendable(out) && |noise| == |out| + 1
    requires forall i :: 0 <= i < |noise| ==> NoTag(noise[i])
    ensures ReadAll(cfg, NoisyText(cfg.numbers, out, noise), 0, []) == ReadAll(cfg, StreamText(cfg.numbers, out), 0, [])
  {
    hide Next, ReadAll, CanonAll, NoisyText, StreamText, NumText.Lawful, Fits;
    NoisyStreamReads(cfg, out, noise, 0, [], "");
    assert "" + NoisyText(cfg.numbers, out, noise) == NoisyText(cfg.numbers, out, noise);
    StreamReads(cfg, out);
  }
}
