/** The forms of elements that no writer here produces: what a driver or a client may send
    besides, and what the parser takes each name for. */
module Forms {
  import opened Lists
  import opened Wire
  import opened Grammar
  import opened Encoding
  import opened RoundTrip
  import opened Writing

  // Characters

  /** Blanks, tabs and line ends. */
  predicate Layout(ws: string) {
    forall i :: 0 <= i < |ws| ==> ws[i] in {' ', '\t', '\r', '\n'}
  }

  /** Layout in front of an element, a child, an attribute, or within encoded content means
      nothing. */
  lemma {:induction false} LayoutPassed(
      ws: string, s: string, diagnostics: bool, name: string, attrs: seq<Attr>, quad: string, acc: seq<bv8>)
    requires Layout(ws) && |quad| < 4
    ensures SkipToTop(diagnostics, ws + s) == SkipToTop(diagnostics, s)
    ensures SkipToTag(ws + s) == SkipToTag(s)
    ensures TagBody(name, ws + s, attrs) == TagBody(name, s, attrs)
    ensures BlobContent(name, ws + s, quad, acc) == BlobContent(name, s, quad, acc)
    decreases |ws|
  {
    hide AttrPair, CloseTag;
    if ws == "" {
      assert ws + s == s;
    } else {
      var t := ws + s;
      assert ws[0] in {' ', '\t', '\r', '\n'};
      assert t[0] == ws[0] && t[1..] == ws[1..] + s;
      LayoutPassed(ws[1..], s, diagnostics, name, attrs, quad, acc);
    }
  }

  /** Any other character does, where a child has to stand, and where an element has to
      unless there is somewhere for stray text to go. */
  lemma OthersRefused(s: string)
    requires s != "" && s[0] !in {' ', '\t', '\r', '\n', '<'}
    ensures SkipToTag(s) == Fail(UnexpectedByte(s[0])) && SkipToTop(false, s) == Fail(UnexpectedByte(s[0]))
  {
  }

  /** Letters, digits, hyphens and underscores. */
  predicate InName(c: char) {
    'a' <= c <= 'z' || 'A' <= c <= 'Z' || '0' <= c <= '9' || c in {'-', '_'}
  }

  /** What is read as a name: all the name characters there are, and at least one. */
  lemma NameReadIff(name: string, s: string)
    ensures Ident(name + s) == Done(name, s) <==>
            && name != "" && |name| < MAX_TOKEN && (forall i :: 0 <= i < |name| ==> InName(name[i]))
            && s != "" && !InName(s[0])
  {
    var t := name + s;
    var n := IdentRun(t);
    assert forall i :: 0 <= i < |name| ==> t[i] == name[i];
    if s != "" {
      assert t[|name|] == s[0];
    }
    if n == |name| {
      assert t[..n] == name && t[n..] == s;
    }
  }

  /** The characters that have to be written as entities, by their names. */
  const ENTITIES: map<string, char> := map["amp" := '&', "lt" := '<', "gt" := '>', "quot" := '"', "apos" := '\'']

  /** What an entity reads as, up to its semicolon: the character of its name, or an error
      for any other name, or for one of more than six bytes. */
  lemma EntityReads(name: string, s: string)
    requires forall i :: 0 <= i < |name| ==> name[i] != ';'
    ensures Entity(name + ";" + s) ==
            if |name| > 6 then Fail(OversizedEntity)
            else if name in ENTITIES then Done(ENTITIES[name], s)
            else Fail(UnknownEntity(name))
  {
    assert "" + name == name;
    NameRun("", name, s);
  }

  lemma {:induction false} NameRun(acc: string, name: string, s: string)
    requires |acc| <= 6 && forall i :: 0 <= i < |name| ==> name[i] != ';'
    ensures EntityName(name + ";" + s, acc) ==
            if |acc| + |name| > 6 then Fail(OversizedEntity) else Done(acc + name, s)
    decreases |name|
  {
    var t := name + ";" + s;
    if name == "" {
      assert t[0] == ';' && t[1..] == s && acc + name == acc;
    } else {
      assert t[0] == name[0] && t[1..] == name[1..] + ";" + s;
      if |acc| < 6 {
        NameRun(acc + [name[0]], name[1..], s);
        assert acc + [name[0]] + name[1..] == acc + name;
      }
    }
  }

  // Names

  /** A vector tag by its parts. */
  predicate IsVector(name: string, prefix: string, t: VType) {
    name == prefix + TypeTag(t) + "Vector"
  }

  lemma VTypeIs(s: string, t: VType)
    ensures VTypeOf(s) == Some(t) <==> s == TypeTag(t)
  {
    TypeTagParses(t);
    assert "Number"[0] == 'N' && "Switch"[0] == 'S' && "Text"[0] == 'T' && "Light"[0] == 'L' && "BLOB"[0] == 'B';
  }

  lemma VectorSplits(prefix: string, name: string)
    requires |prefix| == 3 && IsVectorTag(prefix, name) && |name| >= 9
    ensures name == prefix + name[3..|name| - 6] + "Vector"
  {
    assert name == name[..3] + name[3..|name| - 6] + name[|name| - 6..];
  }

  lemma VectorJoins(prefix: string, t: VType)
    requires prefix == "def" || prefix == "set" || prefix == "new"
    ensures var name := prefix + TypeTag(t) + "Vector";
            && |name| >= 9 && name[3..|name| - 6] == TypeTag(t)
            && (IsVectorTag("def", name) <==> prefix == "def")
            && (IsVectorTag("set", name) <==> prefix == "set")
            && (IsVectorTag("new", name) <==> prefix == "new")
  {
    var middle := TypeTag(t);
    var name := prefix + middle + "Vector";
    assert name == prefix + (middle + "Vector");
    assert name[|name| - 6..] == "Vector";
    assert name[..3] == prefix;
    assert "def"[0] == 'd' && "set"[0] == 's' && "new"[0] == 'n' && name[0] == prefix[0];
  }

  /** A vector tag stands for its kind and type, with members named after them. */
  lemma VectorForms(t: VType)
    ensures Classify("def" + TypeTag(t) + "Vector") == VectorForm(KindDef, t, "def" + TypeTag(t))
    ensures Classify("set" + TypeTag(t) + "Vector") == VectorForm(KindSet, t, "one" + TypeTag(t))
    ensures Classify("new" + TypeTag(t) + "Vector") == VectorForm(KindNew, t, "one" + TypeTag(t))
  {
    hide TypeTag, VTypeOf, IsVectorTag;
    VectorJoins("def", t);
    VectorJoins("set", t);
    VectorJoins("new", t);
    VTypeIs(TypeTag(t), t);
  }

  const PLAIN: seq<string> :=
    ["message", "delProperty", "getProperties", "enableBLOB", "pingRequest", "pingReply"]

  /** The other names, each with its own kind. */
  lemma PlainForms()
    ensures Classify("message") == PlainForm(KindMessage) && Classify("delProperty") == PlainForm(KindDel)
    ensures Classify("getProperties") == PlainForm(KindGetProps) && Classify("enableBLOB") == ModeForm
    ensures Classify("pingRequest") == PingForm(KindPing) && Classify("pingReply") == PingForm(KindPingReply)
  {
    ClassifyPlain();
    ClassifyQuery();
    ClassifyEnable();
    ClassifyPing();
    ClassifyRequest();
  }

  lemma ClassifyRequest()
    ensures Classify("pingRequest") == PingForm(KindPing) && IsName("pingRequest")
  {
    assert "pingRequest"[0] != "def"[0] && "pingRequest"[0] != "set"[0] && "pingRequest"[0] != "new"[0];
    assert "pingRequest"[0] != "message"[0] && "pingRequest"[0] != "delProperty"[0];
    assert "pingRequest"[0] != "getProperties"[0] && "pingRequest"[0] != "enableBLOB"[0];
  }

  /** Every other name is unknown. */
  lemma UnknownIff(name: string)
    ensures Classify(name).UnknownForm? <==>
              && name !in PLAIN
              && forall t :: !IsVector(name, "def", t) && !IsVector(name, "set", t) && !IsVector(name, "new", t)
  {
    hide TypeTag, VTypeOf, IsVectorTag;
    PlainForms();
    assert PLAIN == [PLAIN[0], PLAIN[1], PLAIN[2], PLAIN[3], PLAIN[4], PLAIN[5]];
    forall t | IsVector(name, "def", t) || IsVector(name, "set", t) || IsVector(name, "new", t)
      ensures !Classify(name).UnknownForm?
    {
      VectorForms(t);
    }
    if name !in PLAIN && !Classify(name).UnknownForm? {
      var prefix := KnownPrefix(name);
      VectorSplits(prefix, name);
      var t := VTypeOf(name[3..|name| - 6]).value;
      VTypeIs(name[3..|name| - 6], t);
      assert IsVector(name, prefix, t);
    }
  }

  lemma KnownPrefix(name: string) returns (prefix: string)
    requires name !in PLAIN && !Classify(name).UnknownForm?
    ensures prefix in {"def", "set", "new"} && |prefix| == 3 && IsVectorTag(prefix, name) && |name| >= 9
    ensures VTypeOf(name[3..|name| - 6]).Some?
  {
    hide VTypeOf;
    assert PLAIN[0] in PLAIN && PLAIN[1] in PLAIN && PLAIN[2] in PLAIN;
    assert PLAIN[3] in PLAIN && PLAIN[4] in PLAIN && PLAIN[5] in PLAIN;
    if IsVectorTag("def", name) {
      VectorTagLength("def", name);
      prefix := "def";
    } else if IsVectorTag("set", name) {
      VectorTagLength("set", name);
      prefix := "set";
    } else {
      assert IsVectorTag("new", name);
      VectorTagLength("new", name);
      prefix := "new";
    }
  }

  // Pings

  function PingRequestText(uid: string): string {
    "<pingRequest" + AttrsText(Opt("uid", uid)) + "/>\n"
  }

  lemma RequestStep(cfg: Config, uid: string, unknown: nat, sunk: seq<Delivery>, rest: string)
    ensures TagStep(cfg, Tag("pingRequest", Opt("uid", uid), true), rest, unknown, sunk)
         == Done(Found(Progress(Blank(KindPing, Number).(name := uid), unknown, sunk)), rest)
  {
    hide Classify, AttrVal, Opt;
    ClassifyRequest();
    UidOf(uid);
  }

  /** A driver's ping says which, byte for byte. */
  lemma PingRequestReads(cfg: Config, uid: string, unknown: nat, sunk: seq<Delivery>, tail: string)
    requires |uid| <= MAX_TOKEN
    ensures Next(cfg, PingRequestText(uid) + tail, unknown, sunk)
         == Done(Progress(Blank(KindPing, Number).(name := uid), unknown, sunk), "\n" + tail)
  {
    hide AttrsText, Opt, Classify, StartTag, TagEnd, SkipToTop, TagStep, SkipPI;
    var attrs, s := Opt("uid", uid), PingRequestText(uid) + tail;
    EmptyShape("pingRequest", AttrsText(attrs), tail);
    assert "<pingRequest" == "<" + "pingRequest";
    var s1 := "pingRequest" + (AttrsText(attrs) + TagEnd(true, "\n" + tail));
    assert s == "<" + s1 && s[1] == 'p';
    TopAt(cfg, s1);
    ClassifyRequest();
    UidReadable(uid);
    StartTagReads("pingRequest", attrs, true, "\n" + tail);
    RequestStep(cfg, uid, unknown, sunk, "\n" + tail);
    assert TopStep(cfg, s, unknown, sunk)
        == Done(Found(Progress(Blank(KindPing, Number).(name := uid), unknown, sunk)), "\n" + tail);
  }

  // Processing instructions

  /** No end of an instruction inside. */
  predicate NoEnd(s: string) {
    forall i :: 0 <= i < |s| - 1 ==> !(s[i] == '?' && s[i + 1] == '>')
  }

  lemma {:induction false} InstructionSkipped(pi: string, prev: char, rest: string)
    requires NoEnd(pi) && !(prev == '?' && pi != "" && pi[0] == '>')
    ensures SkipPI(pi + ("?>" + rest), prev) == Done((), rest)
    decreases |pi|
  {
    var s := pi + ("?>" + rest);
    if pi == "" {
      assert s[1..] == ">" + rest;
      assert s[1..][1..] == rest;
    } else {
      assert s[1..] == pi[1..] + ("?>" + rest);
      InstructionSkipped(pi[1..], pi[0], rest);
    }
  }

  /** An instruction, a prolog for one, changes nothing of what is read after it. */
  lemma PrologPassed(cfg: Config, pi: string, rest: string, unknown: nat, sunk: seq<Delivery>)
    requires NoEnd(pi)
    ensures Next(cfg, "<?" + (pi + ("?>" + rest)), unknown, sunk) == Next(cfg, rest, unknown, sunk)
  {
    hide SkipToTop, StartTag, TagStep, SkipPI;
    var body := pi + ("?>" + rest);
    var s := "<?" + body;
    assert s == "<" + ("?" + body);
    TopAt(cfg, "?" + body);
    assert s[2..] == body && AtPI(s);
    InstructionSkipped(pi, '\0', rest);
    assert TopStep(cfg, s, unknown, sunk) == Done(Passed(unknown), rest);
  }

  // Images handed over as descriptors

  function AttachedAttrs(name: string, size: int, format: string, flag: string): seq<Attr> {
    [Attr("name", name), Attr("size", Dec(size)), Attr("format", format), Attr("attached", flag)]
  }

  /** A BLOB update with one member and no content of its own. */
  function AttachedText(device: string, prop: string, name: string, size: int, format: string, flag: string): string {
    "<setBLOBVector" + AttrsText(Address(device, prop)) + ">\n"
    + ("  <oneBLOB" + AttrsText(AttachedAttrs(name, size, format, flag)) + "/>\n")
    + ("</setBLOBVector>\n")
  }

  function AttachedMember(name: string, size: int, format: string, attached: bool): Member {
    NO_MEMBER.(name := name, size := size, blobFormat := format, attached := attached)
  }

  lemma AttachedAttrsRead(n: NumText, name: string, size: int, format: string, flag: string)
    requires MIN_INT64 <= size <= MAX_INT64
    ensures MemberAttrs(n, Blob, NO_MEMBER, AttachedAttrs(name, size, format, flag))
         == AttachedMember(name, size, format, flag == "true")
  {
    hide SetMemberAttr, MemberAttrs, Dec, ParseInt64;
    var a := AttachedAttrs(name, size, format, flag);
    var m1 := NO_MEMBER.(name := name);
    var m2 := m1.(size := size);
    var m3 := m2.(blobFormat := format);
    assert a == [a[0]] + ([a[1]] + ([a[2]] + [a[3]]));
    MemberAttrsAppend(n, Blob, NO_MEMBER, [a[0]], [a[1]] + ([a[2]] + [a[3]]));
    MemberAttrsAppend(n, Blob, m1, [a[1]], [a[2]] + [a[3]]);
    MemberAttrsAppend(n, Blob, m2, [a[2]], [a[3]]);
    MemberAttrsOne(n, Blob, NO_MEMBER, a[0]);
    MemberAttrsOne(n, Blob, m1, a[1]);
    MemberAttrsOne(n, Blob, m2, a[2]);
    MemberAttrsOne(n, Blob, m3, a[3]);
    SetsMember(n, Blob, NO_MEMBER, name);
    SetsSize(n, Blob, m1, Dec(size));
    DecParsesBack(size);
    SetsMember(n, Blob, m2, format);
    SetsAttached(n, m3, flag);
  }

  lemma SetsAttached(n: NumText, m: Member, flag: string)
    ensures SetMemberAttr(n, Blob, m, Attr("attached", flag)) == m.(attached := flag == "true")
  {
    assert "attached"[0] == 'a' && "name"[0] != 'a' && "label"[0] != 'a' && "min"[0] != 'a' && "max"[0] != 'a';
    assert "step"[0] != 'a' && "format"[0] != 'a' && "size"[0] != 'a';
  }

  lemma AttachedReadable(name: string, size: int, format: string, flag: string)
    requires MIN_INT64 <= size <= MAX_INT64 && |name| <= MAX_TOKEN && |format| <= MAX_TOKEN && |flag| <= MAX_TOKEN
    ensures forall i :: 0 <= i < 4 ==> Readable(AttachedAttrs(name, size, format, flag)[i])
  {
    hide Dec;
    DecParsesBack(size);
    assert Readable(Attr("name", name)) && Readable(Attr("size", Dec(size)));
    assert Readable(Attr("format", format)) && Readable(Attr("attached", flag));
  }

  /** A self-closed member has its attributes and no content. */
  lemma EmptyMemberReads(cfg: Config, v: Progress, close: string, child: string, attrs: seq<Attr>, rest: string)
    requires IsName(child) && |v.el.members| < MAX_MEMBERS
    requires forall i :: 0 <= i < |attrs| ==> Readable(attrs[i])
    ensures MemberStep(cfg, v, close, child, "\n" + (("  <" + child + AttrsText(attrs) + "/>\n") + rest))
         == Done(Added(AddMember(v, MemberAttrs(cfg.numbers, v.el.vtype, NO_MEMBER, attrs))), "\n" + rest)
  {
    hide AttrsText, StartTag, SkipToTag, TagEnd, MemberAttrs;
    var s1 := child + (AttrsText(attrs) + TagEnd(true, "\n" + rest));
    EmptyShape(child, AttrsText(attrs), rest);
    LineStarts(child, AttrsText(attrs), rest);
    BlanksSkipped("\n  ", s1);
    assert ("<" + s1)[1] == child[0];
    StartTagReads(child, attrs, true, "\n" + rest);
  }

  lemma LineStarts(child: string, attrs: string, rest: string)
    ensures "\n" + (("  <" + child + attrs + "/>\n") + rest) == "\n  " + ("<" + child + attrs + "/>\n" + rest)
  {
  }

  lemma BlobTags()
    ensures VectorTag(false, Blob) == "setBLOBVector" && MemberTag(false, Blob) == "oneBLOB"
    ensures IsName("setBLOBVector") && IsName("oneBLOB")
  {
    TypeTagNames(false, Blob);
  }

  /** An update whose image comes as a descriptor: the member is attached exactly if it says
      true, has its size and format, and no data of its own; nothing goes to a sink. */
  lemma AttachedReads(
      cfg: Config, device: string, prop: string, name: string, size: int, format: string, flag: string,
      unknown: nat, sunk: seq<Delivery>, tail: string)
    requires |device| <= MAX_TOKEN && |prop| <= MAX_TOKEN && MIN_INT64 <= size <= MAX_INT64
    requires |name| <= MAX_TOKEN && |format| <= MAX_TOKEN && |flag| <= MAX_TOKEN
    ensures Next(cfg, AttachedText(device, prop, name, size, format, flag) + tail, unknown, sunk)
         == Done(Progress(
                   Blank(KindSet, Blob).(
                     device := device, name := prop,
                     members := [AttachedMember(name, size, format, flag == "true")]), unknown, sunk),
                 "\n" + tail)
  {
    hide Address, AttrsText, AttachedAttrs, Classify, Members, StartTag, TagEnd, SkipToTop, VectorAttrs, IsName;
    hide VectorTag, MemberTag, MemberAttrs;
    var tag, attrs := "setBLOBVector", Address(device, prop);
    var line := "  <oneBLOB" + AttrsText(AttachedAttrs(name, size, format, flag)) + "/>\n";
    BlobTags();
    ClassifyVector(false, Blob);
    AttachedShape(device, prop, line, tail);
    var inner := "\n" + (line + ("</" + (tag + (">" + ("\n" + tail)))));
    var s1 := tag + (AttrsText(attrs) + TagEnd(false, inner));
    var s := AttachedText(device, prop, name, size, format, flag) + tail;
    assert s == "<" + s1;
    TopAt(cfg, s1);
    assert ("<" + s1)[1] == 's';
    var e := Blank(KindSet, Blob);
    AddressReads(e, device, prop);
    StartTagReads(tag, attrs, false, inner);
    var v := Progress(e.(device := device, name := prop), unknown, sunk);
    AttachedMembers(cfg, v, name, size, format, flag, tail);
    assert TopStep(cfg, s, unknown, sunk)
        == Done(Found(AddMember(v, AttachedMember(name, size, format, flag == "true"))), "\n" + tail);
    assert [] + [AttachedMember(name, size, format, flag == "true")]
        == [AttachedMember(name, size, format, flag == "true")];
  }

  lemma AttachedShape(device: string, prop: string, line: string, tail: string)
    ensures "<setBLOBVector" + AttrsText(Address(device, prop)) + ">\n" + line + ("</setBLOBVector>\n") + tail
         == "<" + ("setBLOBVector" + (AttrsText(Address(device, prop))
              + TagEnd(false, "\n" + (line + ("</" + ("setBLOBVector" + (">" + ("\n" + tail))))))))
  {
    hide AttrsText, Address;
    VectorShape("setBLOBVector", AttrsText(Address(device, prop)), line, tail);
    assert "<" + "setBLOBVector" == "<setBLOBVector" && "</" + "setBLOBVector" + ">\n" == "</setBLOBVector>\n";
  }

  lemma AttachedMembers(
      cfg: Config, v: Progress, name: string, size: int, format: string, flag: string, tail: string)
    requires v.el.vtype == Blob && v.el.members == [] && MIN_INT64 <= size <= MAX_INT64
    requires |name| <= MAX_TOKEN && |format| <= MAX_TOKEN && |flag| <= MAX_TOKEN
    ensures Members(cfg, v, "setBLOBVector", "oneBLOB",
                    "\n" + (("  <oneBLOB" + AttrsText(AttachedAttrs(name, size, format, flag)) + "/>\n")
                      + ("</" + ("setBLOBVector" + (">" + ("\n" + tail))))))
         == Done(AddMember(v, AttachedMember(name, size, format, flag == "true")), "\n" + tail)
  {
    hide MemberStep, AttrsText, AttachedAttrs, IsName, MemberAttrs;
    BlobTags();
    var attrs := AttachedAttrs(name, size, format, flag);
    var end := "</" + ("setBLOBVector" + (">" + ("\n" + tail)));
    AttachedReadable(name, size, format, flag);
    FourAttrs(name, size, format, flag);
    assert "  <" + "oneBLOB" == "  <oneBLOB";
    EmptyMemberReads(cfg, v, "setBLOBVector", "oneBLOB", attrs, end);
    AttachedAttrsRead(cfg.numbers, name, size, format, flag);
    var w := AddMember(v, AttachedMember(name, size, format, flag == "true"));
    EndStepReads(cfg, w, "setBLOBVector", "oneBLOB", tail);
  }

  lemma FourAttrs(name: string, size: int, format: string, flag: string)
    ensures |AttachedAttrs(name, size, format, flag)| == 4
  {
  }

  // Images

  /** What a sink is told of one image. */
  function MetaOf(device: string, prop: string, m: Member, blobs: Payloads): BlobMeta {
    BlobMeta(device, prop, m.name, m.blobFormat, SizeOf(m, blobs))
  }

  /** An image that a sink takes leaves its member without one. */
  function ImageOf(cfg: Config, device: string, prop: string, m: Member, blobs: Payloads): Member {
    NO_MEMBER.(
      name := m.name, size := SizeOf(m, blobs), blobFormat := m.blobFormat,
      data := if cfg.routed(MetaOf(device, prop, m, blobs)) then [] else Payload(m, blobs))
  }

  /** The images a sink takes, in order. */
  function Handed(cfg: Config, device: string, prop: string, ms: seq<Member>, blobs: Payloads): seq<Delivery> {
    if ms == [] then []
    else
      var meta := MetaOf(device, prop, ms[0], blobs);
      (if cfg.routed(meta) then [Delivery(meta, Payload(ms[0], blobs))] else [])
      + Handed(cfg, device, prop, ms[1..], blobs)
  }

  function Images(cfg: Config, device: string, prop: string, ms: seq<Member>, blobs: Payloads): seq<Member> {
    seq(|ms|, i requires 0 <= i < |ms| => ImageOf(cfg, device, prop, ms[i], blobs))
  }

  lemma {:induction false} CanonImages(cfg: Config, v: Progress, ms: seq<Member>, blobs: Payloads)
    requires v.el.vtype == Blob
    ensures var images := Images(cfg, v.el.device, v.el.name, ms, blobs);
            CanonMembers(cfg, v, false, ms, blobs)
            == v.(el := v.el.(members := v.el.members + images),
                  sunk := v.sunk + Handed(cfg, v.el.device, v.el.name, ms, blobs))
    decreases |ms|
  {
    hide CanonAdd, ImageOf, MetaOf;
    if ms == [] {
      assert v.el.members + [] == v.el.members && v.sunk + [] == v.sunk;
    } else {
      var device, prop := v.el.device, v.el.name;
      var u := CanonAdd(cfg, v, false, ms[0], blobs);
      OneImage(cfg, v, ms[0], blobs);
      CanonImages(cfg, u, ms[1..], blobs);
      assert Images(cfg, device, prop, ms, blobs)
          == [ImageOf(cfg, device, prop, ms[0], blobs)] + Images(cfg, device, prop, ms[1..], blobs);
    }
  }

  lemma OneImage(cfg: Config, v: Progress, m: Member, blobs: Payloads)
    requires v.el.vtype == Blob
    ensures var meta := MetaOf(v.el.device, v.el.name, m, blobs);
            var image := ImageOf(cfg, v.el.device, v.el.name, m, blobs);
            CanonAdd(cfg, v, false, m, blobs)
            == v.(el := v.el.(members := v.el.members + [image]),
                  sunk := v.sunk + if cfg.routed(meta) then [Delivery(meta, Payload(m, blobs))] else [])
  {
    var c := CanonMember(cfg.numbers, Blob, false, m, blobs);
    assert c == NO_MEMBER.(name := m.name, size := SizeOf(m, blobs), blobFormat := m.blobFormat);
    assert v.sunk + [] == v.sunk;
  }

  /** The images of an update, over the wire: each one goes to the sink if that wants it,
      under its device's, property's and own name, and to its member otherwise; all of them
      byte for byte and in order. */
  lemma ImagesArrive(
      cfg: Config, el: Element, blobs: Payloads, unknown: nat, sunk: seq<Delivery>, pad: string, tail: string)
    requires cfg.numbers.Lawful() && (pad == "" || pad == "\n")
    requires el.kind == KindSet && el.vtype == Blob && Fits(el, blobs)
    ensures var r := Next(cfg, pad + (ElementText(cfg.numbers, el, blobs).value + tail), unknown, sunk);
            && r.Done? && r.rest == "\n" + tail && r.value.unknown == unknown
            && r.value.sunk == sunk + Handed(cfg, el.device, el.name, el.members, blobs)
            && r.value.el.members == Images(cfg, el.device, el.name, el.members, blobs)
  {
    hide Next, ElementText, CanonMembers, Handed, Images;
    ElementReads(cfg, el, blobs, unknown, sunk, pad, tail);
    CanonImages(cfg, Progress(CanonHead(el, false), unknown, sunk), el.members, blobs);
  }
}
