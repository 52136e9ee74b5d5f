/** The client half of the protocol: what a writer sends, and that the parser of whoever
    it is sent to reads it back. */
module Writing {
  import opened Lists
  import opened Wire
  import opened Grammar
  import opened Encoding
  import opened RoundTrip
  import Presets

  // The texts

  function NewTag(t: VType): string {
    "new" + TypeTag(t) + "Vector"
  }

  function Address(device: string, prop: string): seq<Attr> {
    Opt("device", device) + Opt("name", prop)
  }

  /** New values for members of a vector: the lines are those of an update. */
  function NewVectorText(n: NumText, t: VType, device: string, prop: string, ms: seq<Member>): string {
    "<" + NewTag(t) + AttrsText(Address(device, prop)) + ">\n"
    + MemberLines(n, t, false, ms, map[])
    + ("</" + NewTag(t) + ">\n")
  }

  function EnableText(device: string, mode: string): string {
    "<enableBLOB" + AttrsText(Opt("device", device)) + ">" + (Escape(mode) + "</enableBLOB>\n")
  }

  function QueryText(device: string, prop: string): string {
    "<getProperties" + AttrsText([Attr("version", "1.7")] + Address(device, prop)) + "/>\n"
  }

  // Members with nothing but a name and a value

  function NumberMember(name: string, v: Num): Member {
    NO_MEMBER.(name := name, value := v)
  }

  function SwitchMember(name: string, on: bool): Member {
    NO_MEMBER.(name := name, on := on)
  }

  function TextMember(name: string, text: string): Member {
    NO_MEMBER.(name := name, text := text)
  }

  function NumberMembers(names: seq<string>, values: map<string, Num>): seq<Member>
    requires forall name :: name in names ==> name in values
  {
    seq(|names|, i requires 0 <= i < |names| => NumberMember(names[i], values[names[i]]))
  }

  function TextMembers(names: seq<string>, values: map<string, string>): seq<Member>
    requires forall name :: name in names ==> name in values
  {
    seq(|names|, i requires 0 <= i < |names| => TextMember(names[i], values[names[i]]))
  }

  /** The names to turn on, then the names to turn off. */
  function SwitchMembers(on: seq<string>, off: seq<string>): seq<Member> {
    seq(|on| + |off|, i requires 0 <= i < |on| + |off| =>
      if i < |on| then SwitchMember(on[i], true) else SwitchMember(off[i - |on|], false))
  }

  /** Every key, once. */
  ghost predicate Arranges(names: seq<string>, keys: set<string>) {
    Distinct(names) && forall k :: k in names <==> k in keys
  }

  class Writer {
    /** What has been sent. */
    var sent: string

    constructor ()
      ensures sent == ""
    {
      sent := "";
    }

    method Send(s: string)
      modifies this
      ensures sent == old(sent) + s
    {
      sent := sent + s;
    }

    method GetProperties(device: string, prop: string)
      modifies this
      ensures sent == old(sent) + QueryText(device, prop)
    {
      hide AttrsText, Address;
      var sb := new Builder();
      sb.WriteString("<getProperties version='1.7'");
      VersionText();
      WriteAddress(sb, device, prop);
      ghost var all := Extend("<getProperties", [Attr("version", "1.7")], Address(device, prop));
      sb.WriteString("/>\n");
      Send(sb.text);
    }

    method EnableBLOB(device: string, mode: string)
      modifies this
      ensures sent == old(sent) + EnableText(device, mode)
    {
      hide AttrsText, Escape;
      var sb := new Builder();
      sb.WriteString("<enableBLOB");
      OptAttr(sb, "device", device);
      sb.WriteString(">");
      XmlEscape(sb, mode);
      sb.WriteString("</enableBLOB>\n");
      Send(sb.text);
    }

    method PingReply(uid: string)
      modifies this
      ensures sent == old(sent) + PingReplyText(uid)
    {
      var s := EncodePingReply(uid);
      Send(s);
    }

    method SetNumber(n: NumText, device: string, prop: string, values: map<string, Num>)
      returns (ghost names: seq<string>)
      requires n.Lawful()
      modifies this
      ensures Arranges(names, values.Keys)
      ensures sent == old(sent) + NewVectorText(n, Number, device, prop, NumberMembers(names, values))
    {
      hide MemberLines, AttrsText, NewTag, Arranges;
      var sb := new Builder();
      OpenVector(sb, NewTag(Number), device, prop);
      names := WriteNumbers(sb, n, values);
      WriteClose(sb, NewTag(Number));
      Send(sb.text);
    }

    method SetSwitch(n: NumText, device: string, prop: string, on: seq<string>, off: seq<string>)
      modifies this
      ensures sent == old(sent) + NewVectorText(n, Switch, device, prop, SwitchMembers(on, off))
    {
      hide MemberLines, MemberLine, AttrsText, NewTag;
      var sb := new Builder();
      OpenVector(sb, NewTag(Switch), device, prop);
      ghost var head := sb.text;
      NoLines(n, Switch, SwitchMembers(on[..0], []));
      hide SwitchMembers, LineText;
      for k := 0 to |on|
        invariant sent == old(sent)
        invariant sb.text == head + MemberLines(n, Switch, false, SwitchMembers(on[..k], []), map[])
      {
        WriteValue(sb, "oneSwitch", on[k], "On");
        SwitchesGrow(n, on[..k], [], on[k], true);
        Assoc(head, MemberLines(n, Switch, false, SwitchMembers(on[..k], []), map[]),
              LineText("oneSwitch", on[k], "On"));
        assert on[..k + 1] == on[..k] + [on[k]];
      }
      assert on[..|on|] == on && off[..0] == [];
      for k := 0 to |off|
        invariant sent == old(sent)
        invariant sb.text == head + MemberLines(n, Switch, false, SwitchMembers(on, off[..k]), map[])
      {
        WriteValue(sb, "oneSwitch", off[k], "Off");
        SwitchesGrow(n, on, off[..k], off[k], false);
        Assoc(head, MemberLines(n, Switch, false, SwitchMembers(on, off[..k]), map[]),
              LineText("oneSwitch", off[k], "Off"));
        assert off[..k + 1] == off[..k] + [off[k]];
      }
      assert off[..|off|] == off;
      WriteClose(sb, NewTag(Switch));
      Send(sb.text);
    }

    method SetText(n: NumText, device: string, prop: string, values: map<string, string>)
      returns (ghost names: seq<string>)
      modifies this
      ensures Arranges(names, values.Keys)
      ensures sent == old(sent) + NewVectorText(n, Text, device, prop, TextMembers(names, values))
    {
      hide MemberLines, AttrsText, NewTag, Arranges;
      var sb := new Builder();
      OpenVector(sb, NewTag(Text), device, prop);
      names := WriteTexts(sb, n, values);
      WriteClose(sb, NewTag(Text));
      Send(sb.text);
    }
  }

  lemma VersionText()
    ensures "<getProperties version='1.7'" == "<getProperties" + AttrsText([Attr("version", "1.7")])
  {
    hide AttrsText;
    EscapePlain("1.7");
    AttrsTextOne(Attr("version", "1.7"));
  }

  method WriteAddress(sb: Builder, device: string, prop: string)
    modifies sb
    ensures sb.text == old(sb.text) + AttrsText(Address(device, prop))
  {
    hide AttrsText;
    OptAttr(sb, "device", device);
    OptAttr(sb, "name", prop);
    ghost var all := Extend(old(sb.text), Opt("device", device), Opt("name", prop));
  }

  method OpenVector(sb: Builder, tag: string, device: string, prop: string)
    requires sb.text == ""
    modifies sb
    ensures sb.text == "<" + tag + AttrsText(Address(device, prop)) + ">\n"
  {
    hide AttrsText;
    sb.WriteString("<");
    sb.WriteString(tag);
    WriteAddress(sb, device, prop);
    sb.WriteString(">\n");
  }

  /** One line: a name and a value. */
  function LineText(tag: string, name: string, value: string): string {
    "  <" + tag + AttrsText([Attr("name", name)]) + ">" + (Escape(value) + ("</" + tag + ">\n"))
  }

  method WriteValue(sb: Builder, tag: string, name: string, value: string)
    modifies sb
    ensures sb.text == old(sb.text) + LineText(tag, name, value)
  {
    hide AttrsText, Escape;
    sb.WriteString("  <");
    sb.WriteString(tag);
    WriteName(sb, name);
    sb.WriteString(">");
    XmlEscape(sb, value);
    WriteClose(sb, tag);
  }

  lemma NoneArranged(keys: set<string>)
    requires keys == {}
    ensures Arranges([], keys)
  {
  }

  lemma OneArranged(names: seq<string>, keys: set<string>, name: string)
    requires Arranges(names, keys) && name !in keys
    ensures Arranges(names + [name], keys + {name})
  {
  }

  /** A number's text needs no escaping. */
  method WriteNumber(sb: Builder, n: NumText, name: string, v: Num)
    requires n.Lawful()
    modifies sb
    ensures sb.text == old(sb.text) + MemberLine(n, Number, false, NumberMember(name, v), map[])
  {
    hide AttrsText, Escape, MemberLine;
    sb.WriteString("  <oneNumber");
    WriteName(sb, name);
    sb.WriteString(">");
    EscapePlain(n.format(v));
    sb.WriteString(n.format(v));
    sb.WriteString("</oneNumber>\n");
    NumberLine(n, name, v);
    LineShut(name, n.format(v));
  }

  lemma LineShut(name: string, value: string)
    ensures LineText("oneNumber", name, value)
         == "  <oneNumber" + AttrsText([Attr("name", name)]) + ">" + (Escape(value) + "</oneNumber>\n")
  {
    hide AttrsText, Escape;
    assert "  <" + "oneNumber" == "  <oneNumber" && "</" + "oneNumber" + ">\n" == "</oneNumber>\n";
  }

  /** A map's entries, in whatever order it is walked. */
  method WriteNumbers(sb: Builder, n: NumText, values: map<string, Num>) returns (ghost names: seq<string>)
    requires n.Lawful()
    modifies sb
    ensures Arranges(names, values.Keys)
    ensures sb.text == old(sb.text) + MemberLines(n, Number, false, NumberMembers(names, values), map[])
  {
    hide MemberLines, MemberLine, NumText.Lawful, Arranges;
    var rest := values.Keys;
    names := [];
    NoLines(n, Number, NumberMembers([], values));
    hide NumberMembers;
    NoneArranged(values.Keys - rest);
    while rest != {}
      invariant rest <= values.Keys && Arranges(names, values.Keys - rest)
      invariant forall name :: name in names ==> name in values
      invariant sb.text == old(sb.text) + MemberLines(n, Number, false, NumberMembers(names, values), map[])
      decreases |rest|
    {
      var name :| name in rest;
      WriteNumber(sb, n, name, values[name]);
      NumberLinesGrow(n, names, values, name);
      Assoc(old(sb.text), MemberLines(n, Number, false, NumberMembers(names, values), map[]),
            MemberLine(n, Number, false, NumberMember(name, values[name]), map[]));
      OneArranged(names, values.Keys - rest, name);
      assert values.Keys - rest + {name} == values.Keys - (rest - {name});
      rest, names := rest - {name}, names + [name];
    }
    assert values.Keys - rest == values.Keys;
  }

  method WriteTexts(sb: Builder, n: NumText, values: map<string, string>) returns (ghost names: seq<string>)
    modifies sb
    ensures Arranges(names, values.Keys)
    ensures sb.text == old(sb.text) + MemberLines(n, Text, false, TextMembers(names, values), map[])
  {
    hide MemberLines, MemberLine, LineText, Arranges;
    var rest := values.Keys;
    names := [];
    NoLines(n, Text, TextMembers([], values));
    hide TextMembers;
    NoneArranged(values.Keys - rest);
    while rest != {}
      invariant rest <= values.Keys && Arranges(names, values.Keys - rest)
      invariant forall name :: name in names ==> name in values
      invariant sb.text == old(sb.text) + MemberLines(n, Text, false, TextMembers(names, values), map[])
      decreases |rest|
    {
      var name :| name in rest;
      WriteValue(sb, "oneText", name, values[name]);
      TextLinesGrow(n, names, values, name);
      Assoc(old(sb.text), MemberLines(n, Text, false, TextMembers(names, values), map[]),
            LineText("oneText", name, values[name]));
      OneArranged(names, values.Keys - rest, name);
      assert values.Keys - rest + {name} == values.Keys - (rest - {name});
      rest, names := rest - {name}, names + [name];
    }
    assert values.Keys - rest == values.Keys;
  }

  lemma NumberLine(n: NumText, name: string, v: Num)
    ensures MemberLine(n, Number, false, NumberMember(name, v), map[]) == LineText("oneNumber", name, n.format(v))
  {
    hide AttrsText, Escape;
    assert MemberAttrList(n, Number, false, NumberMember(name, v), map[]) == [Attr("name", name)];
    assert MemberTag(false, Number) == "oneNumber";
  }

  lemma SwitchLine(n: NumText, name: string, on: bool)
    ensures MemberLine(n, Switch, false, SwitchMember(name, on), map[])
         == LineText("oneSwitch", name, if on then "On" else "Off")
  {
    hide AttrsText, Escape;
    assert MemberAttrList(n, Switch, false, SwitchMember(name, on), map[]) == [Attr("name", name)];
    assert MemberTag(false, Switch) == "oneSwitch";
  }

  lemma TextLine(n: NumText, name: string, text: string)
    ensures MemberLine(n, Text, false, TextMember(name, text), map[]) == LineText("oneText", name, text)
  {
    hide AttrsText, Escape;
    assert MemberAttrList(n, Text, false, TextMember(name, text), map[]) == [Attr("name", name)];
    assert MemberTag(false, Text) == "oneText";
  }

  lemma NoLines(n: NumText, t: VType, ms: seq<Member>)
    requires |ms| == 0
    ensures MemberLines(n, t, false, ms, map[]) == ""
  {
  }

  lemma LinesGrow(n: NumText, t: VType, ms: seq<Member>, m: Member)
    ensures MemberLines(n, t, false, ms + [m], map[])
         == MemberLines(n, t, false, ms, map[]) + MemberLine(n, t, false, m, map[])
  {
    MemberLinesAppend(n, t, false, ms, m, map[]);
  }

  lemma SwitchesGrow(n: NumText, on: seq<string>, off: seq<string>, name: string, which: bool)
    requires which ==> off == []
    ensures var more := if which then SwitchMembers(on + [name], off) else SwitchMembers(on, off + [name]);
            MemberLines(n, Switch, false, more, map[])
            == MemberLines(n, Switch, false, SwitchMembers(on, off), map[])
               + LineText("oneSwitch", name, if which then "On" else "Off")
  {
    hide MemberLines, MemberLine, LineText;
    SwitchLine(n, name, which);
    LinesGrow(n, Switch, SwitchMembers(on, off), SwitchMember(name, which));
    var more := if which then SwitchMembers(on + [name], off) else SwitchMembers(on, off + [name]);
    assert more == SwitchMembers(on, off) + [SwitchMember(name, which)];
  }

  lemma NumberLinesGrow(n: NumText, names: seq<string>, values: map<string, Num>, name: string)
    requires (forall k :: k in names ==> k in values) && name in values
    ensures MemberLines(n, Number, false, NumberMembers(names + [name], values), map[])
         == MemberLines(n, Number, false, NumberMembers(names, values), map[])
            + MemberLine(n, Number, false, NumberMember(name, values[name]), map[])
  {
    hide MemberLines, MemberLine;
    LinesGrow(n, Number, NumberMembers(names, values), NumberMember(name, values[name]));
    assert NumberMembers(names + [name], values) == NumberMembers(names, values) + [NumberMember(name, values[name])];
  }

  lemma TextLinesGrow(n: NumText, names: seq<string>, values: map<string, string>, name: string)
    requires (forall k :: k in names ==> k in values) && name in values
    ensures MemberLines(n, Text, false, TextMembers(names + [name], values), map[])
         == MemberLines(n, Text, false, TextMembers(names, values), map[]) + LineText("oneText", name, values[name])
  {
    hide MemberLines, MemberLine, LineText;
    LinesGrow(n, Text, TextMembers(names, values), TextMember(name, values[name]));
    TextLine(n, name, values[name]);
    assert TextMembers(names + [name], values) == TextMembers(names, values) + [TextMember(name, values[name])];
  }

  // Reading them back

  /** Members as the wire leaves them. */
  function Arrived(n: NumText, t: VType, ms: seq<Member>): seq<Member> {
    seq(|ms|, i requires 0 <= i < |ms| => CanonMember(n, t, false, ms[i], map[]))
  }

  function NewElement(n: NumText, t: VType, device: string, prop: string, ms: seq<Member>): Element {
    Blank(KindNew, t).(device := device, name := prop, members := Arrived(n, t, ms))
  }

  lemma {:induction false} PlainMembers(cfg: Config, v: Progress, ms: seq<Member>)
    requires v.el.vtype != Blob
    ensures CanonMembers(cfg, v, false, ms, map[])
         == v.(el := v.el.(members := v.el.members + Arrived(cfg.numbers, v.el.vtype, ms)))
    decreases |ms|
  {
    hide CanonMember;
    var t := v.el.vtype;
    if ms == [] {
      assert v.el.members + Arrived(cfg.numbers, t, ms) == v.el.members;
    } else {
      PlainMembers(cfg, CanonAdd(cfg, v, false, ms[0], map[]), ms[1..]);
      assert Arrived(cfg.numbers, t, ms) ==
          [CanonMember(cfg.numbers, t, false, ms[0], map[])] + Arrived(cfg.numbers, t, ms[1..]);
    }
  }

  lemma NewTagParts(middle: string)
    ensures var tag := "new" + middle + "Vector";
            && IsVectorTag("new", tag) && !IsVectorTag("def", tag) && !IsVectorTag("set", tag)
            && |tag| >= 9 && tag[3..|tag| - 6] == middle
  {
    var tag := "new" + middle + "Vector";
    assert tag == "new" + (middle + "Vector");
    assert tag[|tag| - 6..] == "Vector";
    assert tag[0] == 'n';
  }

  lemma NewTagName(t: VType)
    ensures IsName(NewTag(t))
  {
  }

  lemma TypeTagParses(t: VType)
    ensures VTypeOf(TypeTag(t)) == Some(t)
  {
    assert "Light"[0] != "Number"[0];
    assert "Text"[0] != "BLOB"[0];
    assert "Switch"[0] != "Number"[0];
  }

  lemma ClassifyNew(t: VType)
    ensures Classify(NewTag(t)) == VectorForm(KindNew, t, MemberTag(false, t)) && IsName(NewTag(t))
  {
    hide TypeTag, VTypeOf, IsVectorTag, IsName;
    NewTagParts(TypeTag(t));
    NewTagName(t);
    TypeTagParses(t);
  }

  lemma AddressReads(e: Element, device: string, prop: string)
    requires e.device == "" && e.name == "" && |device| <= MAX_TOKEN && |prop| <= MAX_TOKEN
    ensures VectorAttrs(e, Address(device, prop)) == e.(device := device, name := prop)
    ensures forall i :: 0 <= i < |Address(device, prop)| ==> Readable(Address(device, prop)[i])
  {
    hide SetVectorAttr, VectorAttrs;
    OptSets(e, "device", device, Opt("name", prop));
    SetsIdentity(e, device);
    OptSetsLast(e.(device := device), "name", prop);
    SetsIdentity(e.(device := device), prop);
    assert Readable(Attr("device", device)) && Readable(Attr("name", prop));
  }

  /** New values in front of anything read back as the element that says them. */
  lemma NewReads(
      cfg: Config, t: VType, device: string, prop: string, ms: seq<Member>, unknown: nat, sunk: seq<Delivery>,
      tail: string)
    requires cfg.numbers.Lawful() && t != Blob && |device| <= MAX_TOKEN && |prop| <= MAX_TOKEN
    requires |ms| <= MAX_MEMBERS && forall i :: 0 <= i < |ms| ==> MemberFits(ms[i], map[])
    ensures Next(cfg, NewVectorText(cfg.numbers, t, device, prop, ms) + tail, unknown, sunk)
         == Done(Progress(NewElement(cfg.numbers, t, device, prop, ms), unknown, sunk), "\n" + tail)
  {
    hide Address, AttrsText, MemberLines, NewTag, MemberTag, CanonMembers, Classify, Members, StartTag, TagEnd,
        SkipToTop;
    hide VectorAttrs, Arrived, MemberFits;
    var tag, attrs, lines := NewTag(t), Address(device, prop), MemberLines(cfg.numbers, t, false, ms, map[]);
    ClassifyNew(t);
    VectorShape(tag, AttrsText(attrs), lines, tail);
    var inner := "\n" + (lines + ("</" + (tag + (">" + ("\n" + tail)))));
    var s1 := tag + (AttrsText(attrs) + TagEnd(false, inner));
    var s := NewVectorText(cfg.numbers, t, device, prop, ms) + tail;
    assert s == "<" + s1;
    TopAt(cfg, s1);
    assert ("<" + s1)[1] == tag[0];
    var e := Blank(KindNew, t);
    AddressReads(e, device, prop);
    StartTagReads(tag, attrs, false, inner);
    var v := Progress(e.(device := device, name := prop), unknown, sunk);
    MembersRead(cfg, v, false, ms, map[], tag, tail);
    PlainMembers(cfg, v, ms);
    assert [] + Arrived(cfg.numbers, t, ms) == Arrived(cfg.numbers, t, ms);
    assert TopStep(cfg, s, unknown, sunk)
        == Done(Found(Progress(NewElement(cfg.numbers, t, device, prop, ms), unknown, sunk)), "\n" + tail);
  }

  lemma {:induction false} ValuesMapped(names: seq<string>, values: map<string, Num>, ms: seq<Member>)
    requires |ms| == |names| && forall name :: name in names ==> name in values
    requires forall i :: 0 <= i < |names| ==> ms[i].name == names[i] && ms[i].value == values[names[i]]
    ensures Presets.Values(ms) == map name | name in names :: values[name]
    decreases |ms|
  {
    if ms == [] {
    } else {
      var k := |ms| - 1;
      ValuesMapped(names[..k], values, ms[..k]);
      assert names == names[..k] + [names[k]];
    }
  }

  /** The numbers of a map, however it was walked, arrive as that map. */
  lemma NumbersArrive(
      cfg: Config, device: string, prop: string, values: map<string, Num>, names: seq<string>, unknown: nat,
      sunk: seq<Delivery>, tail: string)
    requires cfg.numbers.Lawful() && |device| <= MAX_TOKEN && |prop| <= MAX_TOKEN
    requires Arranges(names, values.Keys) && |names| <= MAX_MEMBERS
    requires forall name :: name in values ==> |name| <= MAX_TOKEN
    ensures var r := Next(cfg, NewVectorText(cfg.numbers, Number, device, prop, NumberMembers(names, values)) + tail,
            unknown, sunk);
            && r.Done? && r.rest == "\n" + tail
            && var el := r.value.el;
               el.kind == KindNew && el.vtype == Number && el.device == device && el.name == prop
               && |el.members| == |values| && Presets.Values(el.members) == values
  {
    hide Next, NewVectorText, CanonMember, MemberFits;
    var n, ms := cfg.numbers, NumberMembers(names, values);
    var there := Arrived(n, Number, ms);
    forall i | 0 <= i < |names|
      ensures MemberFits(ms[i], map[]) && there[i].name == names[i] && there[i].value == values[names[i]]
    {
      assert names[i] in names;
      NumberArrives(n, names[i], values[names[i]]);
    }
    NewReads(cfg, Number, device, prop, ms, unknown, sunk, tail);
    ValuesMapped(names, values, there);
    assert (map name | name in names :: values[name]) == values;
    ArrangedSize(names, values.Keys);
  }

  lemma NumberArrives(n: NumText, name: string, v: Num)
    requires |name| <= MAX_TOKEN
    ensures MemberFits(NumberMember(name, v), map[])
    ensures var m := CanonMember(n, Number, false, NumberMember(name, v), map[]); m.name == name && m.value == v
  {
    hide TrimSpace;
  }

  lemma {:induction false} ArrangedSize(names: seq<string>, keys: set<string>)
    requires Arranges(names, keys)
    ensures |names| == |keys|
  {
    if names == [] {
      assert keys == {};
    } else {
      var k := |names| - 1;
      assert names == names[..k] + [names[k]];
      ArrangedSize(names[..k], keys - {names[k]});
    }
  }

  /** The switches to turn on arrive on, the ones to turn off arrive off, in order. */
  lemma SwitchesArrive(
      cfg: Config, device: string, prop: string, on: seq<string>, off: seq<string>, unknown: nat, sunk: seq<Delivery>,
      tail: string)
    requires cfg.numbers.Lawful() && |device| <= MAX_TOKEN && |prop| <= MAX_TOKEN && |on| + |off| <= MAX_MEMBERS
    requires forall name :: name in on + off ==> |name| <= MAX_TOKEN
    ensures var r := Next(cfg, NewVectorText(cfg.numbers, Switch, device, prop, SwitchMembers(on, off)) + tail,
            unknown, sunk);
            && r.Done? && r.rest == "\n" + tail
            && var el := r.value.el;
               el.kind == KindNew && el.vtype == Switch && el.device == device && el.name == prop
               && |el.members| == |on + off|
               && forall i :: 0 <= i < |on + off| ==>
                   el.members[i].name == (on + off)[i] && (el.members[i].on <==> i < |on|)
  {
    hide Next, NewVectorText, TrimSpace;
    var ms := SwitchMembers(on, off);
    forall i | 0 <= i < |ms|
      ensures ms[i] == SwitchMember((on + off)[i], i < |on|) && MemberFits(ms[i], map[])
    {
      assert (on + off)[i] in on + off;
      if i < |on| {
        assert (on + off)[i] == on[i];
      } else {
        assert (on + off)[i] == off[i - |on|];
      }
    }
    NewReads(cfg, Switch, device, prop, ms, unknown, sunk, tail);
  }

  /** The texts of a map arrive trimmed. */
  lemma TextsArrive(
      cfg: Config, device: string, prop: string, values: map<string, string>, names: seq<string>, unknown: nat,
      sunk: seq<Delivery>, tail: string)
    requires cfg.numbers.Lawful() && |device| <= MAX_TOKEN && |prop| <= MAX_TOKEN
    requires Arranges(names, values.Keys) && |names| <= MAX_MEMBERS
    requires forall name :: name in values ==> |name| <= MAX_TOKEN && |values[name]| <= MAX_TOKEN
    ensures var r := Next(cfg, NewVectorText(cfg.numbers, Text, device, prop, TextMembers(names, values)) + tail,
            unknown, sunk);
            && r.Done? && r.rest == "\n" + tail
            && var el := r.value.el;
               el.kind == KindNew && el.vtype == Text && el.device == device && el.name == prop
               && |el.members| == |names|
               && forall i :: 0 <= i < |names| ==>
                    el.members[i].name == names[i] && el.members[i].text == TrimSpace(values[names[i]])
  {
    hide Next, NewVectorText, TrimSpace;
    NewReads(cfg, Text, device, prop, TextMembers(names, values), unknown, sunk, tail);
  }

  lemma ClassifyEnable()
    ensures Classify("enableBLOB") == ModeForm && IsName("enableBLOB")
  {
    assert "enableBLOB"[0] != "def"[0] && "enableBLOB"[0] != "set"[0] && "enableBLOB"[0] != "new"[0];
    assert "enableBLOB"[0] != "message"[0] && "enableBLOB"[0] != "delProperty"[0] &&
        "enableBLOB"[0] != "getProperties"[0];
  }

  lemma EnableShape(attrs: string, mode: string, tail: string)
    ensures "<enableBLOB" + attrs + ">" + (mode + "</enableBLOB>\n") + tail
         == "<" + ("enableBLOB" + (attrs + TagEnd(false, mode + ("</" + ("enableBLOB" + (">" + ("\n" + tail)))))))
  {
    assert "</enableBLOB>\n" == "</" + ("enableBLOB" + (">" + "\n"));
  }

  /** A subscription reads back with its mode byte for byte. */
  lemma EnableReads(cfg: Config, device: string, mode: string, unknown: nat, sunk: seq<Delivery>, tail: string)
    requires |device| <= MAX_TOKEN && |mode| <= MAX_TOKEN
    ensures Next(cfg, EnableText(device, mode) + tail, unknown, sunk)
         == Done(Progress(Blank(KindEnableBLOB, Number).(device := device, message := mode), unknown, sunk),
                 "\n" + tail)
  {
    hide AttrsText, Escape, Classify, StartTag, TagEnd, SkipToTop, VectorAttrs, TextUntilClose, CloseTag;
    var tag, attrs := "enableBLOB", Opt("device", device);
    EnableShape(AttrsText(attrs), Escape(mode), tail);
    var after := tag + (">" + ("\n" + tail));
    var inner := Escape(mode) + ("</" + after);
    var s1 := tag + (AttrsText(attrs) + TagEnd(false, inner));
    var s := EnableText(device, mode) + tail;
    assert s == "<" + s1;
    TopAt(cfg, s1);
    assert ("<" + s1)[1] == 'e';
    ClassifyEnable();
    assert Readable(Attr("device", device));
    StartTagReads(tag, attrs, false, inner);
    OptSetsLast(Blank(KindEnableBLOB, Number), "device", device);
    SetsIdentity(Blank(KindEnableBLOB, Number), device);
    CloseTagReads(tag, "\n" + tail);
    TextReads(tag, mode, "", after);
    assert "" + mode == mode;
    assert TopStep(cfg, s, unknown, sunk)
        == Done(Found(Progress(Blank(KindEnableBLOB, Number).(device := device, message := mode), unknown, sunk)),
            "\n" + tail);
  }

  lemma ClassifyQuery()
    ensures Classify("getProperties") == PlainForm(KindGetProps) && IsName("getProperties")
  {
    assert "getProperties"[0] != "def"[0] && "getProperties"[0] != "set"[0] && "getProperties"[0] != "new"[0];
    assert "getProperties"[0] != "message"[0] && "getProperties"[0] != "delProperty"[0];
  }

  /** A query reads back with the device and property it asks for. */
  lemma QueryReads(cfg: Config, device: string, prop: string, unknown: nat, sunk: seq<Delivery>, tail: string)
    requires |device| <= MAX_TOKEN && |prop| <= MAX_TOKEN
    ensures Next(cfg, QueryText(device, prop) + tail, unknown, sunk)
         == Done(Progress(Blank(KindGetProps, Number).(device := device, name := prop), unknown, sunk), "\n" + tail)
  {
    hide AttrsText, Classify, VectorAttrs, TopStep, Address, SetVectorAttr;
    var version := Attr("version", "1.7");
    var attrs := [version] + Address(device, prop);
    var e := Blank(KindGetProps, Number);
    ClassifyQuery();
    AddressReads(e, device, prop);
    assert Readable(version);
    VectorAttrsAppend(e, [version], Address(device, prop));
    VersionIgnored(e);
    EmptyStepReads(cfg, KindGetProps, "getProperties", attrs, unknown, sunk, "", tail);
    assert "<getProperties" == "<" + "getProperties";
    assert "" + (QueryText(device, prop) + tail) == QueryText(device, prop) + tail;
  }

  lemma VersionIgnored(e: Element)
    ensures VectorAttrs(e, [Attr("version", "1.7")]) == e
  {
    assert "version"[0] != "device"[0] && "version"[0] != "name"[0] && "version"[0] != "label"[0];
    assert "version"[0] != "group"[0] && "version"[0] != "state"[0] && "version"[0] != "perm"[0];
    assert "version"[0] != "rule"[0] && "version"[0] != "timestamp"[0] && "version"[0] != "message"[0];
  }
}
