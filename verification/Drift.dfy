/** How a client's copy drifts: a driver updates a text vector with a number, spelled its
    own way. The host keeps the spelling as the text; the wire respells the number. */
module Drift {
  import opened Lists
  import opened Wire
  import opened Grammar
  import opened Encoding
  import opened RoundTrip
  import opened Views
  import opened Mirror
  import opened LateJoiner
  import opened Writing

  /** The vector's definition: one text, empty. */
  const DEFINITION: Element :=
    Blank(KindDef, Text).(device := "D", name := "P", members := [NO_MEMBER.(name := "m")])

  /** An update of type number, as a parser reads it. */
  function Update(value: Num, text: string): Element {
    Blank(KindSet, Number).(
      device := "D", name := "P", members := [NO_MEMBER.(name := "m", text := text, value := value)])
  }

  /** What the driver writes for it. */
  function SpelledText(spelled: string): string {
    "<setNumberVector" + AttrsText(Address("D", "P")) + ">\n" + LineText("oneNumber", "m", spelled)
    + ("</setNumberVector>\n")
  }

  function DriverText(n: NumText, spelled: string): string {
    ElementText(n, DEFINITION, map[]).value + SpelledText(spelled)
  }

  /** What the host's parser makes of the update. */
  function Heard(n: NumText, spelled: string): Element {
    Update(n.parse(TrimSpace(spelled)), TrimSpace(spelled))
  }

  // Reading the driver's stream

  /** One line of a name and a value, whatever the value says. */
  lemma LineReads(cfg: Config, v: Progress, tag: string, name: string, value: string, close: string, rest: string)
    requires IsName(tag) && |name| <= MAX_TOKEN && |value| <= MAX_TOKEN
    requires v.el.vtype != Blob && |v.el.members| < MAX_MEMBERS
    ensures MemberStep(cfg, v, close, tag, "\n" + (LineText(tag, name, value) + rest))
         == Done(Added(AddMember(v, MemberValue(cfg.numbers, v.el.vtype, NO_MEMBER.(name := name), value))),
                 "\n" + rest)
  {
    hide AttrsText, Escape, StartTag, SkipToTag, TagEnd, TextUntilClose, CloseTag, MemberValue, SetMemberAttr;
    var attrs, after := [Attr("name", name)], tag + (">" + ("\n" + rest));
    var inner := Escape(value) + ("</" + after);
    LineShape(tag, AttrsText(attrs), Escape(value), rest);
    var s1 := tag + (AttrsText(attrs) + TagEnd(false, inner));
    Assoc("\n", "  ", "<" + s1);
    BlanksSkipped("\n" + "  ", s1);
    assert ("<" + s1)[1] == tag[0];
    assert Readable(attrs[0]);
    StartTagReads(tag, attrs, false, inner);
    MemberAttrsOne(cfg.numbers, v.el.vtype, NO_MEMBER, attrs[0]);
    SetsMember(cfg.numbers, v.el.vtype, NO_MEMBER, name);
    CloseTagReads(tag, "\n" + rest);
    TextReads(tag, value, "", after);
    assert "" + value == value;
  }

  lemma MembersHeard(cfg: Config, v: Progress, spelled: string, rest: string)
    requires |spelled| <= MAX_TOKEN && v.el.vtype == Number && v.el.members == []
    ensures Members(cfg, v, "setNumberVector", "oneNumber",
                    "\n" + (LineText("oneNumber", "m", spelled) + ("</" + ("setNumberVector" + (">" + ("\n" + rest))))))
         == Done(AddMember(v, MemberValue(cfg.numbers, Number, NO_MEMBER.(name := "m"), spelled)), "\n" + rest)
  {
    hide MemberStep, LineText, MemberValue, IsName;
    Tags();
    var end := "</" + ("setNumberVector" + (">" + ("\n" + rest)));
    LineReads(cfg, v, "oneNumber", "m", spelled, "setNumberVector", end);
    var w := AddMember(v, MemberValue(cfg.numbers, Number, NO_MEMBER.(name := "m"), spelled));
    EndStepReads(cfg, w, "setNumberVector", "oneNumber", rest);
  }

  lemma Tags()
    ensures VectorTag(false, Number) == "setNumberVector" && MemberTag(false, Number) == "oneNumber"
    ensures IsName("setNumberVector") && IsName("oneNumber")
  {
    TypeTagNames(false, Number);
  }

  lemma UpdateReads(cfg: Config, spelled: string, unknown: nat, sunk: seq<Delivery>)
    requires |spelled| <= MAX_TOKEN
    ensures Next(cfg, "\n" + SpelledText(spelled), unknown, sunk)
         == Done(Progress(Heard(cfg.numbers, spelled), unknown, sunk), "\n")
  {
    hide Address, AttrsText, LineText, Classify, Members, StartTag, TagEnd, SkipToTop, VectorAttrs, TrimSpace, IsName;
    hide VectorTag, MemberTag;
    var tag, attrs, line := "setNumberVector", Address("D", "P"), LineText("oneNumber", "m", spelled);
    Tags();
    ClassifyVector(false, Number);
    SpelledShape(spelled);
    var inner := "\n" + (line + ("</" + (tag + (">" + ("\n" + "")))));
    var s1 := tag + (AttrsText(attrs) + TagEnd(false, inner));
    var s := "\n" + SpelledText(spelled);
    BlanksSkipped("\n", s1);
    assert ("<" + s1)[1] == 's';
    var e := Blank(KindSet, Number);
    AddressReads(e, "D", "P");
    StartTagReads(tag, attrs, false, inner);
    var v := Progress(e.(device := "D", name := "P"), unknown, sunk);
    MembersHeard(cfg, v, spelled, "");
    HeardIs(cfg, v, spelled);
    assert "\n" + "" == "\n";
    assert TopStep(cfg, s, unknown, sunk) == Done(Found(Progress(Heard(cfg.numbers, spelled), unknown, sunk)), "\n");
  }

  lemma HeardIs(cfg: Config, v: Progress, spelled: string)
    requires v.el == Blank(KindSet, Number).(device := "D", name := "P")
    ensures AddMember(v, MemberValue(cfg.numbers, Number, NO_MEMBER.(name := "m"), spelled))
         == v.(el := Heard(cfg.numbers, spelled))
  {
    hide TrimSpace;
    var m := MemberValue(cfg.numbers, Number, NO_MEMBER.(name := "m"), spelled);
    assert [] + [m] == [m];
  }

  lemma SpelledShape(spelled: string)
    ensures SpelledText(spelled)
         == "<" + ("setNumberVector" + (AttrsText(Address("D", "P"))
              + TagEnd(false, "\n" + (LineText("oneNumber", "m", spelled)
                  + ("</" + ("setNumberVector" + (">" + ("\n" + ""))))))))
  {
    hide AttrsText, LineText, Address;
    VectorShape("setNumberVector", AttrsText(Address("D", "P")), LineText("oneNumber", "m", spelled), "");
    assert SpelledText(spelled) + "" == SpelledText(spelled);
  }

  /** The driver's stream reads as the definition and the update. */
  lemma DriverReads(cfg: Config, spelled: string)
    requires cfg.numbers.Lawful() && |spelled| <= MAX_TOKEN
    ensures var read := ReadAll(cfg, DriverText(cfg.numbers, spelled), 0, []);
            Elements(read.0) == [DEFINITION, Heard(cfg.numbers, spelled)] && read.1 == ReadError
  {
    hide Next, ElementText, SpelledText, Canon, NumText.Lawful, TrimSpace;
    var n := cfg.numbers;
    var first := Progress(DEFINITION, 0, []);
    DefinitionFits(cfg);
    ElementReads(cfg, DEFINITION, map[], 0, [], "", SpelledText(spelled));
    assert "" + DriverText(n, spelled) == DriverText(n, spelled);
    UpdateReads(cfg, spelled, 0, []);
    StreamEnds(cfg);
    var second := Progress(Heard(n, spelled), 0, []);
    assert ReadAll(cfg, "\n", 0, []) == ([], ReadError);
    assert ReadAll(cfg, "\n" + SpelledText(spelled), 0, []) == ([second] + [], ReadError);
    assert ReadAll(cfg, DriverText(n, spelled), 0, []) == ([first] + ([second] + []), ReadError);
  }

  lemma StreamEnds(cfg: Config)
    ensures Next(cfg, "\n", 0, []) == Fail(ReadError)
  {
    assert "\n"[1..] == "";
    assert SkipToTop(cfg.diagnostics, "\n") == Fail(ReadError);
  }

  lemma DefinitionFits(cfg: Config)
    ensures Fits(DEFINITION, map[]) && Canon(cfg, DEFINITION, map[], 0, []) == Progress(DEFINITION, 0, [])
  {
    TrimSpacePlain("");
    var m := NO_MEMBER.(name := "m");
    assert DEFINITION.members == [m] && CanonMember(cfg.numbers, Text, true, m, map[]) == m;
    var v := Progress(CanonHead(DEFINITION, true), 0, []);
    assert CanonAdd(cfg, v, true, m, map[]) == AddMember(v, m);
    assert CanonMembers(cfg, v, true, [m], map[]) == AddMember(v, m);
  }

  lemma UpdateFits(cfg: Config, value: Num, text: string)
    requires cfg.numbers.Lawful() && |text| <= MAX_TOKEN
    ensures Fits(Update(value, text), map[])
    ensures Canon(cfg, Update(value, text), map[], 0, []).el == Update(value, cfg.numbers.format(value))
  {
    hide TrimSpace;
    var n := cfg.numbers;
    TrimSpacePlain(n.format(value));
    var m := NO_MEMBER.(name := "m", text := text, value := value);
    var c := m.(text := n.format(value));
    assert CanonMember(n, Number, false, m, map[]) == c;
    var v := Progress(CanonHead(Update(value, text), false), 0, []);
    assert CanonAdd(cfg, v, false, m, map[]) == AddMember(v, c);
    assert CanonMembers(cfg, v, false, [m], map[]) == AddMember(v, c);
  }

  // Two stores

  /** What a store shows after the definition and an update. */
  function Shown(value: Num, text: string, clock: nat -> int): View {
    FoldAll(EMPTY, [DEFINITION, Update(value, text)], clock)
  }

  lemma DefinedVector(now: int)
    ensures var v := NewVec(DEFINITION, now);
            && v.members == [MemberVal(NO_MEMBER.(name := "m"), now)] && v.byName == map["m" := 0]
            && v.head == NewHead(DEFINITION, now)
  {
    assert IndexOf(DEFINITION.members[..0]) == map[];
  }

  lemma UpdatedVector(v: Vec, value: Num, text: string, was: int, now: int)
    requires v == NewVec(DEFINITION, was)
    ensures Indexed(v)
    ensures var w := SetVec(v, Update(value, text), now);
            FaceOf(true, w) == FaceOf(true, NewVec(DEFINITION, 0)).(members := [Face1(text)])
  {
    DefinedVector(was);
    DefinedVector(0);
    var m := NO_MEMBER.(name := "m", text := text, value := value);
    var el := Update(value, text);
    assert el.members == [m] && el.members[1..] == [];
    var w := SetVec(v, el, now);
    OneSet(v.members[0], m, now);
    assert w.members == [SetMember(v.members[0], m, now)];
    assert FacesOf(Text, w.members) == [Face1(text)];
  }

  lemma OneSet(mv: MemberVal, m: Member, now: int)
    requires m.name == "m"
    ensures SetMembers([mv], map["m" := 0], [m], now) == [SetMember(mv, m, now)]
  {
    hide SetMember;
    assert [m][1..] == [];
    assert [mv][0 := SetMember(mv, m, now)] == [SetMember(mv, m, now)];
    assert SetMembers([SetMember(mv, m, now)], map["m" := 0], [], now) == [SetMember(mv, m, now)];
  }

  function Face1(text: string): MemberFace {
    FaceOfMember(Text, NO_MEMBER.(name := "m", text := text))
  }

  lemma ShownIs(value: Num, text: string, clock: nat -> int)
    ensures var w := Shown(value, text, clock);
            && (forall d, p :: Has(w, d, p) <==> (d, p) == ("D", "P"))
            && FaceOf(true, w["D"]["P"]) == FaceOf(true, NewVec(DEFINITION, 0)).(members := [Face1(text)])
  {
    hide FaceOf, NewVec, SetVec, ViewOk, Indexed, Fold;
    NoneFolded();
    var el := Update(value, text);
    var els := [DEFINITION, el];
    assert els[..1] == [DEFINITION] && [DEFINITION][..0] == [];
    var one: View := map["D" := map["P" := NewVec(DEFINITION, clock(0))]];
    DefinitionFolds(clock(0));
    assert FoldAll(EMPTY, [DEFINITION], clock) == one;
    UpdateFolds(value, text, clock(0), clock(1));
    UpdatedVector(NewVec(DEFINITION, clock(0)), value, text, clock(0), clock(1));
  }

  lemma NoneFolded()
    ensures ViewOk(EMPTY)
  {
  }

  lemma DefinitionFolds(now: int)
    ensures ViewOk(EMPTY) && Fold(EMPTY, DEFINITION, now) == map["D" := map["P" := NewVec(DEFINITION, now)]]
  {
  }

  lemma UpdateFolds(value: Num, text: string, was: int, now: int)
    ensures var v := NewVec(DEFINITION, was);
            var one: View := map["D" := map["P" := v]];
            && ViewOk(one) && Indexed(v)
            && Fold(one, Update(value, text), now) == map["D" := map["P" := SetVec(v, Update(value, text), now)]]
  {
    hide NewVec, SetVec;
    var v := NewVec(DEFINITION, was);
    var one: View := map["D" := map["P" := v]];
    NewVecOk(DEFINITION, was);
    VecIndexed("D", "P", v);
    assert one["D"].Keys == {"P"};
    assert ViewOk(one);
    assert map["P" := v]["P" := SetVec(v, Update(value, text), now)]
        == map["P" := SetVec(v, Update(value, text), now)];
    assert Put(one, "D", "P", SetVec(v, Update(value, text), now))
        == map["D" := map["P" := SetVec(v, Update(value, text), now)]];
  }

  lemma SameIff(value: Num, a: string, b: string, clock: nat -> int, remote: nat -> int)
    ensures Same(true, Shown(value, a, clock), Shown(value, b, remote)) <==> a == b
  {
    hide FaceOf, Face1, Shown;
    ShownIs(value, a, clock);
    ShownIs(value, b, remote);
    SpellingShows(a, b);
  }

  /** From a driver's stream to a client's copy: they show the same if and only if the
      number was spelled as the host would spell it. */
  lemma RespelledDriftsIff(cfg: Config, spelled: string, clock: nat -> int, remote: nat -> int)
    requires cfg.numbers.Lawful() && |spelled| <= MAX_TOKEN
    ensures var n := cfg.numbers;
            var heard := Elements(ReadAll(cfg, DriverText(n, spelled), 0, []).0);
            && heard == [DEFINITION, Heard(n, spelled)]
            && var sent := [Outgoing(heard[0], map[]), Outgoing(heard[1], map[])];
               && AllSendable(sent) && AllServerKinds(sent)
               && var read := Elements(ReadAll(cfg, StreamText(n, sent), 0, []).0);
                  Same(true, FoldAll(EMPTY, heard, clock), FoldAll(EMPTY, read, remote)) <==>
                    TrimSpace(spelled) == n.format(n.parse(TrimSpace(spelled)))
  {
    hide TrimSpace, ReadAll, StreamText, DriverText, FoldAll, Fits, FaceOf, FacesOf, Canon, CanonAll;
    hide NumText.Lawful, Same;
    var n, text := cfg.numbers, TrimSpace(spelled);
    var value := n.parse(text);
    DriverReads(cfg, spelled);
    TrimSpaceIdempotent(spelled);
    DefinitionFits(cfg);
    UpdateFits(cfg, value, text);
    var sent := [Outgoing(DEFINITION, map[]), Outgoing(Update(value, text), map[])];
    StreamReads(cfg, sent);
    CanonAllEls(cfg, sent, 0, []);
    assert Canons(cfg, sent) == [DEFINITION, Update(value, n.format(value))];
    SameIff(value, text, n.format(value), clock, remote);
  }

  lemma SpellingShows(a: string, b: string)
    ensures [Face1(a)] == [Face1(b)] <==> a == b
  {
    assert [Face1(a)][0].text == a && [Face1(b)][0].text == b;
  }

  /** With decimal numbers, a driver that writes 01 leaves the host showing 01 and the
      client showing 1. */
  lemma LeadingZeroDrifts(routed: BlobMeta -> bool, diagnostics: bool, clock: nat -> int, remote: nat -> int)
    ensures var cfg := Config(DECIMAL, routed, diagnostics);
            var heard := Elements(ReadAll(cfg, DriverText(DECIMAL, "01"), 0, []).0);
            && heard == [DEFINITION, Update(1, "01")]
            && var sent := [Outgoing(heard[0], map[]), Outgoing(heard[1], map[])];
               && AllServerKinds(sent)
               && var read := Elements(ReadAll(cfg, StreamText(DECIMAL, sent), 0, []).0);
                  !Same(true, FoldAll(EMPTY, heard, clock), FoldAll(EMPTY, read, remote))
  {
    hide ReadAll, StreamText, DriverText, FoldAll, Same;
    DecimalLawful();
    TrimSpacePlain("01");
    assert "01"[..1] == "0" && Digits("0") == Some(0) && Digits("01") == Some(1);
    assert |DecNat(1)| == 1;
    RespelledDriftsIff(Config(DECIMAL, routed, diagnostics), "01", clock, remote);
  }
}
