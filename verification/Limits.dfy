/** What the parser lets through: every element it yields, from any bytes at all, is
    within the limits and can be sent on. */
module Limits {
  import opened Wire
  import opened Grammar
  import opened RoundTrip
  import opened Views
  import opened Mirror
  import opened LateJoiner

  lemma SetVectorAttrFits(e: Element, a: Attr)
    requires HeadFits(e) && |a.value| <= MAX_TOKEN
    ensures HeadFits(SetVectorAttr(e, a))
    ensures SetVectorAttr(e, a).members == e.members && SetVectorAttr(e, a).vtype == e.vtype
  {
  }

  lemma {:induction false} VectorAttrsFit(e: Element, attrs: seq<Attr>)
    requires HeadFits(e) && Bounded(attrs)
    ensures HeadFits(VectorAttrs(e, attrs))
    ensures VectorAttrs(e, attrs).members == e.members && VectorAttrs(e, attrs).vtype == e.vtype
    decreases |attrs|
  {
    hide SetVectorAttr, HeadFits;
    if attrs == [] {
    } else {
      SetVectorAttrFits(e, attrs[0]);
      VectorAttrsFit(SetVectorAttr(e, attrs[0]), attrs[1..]);
    }
  }

  /** A member as attributes alone can make it. */
  predicate BareFits(m: Member) {
    MemberFits(m, map[]) && m.text == "" && m.value == ZERO && !m.on && m.lightState == Idle
  }

  lemma SetMemberAttrFits(n: NumText, t: VType, m: Member, a: Attr)
    requires BareFits(m) && |a.value| <= MAX_TOKEN
    ensures BareFits(SetMemberAttr(n, t, m, a))
  {
  }

  lemma {:induction false} MemberAttrsFit(n: NumText, t: VType, m: Member, attrs: seq<Attr>)
    requires BareFits(m) && Bounded(attrs)
    ensures BareFits(MemberAttrs(n, t, m, attrs))
    decreases |attrs|
  {
    hide SetMemberAttr, BareFits;
    if attrs == [] {
    } else {
      SetMemberAttrFits(n, t, m, attrs[0]);
      MemberAttrsFit(n, t, SetMemberAttr(n, t, m, attrs[0]), attrs[1..]);
    }
  }

  lemma BareTyped(t: VType, m: Member)
    requires BareFits(m)
    ensures TypedMember(t, m) && MemberFits(m, map[])
  {
    TrimSpacePlain("");
  }

  lemma ValueFits(n: NumText, t: VType, m: Member, text: string)
    requires BareFits(m) && |text| <= MAX_TOKEN && t != Blob
    ensures TypedMember(t, MemberValue(n, t, m, text)) && MemberFits(MemberValue(n, t, m, text), map[])
  {
    hide TrimSpace, ParseState;
    TrimSpaceIdempotent(text);
  }

  lemma AddFits(v: Progress, m: Member)
    requires Parsed(v.el) && TypedMember(v.el.vtype, m) && MemberFits(m, map[]) && |v.el.members| < MAX_MEMBERS
    ensures Parsed(AddMember(v, m).el)
  {
    hide TypedMember, MemberFits;
  }

  lemma OneMemberFits(cfg: Config, v: Progress, tag: Tag, childTag: string, s: string)
    requires Parsed(v.el) && Bounded(tag.attrs)
    ensures OneMember(cfg, v, tag, childTag, s).Done? ==> Parsed(OneMember(cfg, v, tag, childTag, s).value.el)
  {
    hide Parsed, MemberAttrs, MemberValue, TextUntilClose, BlobContent, SkipElement, TakesSink, BareFits, TypedMember,
        MemberFits;
    if tag.name == childTag && |v.el.members| < MAX_MEMBERS {
      var n, t := cfg.numbers, v.el.vtype;
      var m := MemberAttrs(n, t, NO_MEMBER, tag.attrs);
      NoMemberFits();
      MemberAttrsFit(n, t, NO_MEMBER, tag.attrs);
      BareTyped(t, m);
      AddFits(v, m);
      if !tag.selfClosed {
        if t == Blob {
          var r := BlobContent(childTag, s, "", []);
          if r.Done? {
            DataFits(t, m, r.value);
            AddFits(v, m.(data := r.value));
          }
        } else {
          var r := TextUntilClose(childTag, s, "");
          if r.Done? {
            ValueFits(n, t, m, r.value);
            AddFits(v, MemberValue(n, t, m, r.value));
          }
        }
      }
    }
  }

  lemma NoMemberFits()
    ensures BareFits(NO_MEMBER)
  {
  }

  lemma DataFits(t: VType, m: Member, data: seq<bv8>)
    requires TypedMember(t, m) && MemberFits(m, map[])
    ensures TypedMember(t, m.(data := data)) && MemberFits(m.(data := data), map[])
  {
  }

  lemma MemberStepFits(cfg: Config, v: Progress, close: string, child: string, s: string)
    requires Parsed(v.el)
    ensures var r := MemberStep(cfg, v, close, child, s);
            r.Done? && r.value.Added? ==> Parsed(r.value.after.el)
  {
    hide Parsed, StartTag, CloseTag, OneMember, SkipToTag, Bounded;
    var at := SkipToTag(s);
    if at.Done? {
      var tag := StartTag(at.rest);
      if tag.Done? {
        OneMemberFits(cfg, v, tag.value, child, tag.rest);
      }
    }
  }

  lemma {:induction false} MembersFit(cfg: Config, v: Progress, close: string, child: string, s: string)
    requires Parsed(v.el)
    ensures Members(cfg, v, close, child, s).Done? ==> Parsed(Members(cfg, v, close, child, s).value.el)
    decreases |s|
  {
    hide Parsed, MemberStep;
    MemberStepFits(cfg, v, close, child, s);
    var r := MemberStep(cfg, v, close, child, s);
    if r.Done? && r.value.Added? {
      MembersFit(cfg, r.value.after, close, child, r.rest);
    }
  }

  lemma HeadParsed(e: Element)
    requires HeadFits(e) && e.members == []
    ensures Parsed(e)
  {
  }

  lemma BlankFits(kind: Kind, t: VType)
    ensures HeadFits(Blank(kind, t)) && Blank(kind, t).members == []
  {
  }

  lemma {:induction false} AttrValFits(attrs: seq<Attr>, name: string)
    requires Bounded(attrs)
    ensures |AttrVal(attrs, name)| <= MAX_TOKEN
  {
    if attrs == [] {
    } else {
      AttrValFits(attrs[1..], name);
    }
  }

  lemma BodyFits(cfg: Config, tag: Tag, s: string, unknown: nat, sunk: seq<Delivery>)
    requires !Classify(tag.name).UnknownForm? && Bounded(tag.attrs)
    ensures Body(cfg, tag, s, unknown, sunk).Done? ==> Parsed(Body(cfg, tag, s, unknown, sunk).value.el)
  {
    hide Parsed, Classify, Members, VectorAttrs, SkipBody, TextUntilClose, AttrVal, Bounded, Blank;
    match Classify(tag.name)
    case VectorForm(kind, t, child) =>
      BlankFits(kind, t);
      VectorAttrsFit(Blank(kind, t), tag.attrs);
      var v := Progress(VectorAttrs(Blank(kind, t), tag.attrs), unknown, sunk);
      HeadParsed(v.el);
      MembersFit(cfg, v, tag.name, child, s);
    case PlainForm(kind) =>
      BlankFits(kind, Number);
      VectorAttrsFit(Blank(kind, Number), tag.attrs);
      HeadParsed(VectorAttrs(Blank(kind, Number), tag.attrs));
    case ModeForm =>
      BlankFits(KindEnableBLOB, Number);
      VectorAttrsFit(Blank(KindEnableBLOB, Number), tag.attrs);
      var e := VectorAttrs(Blank(KindEnableBLOB, Number), tag.attrs);
      HeadParsed(e);
      var r := TextUntilClose(tag.name, s, "");
      if r.Done? {
        HeadParsed(e.(message := r.value));
      }
    case PingForm(kind) =>
      BlankFits(kind, Number);
      AttrValFits(tag.attrs, "uid");
      HeadParsed(Blank(kind, Number).(name := AttrVal(tag.attrs, "uid")));
  }

  /** Every element the parser yields is within the limits. */
  lemma {:induction false} NextParsed(cfg: Config, s: string, unknown: nat, sunk: seq<Delivery>)
    ensures Next(cfg, s, unknown, sunk).Done? ==> Parsed(Next(cfg, s, unknown, sunk).value.el)
    decreases |s|
  {
    hide Parsed, StartTag, Body, SkipBody, SkipToTop, SkipPI, Classify, Bounded;
    var turn := TopStep(cfg, s, unknown, sunk);
    if turn.Done? {
      var at := SkipToTop(cfg.diagnostics, s);
      if turn.value.Passed? {
        NextParsed(cfg, turn.rest, turn.value.unknown, sunk);
      } else {
        var tag := StartTag(at.rest);
        BodyFits(cfg, tag.value, tag.rest, unknown, sunk);
      }
    }
  }

  predicate AllParsed(ps: seq<Progress>) {
    forall i :: 0 <= i < |ps| ==> Parsed(ps[i].el)
  }

  lemma {:induction false} ReadAllParsed(cfg: Config, s: string, unknown: nat, sunk: seq<Delivery>)
    ensures AllParsed(ReadAll(cfg, s, unknown, sunk).0)
    decreases |s|
  {
    hide Parsed, Next;
    NextParsed(cfg, s, unknown, sunk);
    var r := Next(cfg, s, unknown, sunk);
    if r.Done? {
      ReadAllParsed(cfg, r.rest, r.value.unknown, r.value.sunk);
    }
  }

  lemma {:induction false} FoldReadReplayable(ps: seq<Progress>, clock: nat -> int)
    requires AllParsed(ps)
    ensures Replayable(FoldAll(EMPTY, Elements(ps), clock))
    decreases |ps|
  {
    hide Parsed, Fold, Resendable, FoldAll;
    if ps == [] {
      NothingReplayable(clock);
    } else {
      var k := |ps| - 1;
      FoldReadReplayable(ps[..k], clock);
      assert Parsed(ps[k].el);
      ParsedResendable(ps[k].el);
      FoldReplayable(FoldAll(EMPTY, Elements(ps[..k]), clock), ps[k].el, clock(k));
      assert Elements(ps) == Elements(ps[..k]) + [ps[k].el];
      FoldOneMore(EMPTY, Elements(ps[..k]), ps[k].el, clock);
    }
  }

  lemma NothingReplayable(clock: nat -> int)
    ensures Replayable(FoldAll(EMPTY, [], clock))
  {
  }

  /** Whatever bytes a driver sends, log lines included, the snapshot folded from them is
      well formed and can be replayed whole: nothing a driver can define is too big to
      pass on. */
  lemma AnyStreamReplayable(cfg: Config, s: string, clock: nat -> int)
    ensures ViewOk(FoldAll(EMPTY, Elements(ReadAll(cfg, s, 0, []).0), clock))
    ensures Replayable(FoldAll(EMPTY, Elements(ReadAll(cfg, s, 0, []).0), clock))
  {
    hide Parsed, ReadAll, FoldAll, Replayable;
    ReadAllParsed(cfg, s, 0, []);
    FoldReadReplayable(ReadAll(cfg, s, 0, []).0, clock);
  }
}
