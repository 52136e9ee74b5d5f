/** What a client sees of a server's snapshot through the wire. A client that joins
    at any time and folds what it reads has the server's properties. */
module Mirror {
  import opened Wire
  import opened Grammar
  import opened Encoding
  import opened RoundTrip
  import opened Views

  // The part of a vector the wire keeps

  /** A member as a client can know it: typed values, not their spelling; of a BLOB
      only its name and label. */
  datatype MemberFace = MemberFace(
    name: string, labelText: string,
    value: Num, min: Num, max: Num, step: Num, format: string,
    text: string, on: bool, lightState: State)

  /** A vector as a client can know it. Messages and times are not replayed. The state
      of a BLOB vector rides on payloads that only a full subscriber is sent. */
  datatype Face = Face(
    labelText: string, group: string, vtype: VType, perm: Perm, rule: Rule,
    state: State, timestamp: string, members: seq<MemberFace>)

  function FaceOfMember(t: VType, m: Member): MemberFace {
    MemberFace(
      m.name, m.labelText,
      if t == Number then m.value else ZERO,
      if t == Number then m.min else ZERO,
      if t == Number then m.max else ZERO,
      if t == Number then m.step else ZERO,
      if t == Number then m.format else "",
      if t == Text then m.text else "",
      t == Switch && m.on,
      if t == Light then m.lightState else Idle)
  }

  function FacesOf(t: VType, mvs: seq<MemberVal>): (r: seq<MemberFace>)
    ensures |r| == |mvs|
  {
    seq(|mvs|, i requires 0 <= i < |mvs| => FaceOfMember(t, mvs[i].member))
  }

  function FaceOf(full: bool, v: Vec): Face {
    var h := v.head;
    Face(h.labelText, h.group, h.vtype, h.perm,
         if h.vtype == Switch then h.rule else OneOfMany,
         if h.vtype == Blob && !full then Idle else h.state,
         if h.vtype == Blob && !full then "" else h.timestamp,
         FacesOf(h.vtype, v.members))
  }

  /** Two views show the same properties; devices without any do not count. */
  ghost predicate Same(full: bool, a: View, b: View) {
    && (forall d, p :: Has(a, d, p) <==> Has(b, d, p))
    && (forall d, p :: Has(a, d, p) ==> FaceOf(full, a[d][p]) == FaceOf(full, b[d][p]))
  }

  // Elements as the server's own parser yields them

  predicate Trimmed(m: Member) { TrimSpace(m.text) == m.text }

  /** Fields that a type has no use for are blank, and text is trimmed. */
  predicate TypedMember(t: VType, m: Member) {
    && (t != Number ==> m.value == ZERO)
    && (t != Switch ==> !m.on)
    && (t != Light ==> m.lightState == Idle)
    && (t == Blob ==> m.text == "")
    && Trimmed(m)
  }

  /** The limits and shape of a parsed element. */
  predicate Parsed(el: Element) {
    && Fits(el, map[])
    && forall i :: 0 <= i < |el.members| ==> TypedMember(el.vtype, el.members[i])
  }

  /** The limits and shape of an element that can be sent again. */
  predicate Resendable(el: Element) {
    && Fits(el, map[])
    && forall i :: 0 <= i < |el.members| ==> Trimmed(el.members[i])
  }

  // Indexes agree where names agree

  lemma SameIndex(v: Vec, w: Vec)
    requires Indexed(v) && Indexed(w) && |v.members| == |w.members|
    requires forall i :: 0 <= i < |v.members| ==> v.members[i].member.name == w.members[i].member.name
    ensures v.byName == w.byName
  {
    forall k
      ensures k in v.byName ==> k in w.byName && v.byName[k] <= w.byName[k]
      ensures k in w.byName ==> k in v.byName && w.byName[k] <= v.byName[k]
    {
      if k in v.byName {
        assert v.members[v.byName[k]].member.name == k;
      }
      if k in w.byName {
        assert w.members[w.byName[k]].member.name == k;
      }
    }
    assert v.byName.Keys == w.byName.Keys;
  }

  lemma FaceNames(full: bool, v: Vec, w: Vec)
    requires FaceOf(full, v) == FaceOf(full, w)
    ensures v.head.vtype == w.head.vtype && |v.members| == |w.members|
    ensures forall i :: 0 <= i < |v.members| ==>
              && FaceOfMember(v.head.vtype, v.members[i].member) == FaceOfMember(v.head.vtype, w.members[i].member)
              && v.members[i].member.name == w.members[i].member.name
  {
    var a, b := FacesOf(v.head.vtype, v.members), FacesOf(w.head.vtype, w.members);
    assert a == FaceOf(full, v).members == FaceOf(full, w).members == b;
    forall i | 0 <= i < |v.members|
      ensures FaceOfMember(v.head.vtype, v.members[i].member) == FaceOfMember(v.head.vtype, w.members[i].member)
    {
      assert a[i] == b[i];
    }
  }

  // A definition through the wire

  lemma CanonMemberFace(n: NumText, t: VType, m: Member, blobs: Payloads)
    requires Trimmed(m)
    ensures FaceOfMember(t, CanonMember(n, t, true, m, blobs)) == FaceOfMember(t, m)
  {
    hide TrimSpace;
  }

  function Bare(m: Member): Member { m.(data := []) }

  function Bares(ms: seq<Member>): (r: seq<Member>)
    ensures |r| == |ms|
  {
    seq(|ms|, i requires 0 <= i < |ms| => Bare(ms[i]))
  }

  /** The canonical forms of members, BLOB data aside. */
  function CanonBares(n: NumText, t: VType, def: bool, ms: seq<Member>, blobs: Payloads): (r: seq<Member>)
    ensures |r| == |ms|
  {
    seq(|ms|, i requires 0 <= i < |ms| => Bare(CanonMember(n, t, def, ms[i], blobs)))
  }

  lemma CanonAddBare(cfg: Config, v: Progress, def: bool, m: Member, blobs: Payloads)
    ensures var w := CanonAdd(cfg, v, def, m, blobs).el;
            && w == v.el.(members := w.members)
            && Bares(w.members) == Bares(v.el.members) + [Bare(CanonMember(cfg.numbers, v.el.vtype, def, m, blobs))]
  {
    hide CanonMember, TakesSink;
  }

  /** Members arrive in order, each in its canonical form. */
  lemma {:induction false} CanonMembersAre(cfg: Config, v: Progress, def: bool, ms: seq<Member>, blobs: Payloads)
    ensures var r := CanonMembers(cfg, v, def, ms, blobs).el;
            && r == v.el.(members := r.members)
            && Bares(r.members) == Bares(v.el.members) + CanonBares(cfg.numbers, v.el.vtype, def, ms, blobs)
    decreases |ms|
  {
    hide CanonMember, CanonAdd, Bares, Bare;
    var n, t := cfg.numbers, v.el.vtype;
    if ms == [] {
      assert Bares(v.el.members) + CanonBares(n, t, def, ms, blobs) == Bares(v.el.members);
    } else {
      CanonAddBare(cfg, v, def, ms[0], blobs);
      CanonMembersAre(cfg, CanonAdd(cfg, v, def, ms[0], blobs), def, ms[1..], blobs);
      assert CanonBares(n, t, def, ms, blobs)
          == [Bare(CanonMember(n, t, def, ms[0], blobs))] + CanonBares(n, t, def, ms[1..], blobs);
    }
  }

  /** A vector as it comes off the wire: head and members, BLOB data aside. */
  lemma CanonVector(cfg: Config, el: Element, blobs: Payloads, unknown: nat, sunk: seq<Delivery>)
    requires el.kind == KindDef || el.kind == KindSet
    ensures var def := el.kind == KindDef;
            var c := Canon(cfg, el, blobs, unknown, sunk).el;
            && c == CanonHead(el, def).(members := c.members)
            && Bares(c.members) == CanonBares(cfg.numbers, el.vtype, def, el.members, blobs)
  {
    hide CanonMembers, Bares, CanonBares;
    var def := el.kind == KindDef;
    CanonMembersAre(cfg, Progress(CanonHead(el, def), unknown, sunk), def, el.members, blobs);
    assert Bares([]) == [];
    assert [] + CanonBares(cfg.numbers, el.vtype, def, el.members, blobs) ==
        CanonBares(cfg.numbers, el.vtype, def, el.members, blobs);
  }

  lemma DefFace(full: bool, cfg: Config, el: Element, blobs: Payloads, c: Element, now: int, later: int)
    requires el.kind == KindDef && Resendable(el) && c == Canon(cfg, el, blobs, 0, []).el
    ensures FaceOf(full, NewVec(el, now)) == FaceOf(full, NewVec(c, later))
  {
    hide CanonMember, Canon, Fits;
    CanonVector(cfg, el, blobs, 0, []);
    var a, b := NewVec(el, now), NewVec(c, later);
    forall i | 0 <= i < |el.members|
      ensures FaceOfMember(el.vtype, a.members[i].member) == FaceOfMember(el.vtype, b.members[i].member)
    {
      assert Bares(c.members)[i] == CanonBares(cfg.numbers, el.vtype, true, el.members, blobs)[i];
      CanonMemberFace(cfg.numbers, el.vtype, el.members[i], blobs);
    }
    assert FacesOf(el.vtype, a.members) == FacesOf(el.vtype, b.members);
  }

  // An update through the wire

  /** The types an update may have without a client losing track of the vector. The
      store never compares them: text respelled on the wire, and ranges that only
      number updates carry, are what goes wrong. */
  predicate SafeType(vector: VType, update: VType) {
    || update == vector
    || vector == Switch || vector == Light || vector == Blob
    || (vector == Text && update == Blob)
  }

  lemma SetMemberFace(
      n: NumText, t: VType, u: VType, mv: MemberVal, nv: MemberVal, m: Member, c: Member, blobs: Payloads,
      now: int, later: int)
    requires FaceOfMember(t, mv.member) == FaceOfMember(t, nv.member) && TypedMember(u, m) && SafeType(t, u)
    requires Bare(c) == Bare(CanonMember(n, u, false, m, blobs))
    ensures FaceOfMember(t, SetMember(mv, m, now).member) == FaceOfMember(t, SetMember(nv, c, later).member)
  {
    hide TrimSpace;
  }

  /** An update of the given type always leaves a member looking the same here and
      behind the wire. */
  ghost predicate AlwaysCarried(n: NumText, t: VType, u: VType) {
    forall mv: MemberVal, m: Member :: TypedMember(u, m) ==> CarriedBy(n, t, u, mv, m)
  }

  predicate CarriedBy(n: NumText, t: VType, u: VType, mv: MemberVal, m: Member) {
    FaceOfMember(t, SetMember(mv, m, 0).member)
    == FaceOfMember(t, SetMember(mv, CanonMember(n, u, false, m, map[]), 0).member)
  }

  /** It does so exactly for the safe types. */
  lemma CarriedIffSafe(n: NumText, t: VType, u: VType)
    requires n.Lawful()
    ensures AlwaysCarried(n, t, u) <==> SafeType(t, u)
  {
    hide TrimSpace;
    if SafeType(t, u) {
      forall mv: MemberVal, m: Member | TypedMember(u, m)
        ensures CarriedBy(n, t, u, mv, m)
      {
        SetMemberFace(n, t, u, mv, mv, m, CanonMember(n, u, false, m, map[]), map[], 0, 0);
      }
    } else {
      UnsafeUpdate(n, t, u);
    }
  }

  /** An update whose spelling, or whose range, the wire does not keep. */
  lemma UnsafeUpdate(n: NumText, t: VType, u: VType)
    requires n.Lawful() && !SafeType(t, u)
    ensures !AlwaysCarried(n, t, u)
  {
    hide TrimSpace;
    var mv := MemberVal(NO_MEMBER, 0);
    var m := NO_MEMBER.(text := if u == Blob then "" else "<", max := 1, hasRange := true);
    TrimSpaceMark();
    TrimSpacePlain(n.format(ZERO));
    TrimSpacePlain("Off");
    TrimSpacePlain("Idle");
    TrimSpacePlain("");
    assert Plain(n.format(ZERO)) && n.format(ZERO) != "<" by { assert !PlainChar("<"[0]); }
    assert TypedMember(u, m);
    assert !CarriedBy(n, t, u, mv, m);
  }

  lemma TrimSpaceMark()
    ensures TrimSpace("<") == "<"
  {
  }

  lemma {:induction false} SetMembersFace(
    n: NumText, t: VType, u: VType, mvs: seq<MemberVal>, nvs: seq<MemberVal>, byName: map<string, nat>,
    ms: seq<Member>, cs: seq<Member>, blobs: Payloads, now: int, later: int)
    requires FacesOf(t, mvs) == FacesOf(t, nvs) && forall k :: k in byName ==> byName[k] < |mvs|
    requires SafeType(t, u) && forall i :: 0 <= i < |ms| ==> TypedMember(u, ms[i])
    requires Bares(cs) == CanonBares(n, u, false, ms, blobs)
    ensures |mvs| == |nvs|
    ensures FacesOf(t, SetMembers(mvs, byName, ms, now)) == FacesOf(t, SetMembers(nvs, byName, cs, later))
    decreases |ms|
  {
    hide FaceOfMember, SetMember, CanonMember, TypedMember, Bare;
    assert |FacesOf(t, mvs)| == |FacesOf(t, nvs)|;
    assert |cs| == |ms|;
    if ms == [] {
    } else {
      assert Bares(cs)[0] == CanonBares(n, u, false, ms, blobs)[0];
      assert Bares(cs[1..]) == Bares(cs)[1..];
      assert CanonBares(n, u, false, ms[1..], blobs) == CanonBares(n, u, false, ms, blobs)[1..];
      CanonName(n, u, ms[0], cs[0], blobs);
      if ms[0].name in byName {
        var i := byName[ms[0].name];
        assert FacesOf(t, mvs)[i] == FacesOf(t, nvs)[i];
        SetMemberFace(n, t, u, mvs[i], nvs[i], ms[0], cs[0], blobs, now, later);
        var mvs', nvs' := mvs[i := SetMember(mvs[i], ms[0], now)], nvs[i := SetMember(nvs[i], cs[0], later)];
        assert FacesOf(t, mvs') == FacesOf(t, mvs)[i := FaceOfMember(t, mvs'[i].member)];
        assert FacesOf(t, nvs') == FacesOf(t, nvs)[i := FaceOfMember(t, nvs'[i].member)];
        SetMembersFace(n, t, u, mvs', nvs', byName, ms[1..], cs[1..], blobs, now, later);
      } else {
        SetMembersFace(n, t, u, mvs, nvs, byName, ms[1..], cs[1..], blobs, now, later);
      }
    }
  }

  lemma CanonName(n: NumText, t: VType, m: Member, c: Member, blobs: Payloads)
    requires Bare(c) == Bare(CanonMember(n, t, false, m, blobs))
    ensures c.name == m.name
  {
  }

  /** An update keeps two vectors looking the same, one updated directly, the other
      through the wire, as long as the update has a type safe for the vector. */
  lemma SetFace(full: bool, cfg: Config, v: Vec, w: Vec, el: Element, blobs: Payloads, c: Element, now: int, later: int)
    requires FaceOf(full, v) == FaceOf(full, w) && Indexed(v) && Indexed(w)
    requires el.kind == KindSet && Parsed(el) && SafeType(v.head.vtype, el.vtype)
    requires c == Canon(cfg, el, blobs, 0, []).el
    ensures FaceOf(full, SetVec(v, el, now)) == FaceOf(full, SetVec(w, c, later))
  {
    hide CanonMember, Canon, Fits, FaceOfMember, Indexed, SetMembers;
    CanonVector(cfg, el, blobs, 0, []);
    FaceNames(full, v, w);
    SameIndex(v, w);
    IndexBound(v);
    SetMembersFace(cfg.numbers, v.head.vtype, el.vtype, v.members, w.members, v.byName, el.members, c.members, blobs,
        now, later);
  }

  lemma IndexBound(v: Vec)
    requires Indexed(v)
    ensures forall k :: k in v.byName ==> v.byName[k] < |v.members|
  {
  }

  // Views

  lemma SamePut(full: bool, a: View, b: View, device: string, name: string, v: Vec, w: Vec)
    requires Same(full, a, b) && FaceOf(full, v) == FaceOf(full, w)
    ensures Same(full, Put(a, device, name, v), Put(b, device, name, w))
  {
    hide FaceOf;
    forall d, p
      ensures Has(Put(a, device, name, v), d, p) <==> Has(a, d, p) || (d == device && p == name)
      ensures Has(Put(b, device, name, w), d, p) <==> Has(b, d, p) || (d == device && p == name)
    {
    }
  }

  /** What a deletion leaves, whether or not the view had anything to delete. */
  function AfterDel(view: View, el: Element): View {
    if el.device !in view then view else Without(view, el.device, el.name)
  }

  lemma SameDel(full: bool, a: View, b: View, el: Element)
    requires Same(full, a, b)
    ensures Same(full, AfterDel(a, el), AfterDel(b, el))
  {
    hide FaceOf;
    forall d, p
      ensures Has(AfterDel(a, el), d, p) <==> Has(a, d, p) && !(d == el.device && (el.name == "" || p == el.name))
      ensures Has(AfterDel(b, el), d, p) <==> Has(b, d, p) && !(d == el.device && (el.name == "" || p == el.name))
    {
    }
  }

  lemma FoldDel(view: View, el: Element, now: int)
    requires ViewOk(view) && el.kind == KindDel
    ensures Fold(view, el, now) == AfterDel(view, el)
  {
    hide ViewOk, NewVec, SetVec, Put, VecOk;
    if el.device in view && el.name != "" && el.name !in view[el.device] {
      assert view[el.device] - {el.name} == view[el.device];
      assert view[el.device := view[el.device]] == view;
    }
  }

  lemma SameProps(full: bool, a: View, b: View, device: string)
    requires Same(full, a, b)
    ensures PropsOf(a, device).Keys == PropsOf(b, device).Keys
    ensures |PropsOf(a, device)| == |PropsOf(b, device)|
  {
    hide FaceOf;
    forall p
      ensures p in PropsOf(a, device) <==> p in PropsOf(b, device)
    {
      assert Has(a, device, p) <==> p in PropsOf(a, device);
      assert Has(b, device, p) <==> p in PropsOf(b, device);
    }
    assert |PropsOf(a, device).Keys| == |PropsOf(a, device)|;
    assert |PropsOf(b, device).Keys| == |PropsOf(b, device)|;
  }

  /** An update has a type that is safe for the vector it updates; an update that is
      not delivered is one of a BLOB vector. */
  predicate TypeKept(view: View, el: Element, delivered: bool) {
    el.kind == KindSet && Has(view, el.device, el.name) ==>
      var t := view[el.device][el.name].head.vtype;
      if delivered then SafeType(t, el.vtype) else t == Blob
  }

  lemma CanonKeys(cfg: Config, el: Element, blobs: Payloads)
    requires IsServerKind(el.kind)
    ensures var c := Canon(cfg, el, blobs, 0, []).el;
            && c.kind == el.kind && c.device == el.device
            && (el.kind != KindMessage ==> c.name == el.name)
  {
    hide CanonMembers;
    if el.kind == KindDef || el.kind == KindSet {
      CanonVector(cfg, el, blobs, 0, []);
    }
  }

  /** One element: folding it here and folding what the wire carries of it there
      keeps the two views the same. */
  lemma StepMirrored(full: bool, cfg: Config, a: View, b: View, el: Element, blobs: Payloads, now: int, later: int)
    requires Same(full, a, b) && ViewOk(a) && ViewOk(b)
    requires IsServerKind(el.kind) && Parsed(el) && TypeKept(a, el, true)
    ensures Same(full, Fold(a, el, now), Fold(b, Canon(cfg, el, blobs, 0, []).el, later))
  {
    hide Same, ViewOk, Canon, Put, NewVec, SetVec, FaceOf, Without, Parsed, Indexed, VecOk;
    var c := Canon(cfg, el, blobs, 0, []).el;
    CanonKeys(cfg, el, blobs);
    match el.kind
    case KindDef =>
      SameProps(full, a, b, el.device);
      if !DefRefused(a, el) {
        ParsedResendable(el);
        DefFace(full, cfg, el, blobs, c, now, later);
        SamePut(full, a, b, el.device, el.name, NewVec(el, now), NewVec(c, later));
      }
    case KindSet =>
      SameHas(full, a, b, el.device, el.name);
      if Has(a, el.device, el.name) {
        HasOk(a, el.device, el.name);
        HasOk(b, el.device, el.name);
        var v, w := a[el.device][el.name], b[el.device][el.name];
        VecIndexed(el.device, el.name, v);
        VecIndexed(el.device, el.name, w);
        SetFace(full, cfg, v, w, el, blobs, c, now, later);
        SamePut(full, a, b, el.device, el.name, SetVec(v, el, now), SetVec(w, c, later));
      }
    case KindDel =>
      FoldDel(a, el, now);
      FoldDel(b, c, later);
      SameDel(full, a, b, el);
    case _ =>
  }

  lemma ParsedResendable(el: Element)
    requires Parsed(el)
    ensures Resendable(el)
  {
    hide Fits, TrimSpace;
  }

  lemma SameHas(full: bool, a: View, b: View, device: string, name: string)
    requires Same(full, a, b)
    ensures Has(a, device, name) <==> Has(b, device, name)
    ensures Has(a, device, name) ==> FaceOf(full, a[device][name]) == FaceOf(full, b[device][name])
  {
  }

  /** A BLOB update that is never delivered changes nothing a client could see. */
  lemma UnseenBlobUpdate(a: View, b: View, el: Element, now: int)
    requires Same(false, a, b) && ViewOk(a)
    requires el.kind == KindSet && TypeKept(a, el, false)
    ensures Same(false, Fold(a, el, now), b)
  {
    hide Same, ViewOk, FaceOf, SetVec, Put, Indexed, VecOk;
    if Has(a, el.device, el.name) {
      HasOk(a, el.device, el.name);
      var v := a[el.device][el.name];
      VecIndexed(el.device, el.name, v);
      BlobFace(v, el, now);
      SameReplaced(a, b, el.device, el.name, SetVec(v, el, now));
    }
  }

  lemma SameReplaced(a: View, b: View, device: string, name: string, u: Vec)
    requires Same(false, a, b) && Has(a, device, name) && FaceOf(false, u) == FaceOf(false, a[device][name])
    ensures Same(false, Put(a, device, name, u), b)
  {
    hide FaceOf;
    forall d, p
      ensures Has(Put(a, device, name, u), d, p) <==> Has(a, d, p)
    {
    }
  }

  lemma BlobFace(v: Vec, el: Element, now: int)
    requires Indexed(v) && v.head.vtype == Blob
    ensures FaceOf(false, SetVec(v, el, now)) == FaceOf(false, v)
  {
    IndexBound(v);
    BlobMembersFace(v.members, v.byName, el.members, now);
  }

  lemma {:induction false} BlobMembersFace(mvs: seq<MemberVal>, byName: map<string, nat>, ms: seq<Member>, now: int)
    requires forall k :: k in byName ==> byName[k] < |mvs|
    ensures FacesOf(Blob, SetMembers(mvs, byName, ms, now)) == FacesOf(Blob, mvs)
    decreases |ms|
  {
    if ms == [] {
    } else {
      if ms[0].name in byName {
        var i := byName[ms[0].name];
        var mvs' := mvs[i := SetMember(mvs[i], ms[0], now)];
        assert FacesOf(Blob, mvs') == FacesOf(Blob, mvs);
        BlobMembersFace(mvs', byName, ms[1..], now);
      } else {
        BlobMembersFace(mvs, byName, ms[1..], now);
      }
    }
  }
}
