/** What a snapshot says, as a value: devices, their properties, their members;
    and how one element changes it. */
module Views {
  import opened Wire

  const MAX_PROPERTIES: nat := 4096

  /** A member's current value and when it arrived. */
  datatype MemberVal = MemberVal(member: Member, arrived: int)

  /** Everything about a vector but its members. */
  datatype Head = Head(
    device: string, name: string, labelText: string, group: string,
    vtype: VType, perm: Perm, rule: Rule, state: State,
    timestamp: string, message: string, updated: int)

  datatype Vec = Vec(head: Head, members: seq<MemberVal>, byName: map<string, nat>)

  type Props = map<string, Vec>
  type View = map<string, Props>

  function PropsOf(view: View, device: string): Props {
    if device in view then view[device] else map[]
  }

  predicate Has(view: View, device: string, name: string) {
    device in view && name in view[device]
  }

  // Definitions

  function NewHead(el: Element, now: int): Head {
    Head(el.device, el.name, el.labelText, el.group, el.vtype, el.perm, el.rule, el.state, el.timestamp, el.message,
        now)
  }

  /** A member as stored: images do not live in the snapshot. */
  function Stored(m: Member, now: int): MemberVal {
    MemberVal(m.(data := []), now)
  }

  function StoredAll(ms: seq<Member>, now: int): (r: seq<MemberVal>)
    ensures |r| == |ms|
  {
    seq(|ms|, i requires 0 <= i < |ms| => Stored(ms[i], now))
  }

  /** Each name's last position. */
  function IndexOf(ms: seq<Member>): map<string, nat> {
    if ms == [] then map[] else IndexOf(ms[..|ms| - 1])[ms[|ms| - 1].name := |ms| - 1]
  }

  function NewVec(el: Element, now: int): Vec {
    Vec(NewHead(el, now), StoredAll(el.members, now), IndexOf(el.members))
  }

  /** A device full of properties takes redefinitions only. */
  predicate DefRefused(view: View, el: Element) {
    var props := PropsOf(view, el.device);
    |props| >= MAX_PROPERTIES && el.name !in props
  }

  function Put(view: View, device: string, name: string, v: Vec): View {
    view[device := PropsOf(view, device)[name := v]]
  }

  /** A view without one property, or without a whole device. */
  function Without(view: View, device: string, name: string): View
    requires device in view
  {
    if name == "" then view - {device} else view[device := view[device] - {name}]
  }

  // Updates

  function SetHead(h: Head, el: Element, now: int): Head {
    h.(state := el.state, timestamp := el.timestamp,
       message := if el.message != "" then el.message else h.message, updated := now)
  }

  function SetMember(mv: MemberVal, m: Member, now: int): MemberVal {
    var u := mv.member.(value := m.value, text := m.text, on := m.on, lightState := m.lightState,
                        size := m.size, attached := m.attached,
                        blobFormat := if m.blobFormat != "" then m.blobFormat else mv.member.blobFormat);
    var r := if m.hasRange then u.(min := m.min, max := m.max, step := m.step, hasRange := true) else u;
    MemberVal(r, now)
  }

  /** Apply the named members in order; a name the vector does not have is ignored. */
  function SetMembers(mvs: seq<MemberVal>, byName: map<string, nat>, ms: seq<Member>, now: int): (r: seq<MemberVal>)
    requires forall k :: k in byName ==> byName[k] < |mvs|
    ensures |r| == |mvs|
    decreases |ms|
  {
    if ms == [] then mvs
    else
      var next := if ms[0].name in byName then
        var i := byName[ms[0].name];
        mvs[i := SetMember(mvs[i], ms[0], now)] else mvs;
      SetMembers(next, byName, ms[1..], now)
  }

  function Strangers(byName: map<string, nat>, ms: seq<Member>): nat {
    if ms == [] then 0 else (if ms[0].name in byName then 0 else 1) + Strangers(byName, ms[1..])
  }

  function SetVec(v: Vec, el: Element, now: int): Vec
    requires Indexed(v)
  {
    v.(head := SetHead(v.head, el, now), members := SetMembers(v.members, v.byName, el.members, now))
  }

  // Well-formed views

  /** byName indexes a member of that name, the last one, and every name is in it. */
  predicate Indexed(v: Vec) {
    && (forall k :: k in v.byName ==> v.byName[k] < |v.members| && v.members[v.byName[k]].member.name == k)
    && (forall i :: 0 <= i < |v.members| ==>
          v.members[i].member.name in v.byName && i <= v.byName[v.members[i].member.name])
  }

  predicate NoImages(v: Vec) {
    forall i :: 0 <= i < |v.members| ==> v.members[i].member.data == []
  }

  predicate VecOk(device: string, name: string, v: Vec) {
    v.head.device == device && v.head.name == name && Indexed(v) && NoImages(v)
  }

  predicate PropsOk(device: string, props: Props) {
    |props| <= MAX_PROPERTIES && forall p :: p in props ==> VecOk(device, p, props[p])
  }

  ghost predicate ViewOk(view: View) {
    forall d :: d in view ==> PropsOk(d, view[d])
  }

  // One element

  /** Whether the element carries state: whether anything is published for it. */
  predicate Changes(view: View, el: Element) {
    match el.kind
    case KindDef => !DefRefused(view, el)
    case KindSet => Has(view, el.device, el.name)
    case KindDel => el.device in view && (el.name == "" || el.name in view[el.device])
    case _ => false
  }

  function Fold(view: View, el: Element, now: int): View
    requires ViewOk(view)
  {
    if !Changes(view, el) then view
    else if el.kind == KindDef then Put(view, el.device, el.name, NewVec(el, now))
    else if el.kind == KindSet then
      assert VecOk(el.device, el.name, view[el.device][el.name]);
      Put(view, el.device, el.name, SetVec(view[el.device][el.name], el, now))
    else Without(view, el.device, el.name)
  }

  /** How many things the element said that were ignored. */
  function IgnoredBy(view: View, el: Element): nat {
    match el.kind
    case KindSet => if Changes(view, el) then Strangers(view[el.device][el.name].byName, el.members) else 1
    case KindDef => if Changes(view, el) then 0 else 1
    case KindDel => if Changes(view, el) then 0 else 1
    case _ => 0
  }

  // What every element keeps

  lemma {:induction false} IndexOfRight(ms: seq<Member>, now: int)
    ensures forall k :: k in IndexOf(ms) ==> IndexOf(ms)[k] < |ms| && ms[IndexOf(ms)[k]].name == k
    ensures forall i :: 0 <= i < |ms| ==> ms[i].name in IndexOf(ms) && i <= IndexOf(ms)[ms[i].name]
  {
    if ms == [] {
    } else {
      IndexOfRight(ms[..|ms| - 1], now);
    }
  }

  lemma NewVecOk(el: Element, now: int)
    ensures VecOk(el.device, el.name, NewVec(el, now))
  {
    IndexOfRight(el.members, now);
  }

  lemma {:induction false} SetMembersKeep(mvs: seq<MemberVal>, byName: map<string, nat>, ms: seq<Member>, now: int)
    requires forall k :: k in byName ==> byName[k] < |mvs|
    ensures forall i :: 0 <= i < |mvs| ==>
              var r := SetMembers(mvs, byName, ms, now)[i].member;
              r.name == mvs[i].member.name && r.data == mvs[i].member.data
    decreases |ms|
  {
    if ms == [] {
    } else {
      if ms[0].name in byName {
        var i := byName[ms[0].name];
        SetMembersKeep(mvs[i := SetMember(mvs[i], ms[0], now)], byName, ms[1..], now);
      } else {
        SetMembersKeep(mvs, byName, ms[1..], now);
      }
    }
  }

  lemma SetVecOk(device: string, name: string, v: Vec, el: Element, now: int)
    requires VecOk(device, name, v)
    ensures VecOk(device, name, SetVec(v, el, now))
  {
    SetMembersKeep(v.members, v.byName, el.members, now);
  }

  lemma SubsetSmaller<T>(a: set<T>, b: set<T>)
    requires a <= b
    ensures |a| <= |b|
  {
    assert b == a + (b - a);
  }

  lemma PutOk(view: View, device: string, name: string, v: Vec)
    requires ViewOk(view) && VecOk(device, name, v)
    requires name in PropsOf(view, device) || |PropsOf(view, device)| < MAX_PROPERTIES
    ensures ViewOk(Put(view, device, name, v))
  {
    hide VecOk;
    var props := PropsOf(view, device);
    assert PropsOk(device, props);
    assert props[name := v].Keys == props.Keys + {name};
  }

  lemma DeleteOk(view: View, device: string, name: string)
    requires ViewOk(view) && device in view
    ensures ViewOk(view - {device}) && ViewOk(view[device := view[device] - {name}])
  {
    hide VecOk;
    var props := view[device];
    assert PropsOk(device, props);
    SubsetSmaller((props - {name}).Keys, props.Keys);
  }

  /** The names, the index, the property limit and the absence of images survive
      every element. */
  lemma FoldKeepsOk(view: View, el: Element, now: int)
    requires ViewOk(view)
    ensures ViewOk(Fold(view, el, now))
  {
    hide ViewOk, Put, NewVec, SetVec, VecOk;
    if Changes(view, el) {
      match el.kind
      case KindDef =>
        NewVecOk(el, now);
        PutOk(view, el.device, el.name, NewVec(el, now));
      case KindSet =>
        HasOk(view, el.device, el.name);
        SetVecOk(el.device, el.name, view[el.device][el.name], el, now);
        PutOk(view, el.device, el.name, SetVec(view[el.device][el.name], el, now));
      case KindDel =>
        DeleteOk(view, el.device, el.name);
      case _ =>
    }
  }

  lemma HasOk(view: View, device: string, name: string)
    requires ViewOk(view) && Has(view, device, name)
    ensures VecOk(device, name, view[device][name])
  {
    assert PropsOk(device, view[device]);
  }

  lemma VecIndexed(device: string, name: string, v: Vec)
    requires VecOk(device, name, v)
    ensures Indexed(v)
  {
  }

  // Many elements

  const EMPTY: View := map[]

  /** The view after a list of elements, the k-th stamped clock(k). */
  function FoldAll(view: View, els: seq<Element>, clock: nat -> int): (r: View)
    requires ViewOk(view)
    ensures ViewOk(r)
    decreases |els|
  {
    if els == [] then view
    else
      var k := |els| - 1;
      var before := FoldAll(view, els[..k], clock);
      FoldKeepsOk(before, els[k], clock(k));
      Fold(before, els[k], clock(k))
  }

  lemma FoldOneMore(view: View, els: seq<Element>, el: Element, clock: nat -> int)
    requires ViewOk(view)
    ensures FoldAll(view, els + [el], clock) == Fold(FoldAll(view, els, clock), el, clock(|els|))
  {
    hide Fold, ViewOk;
    assert (els + [el])[..|els|] == els;
  }

  // What an element does to a view, said of the view itself

  /** Values that an update sets, whatever the type. */
  predicate SaysAs(mv: MemberVal, m: Member, now: int) {
    && mv.arrived == now
    && mv.member.value == m.value && mv.member.text == m.text && mv.member.on == m.on
    && mv.member.lightState == m.lightState && mv.member.size == m.size && mv.member.attached == m.attached
  }

  predicate SameRange(a: Member, b: Member) {
    a.min == b.min && a.max == b.max && a.step == b.step
  }

  predicate SamePlace(a: Member, b: Member) {
    a.name == b.name && a.labelText == b.labelText && a.format == b.format && a.data == b.data
  }

  lemma {:induction false} OthersKept(
      mvs: seq<MemberVal>, byName: map<string, nat>, ms: seq<Member>, now: int, i: nat)
    requires forall k :: k in byName ==> byName[k] < |mvs|
    requires i < |mvs| && forall m :: m in ms && m.name in byName ==> byName[m.name] != i
    ensures SetMembers(mvs, byName, ms, now)[i] == mvs[i]
    decreases |ms|
  {
    hide SetMember;
    if ms == [] {
    } else {
      assert ms[0] in ms;
      var next := if ms[0].name in byName then
        mvs[byName[ms[0].name] := SetMember(mvs[byName[ms[0].name]], ms[0], now)] else mvs;
      OthersKept(next, byName, ms[1..], now, i);
    }
  }

  /** What of an index's updates matters: the last one; of the ranges, the last one given;
      of the formats, the last that is not empty. */
  lemma {:induction false} LastOne(
      mvs: seq<MemberVal>, byName: map<string, nat>, ms: seq<Member>, now: int, k: nat)
    requires forall n :: n in byName ==> byName[n] < |mvs|
    requires k < |ms| && ms[k].name in byName
    requires forall m :: m in ms[k + 1..] && m.name in byName ==> byName[m.name] != byName[ms[k].name]
    ensures SaysAs(SetMembers(mvs, byName, ms, now)[byName[ms[k].name]], ms[k], now)
    decreases |ms|
  {
    hide SetMember;
    var next := if ms[0].name in byName then
      mvs[byName[ms[0].name] := SetMember(mvs[byName[ms[0].name]], ms[0], now)] else mvs;
    if k == 0 {
      OthersKept(next, byName, ms[1..], now, byName[ms[0].name]);
      SetSays(mvs[byName[ms[0].name]], ms[0], now);
    } else {
      assert ms[1..][k - 1 + 1..] == ms[k + 1..];
      LastOne(next, byName, ms[1..], now, k - 1);
    }
  }

  lemma SetSays(mv: MemberVal, m: Member, now: int)
    ensures SaysAs(SetMember(mv, m, now), m, now)
    ensures SamePlace(SetMember(mv, m, now).member, mv.member)
    ensures m.hasRange ==> SameRange(SetMember(mv, m, now).member, m) && SetMember(mv, m, now).member.hasRange
    ensures !m.hasRange ==>
              SameRange(SetMember(mv, m, now).member, mv.member)
              && SetMember(mv, m, now).member.hasRange == mv.member.hasRange
    ensures SetMember(mv, m, now).member.blobFormat == if m.blobFormat != "" then m.blobFormat else mv.member.blobFormat
  {
  }

  lemma {:induction false} PlaceKept(
      mvs: seq<MemberVal>, byName: map<string, nat>, ms: seq<Member>, now: int, i: nat)
    requires forall n :: n in byName ==> byName[n] < |mvs|
    requires i < |mvs|
    ensures SamePlace(SetMembers(mvs, byName, ms, now)[i].member, mvs[i].member)
    decreases |ms|
  {
    hide SetMember;
    if ms == [] {
    } else {
      var next := mvs;
      if ms[0].name in byName {
        SetSays(mvs[byName[ms[0].name]], ms[0], now);
        next := mvs[byName[ms[0].name] := SetMember(mvs[byName[ms[0].name]], ms[0], now)];
      }
      PlaceKept(next, byName, ms[1..], now, i);
    }
  }

  lemma {:induction false} RangeKept(
      mvs: seq<MemberVal>, byName: map<string, nat>, ms: seq<Member>, now: int, i: nat)
    requires forall n :: n in byName ==> byName[n] < |mvs|
    requires i < |mvs| && forall m :: m in ms && m.name in byName && m.hasRange ==> byName[m.name] != i
    ensures var r := SetMembers(mvs, byName, ms, now)[i].member;
            SameRange(r, mvs[i].member) && r.hasRange == mvs[i].member.hasRange
    decreases |ms|
  {
    hide SetMember;
    if ms == [] {
    } else {
      assert ms[0] in ms;
      var next := mvs;
      if ms[0].name in byName {
        SetSays(mvs[byName[ms[0].name]], ms[0], now);
        next := mvs[byName[ms[0].name] := SetMember(mvs[byName[ms[0].name]], ms[0], now)];
      }
      RangeKept(next, byName, ms[1..], now, i);
    }
  }

  lemma {:induction false} LastRange(
      mvs: seq<MemberVal>, byName: map<string, nat>, ms: seq<Member>, now: int, k: nat)
    requires forall n :: n in byName ==> byName[n] < |mvs|
    requires k < |ms| && ms[k].name in byName && ms[k].hasRange
    requires forall m :: m in ms[k + 1..] && m.name in byName && m.hasRange ==> byName[m.name] != byName[ms[k].name]
    ensures var r := SetMembers(mvs, byName, ms, now)[byName[ms[k].name]].member; SameRange(r, ms[k]) && r.hasRange
    decreases |ms|
  {
    hide SetMember;
    var next := if ms[0].name in byName then
      mvs[byName[ms[0].name] := SetMember(mvs[byName[ms[0].name]], ms[0], now)] else mvs;
    if k == 0 {
      SetSays(mvs[byName[ms[0].name]], ms[0], now);
      RangeKept(next, byName, ms[1..], now, byName[ms[0].name]);
    } else {
      assert ms[1..][k - 1 + 1..] == ms[k + 1..];
      LastRange(next, byName, ms[1..], now, k - 1);
    }
  }

  lemma {:induction false} FormatKept(
      mvs: seq<MemberVal>, byName: map<string, nat>, ms: seq<Member>, now: int, i: nat)
    requires forall n :: n in byName ==> byName[n] < |mvs|
    requires i < |mvs| && forall m :: m in ms && m.name in byName && m.blobFormat != "" ==> byName[m.name] != i
    ensures SetMembers(mvs, byName, ms, now)[i].member.blobFormat == mvs[i].member.blobFormat
    decreases |ms|
  {
    hide SetMember;
    if ms == [] {
    } else {
      assert ms[0] in ms;
      var next := mvs;
      if ms[0].name in byName {
        SetSays(mvs[byName[ms[0].name]], ms[0], now);
        next := mvs[byName[ms[0].name] := SetMember(mvs[byName[ms[0].name]], ms[0], now)];
      }
      FormatKept(next, byName, ms[1..], now, i);
    }
  }

  lemma {:induction false} LastFormat(
      mvs: seq<MemberVal>, byName: map<string, nat>, ms: seq<Member>, now: int, k: nat)
    requires forall n :: n in byName ==> byName[n] < |mvs|
    requires k < |ms| && ms[k].name in byName && ms[k].blobFormat != ""
    requires forall m :: m in ms[k + 1..] && m.name in byName && m.blobFormat != "" ==>
               byName[m.name] != byName[ms[k].name]
    ensures SetMembers(mvs, byName, ms, now)[byName[ms[k].name]].member.blobFormat == ms[k].blobFormat
    decreases |ms|
  {
    hide SetMember;
    var next := if ms[0].name in byName then
      mvs[byName[ms[0].name] := SetMember(mvs[byName[ms[0].name]], ms[0], now)] else mvs;
    if k == 0 {
      SetSays(mvs[byName[ms[0].name]], ms[0], now);
      FormatKept(next, byName, ms[1..], now, byName[ms[0].name]);
    } else {
      assert ms[1..][k - 1 + 1..] == ms[k + 1..];
      LastFormat(next, byName, ms[1..], now, k - 1);
    }
  }

  /** No member of the update has this name. */
  predicate Unnamed(ms: seq<Member>, name: string) {
    forall m :: m in ms ==> m.name != name
  }

  predicate NoRange(ms: seq<Member>, name: string) {
    forall m :: m in ms && m.name == name ==> !m.hasRange
  }

  predicate NoFormat(ms: seq<Member>, name: string) {
    forall m :: m in ms && m.name == name ==> m.blobFormat == ""
  }

  /** A property of a view, with everything else as it was. */
  predicate OnlyAt(a: View, b: View, device: string, name: string) {
    && b.Keys == a.Keys + {device}
    && (forall d :: d in a && d != device ==> b[d] == a[d])
    && PropsOf(b, device).Keys == PropsOf(a, device).Keys + {name}
    && (forall p :: p in PropsOf(a, device) && p != name ==> b[device][p] == a[device][p])
  }

  /** An update: state, time stamp and a message, if there is one, are the element's; the
      last update of a name the vector has decides its value, the last range given its
      range, the last format given its format; everything else is as it was. */
  lemma UpdateShown(view: View, el: Element, now: int)
    requires ViewOk(view) && el.kind == KindSet && Has(view, el.device, el.name)
    ensures var after := Fold(view, el, now);
            && OnlyAt(view, after, el.device, el.name)
            && UpdateOf(view[el.device][el.name], after[el.device][el.name], el, now)
  {
    hide SetMembers, VecOk, ViewOk, PropsOk;
    var v := view[el.device][el.name];
    HasOk(view, el.device, el.name);
    VecIndexed(el.device, el.name, v);
    var w := SetVec(v, el, now);
    assert Fold(view, el, now)[el.device][el.name] == w;
    forall i | 0 <= i < |v.members|
      ensures MemberUpdated(v, w, el, now, i)
    {
      UpdatedAt(v, el, now, i);
    }
  }

  ghost predicate UpdateOf(v: Vec, w: Vec, el: Element, now: int) {
    && w.head.device == v.head.device && w.head.name == v.head.name && w.head.labelText == v.head.labelText
    && w.head.group == v.head.group && w.head.vtype == v.head.vtype && w.head.perm == v.head.perm
    && w.head.rule == v.head.rule && w.head.updated == now
    && w.head.state == el.state && w.head.timestamp == el.timestamp
    && w.head.message == (if el.message != "" then el.message else v.head.message)
    && w.byName == v.byName && |w.members| == |v.members|
    && forall i :: 0 <= i < |v.members| ==> MemberUpdated(v, w, el, now, i)
  }

  /** One member: the one that its name stands for is updated, if it is named. */
  ghost predicate MemberUpdated(v: Vec, w: Vec, el: Element, now: int, i: nat)
    requires i < |v.members| == |w.members|
  {
    var name, ms := v.members[i].member.name, el.members;
    var a, b := v.members[i], w.members[i];
    && SamePlace(b.member, a.member)
    && (!(name in v.byName && v.byName[name] == i) || Unnamed(ms, name) ==> b == a)
    && (name in v.byName && v.byName[name] == i ==>
          && (forall k :: 0 <= k < |ms| && ms[k].name == name && Unnamed(ms[k + 1..], name) ==> SaysAs(b, ms[k], now))
          && (NoRange(ms, name) ==> SameRange(b.member, a.member) && b.member.hasRange == a.member.hasRange)
          && (forall k :: 0 <= k < |ms| && ms[k].name == name && ms[k].hasRange && NoRange(ms[k + 1..], name) ==>
                SameRange(b.member, ms[k]) && b.member.hasRange)
          && (NoFormat(ms, name) ==> b.member.blobFormat == a.member.blobFormat)
          && (forall k :: 0 <= k < |ms| && ms[k].name == name && ms[k].blobFormat != ""
                          && NoFormat(ms[k + 1..], name) ==>
                b.member.blobFormat == ms[k].blobFormat))
  }

  lemma UpdatedAt(v: Vec, el: Element, now: int, i: nat)
    requires Indexed(v) && i < |v.members|
    ensures MemberUpdated(v, SetVec(v, el, now), el, now, i)
  {
    hide SetMembers, SaysAs, SameRange, SamePlace;
    var name, ms := v.members[i].member.name, el.members;
    assert forall n :: n in v.byName && v.byName[n] == i ==> n == name;
    PlaceKept(v.members, v.byName, ms, now, i);
    if !(name in v.byName && v.byName[name] == i) || Unnamed(ms, name) {
      OthersKept(v.members, v.byName, ms, now, i);
    }
    if name in v.byName && v.byName[name] == i {
      forall k | 0 <= k < |ms| && ms[k].name == name && Unnamed(ms[k + 1..], name)
        ensures SaysAs(SetVec(v, el, now).members[i], ms[k], now)
      {
        LastOne(v.members, v.byName, ms, now, k);
      }
      if NoRange(ms, name) {
        RangeKept(v.members, v.byName, ms, now, i);
      }
      forall k | 0 <= k < |ms| && ms[k].name == name && ms[k].hasRange && NoRange(ms[k + 1..], name)
        ensures SameRange(SetVec(v, el, now).members[i].member, ms[k]) && SetVec(v, el, now).members[i].member.hasRange
      {
        LastRange(v.members, v.byName, ms, now, k);
      }
      if NoFormat(ms, name) {
        FormatKept(v.members, v.byName, ms, now, i);
      }
      forall k | 0 <= k < |ms| && ms[k].name == name && ms[k].blobFormat != "" && NoFormat(ms[k + 1..], name)
        ensures SetVec(v, el, now).members[i].member.blobFormat == ms[k].blobFormat
      {
        LastFormat(v.members, v.byName, ms, now, k);
      }
    }
  }

  /** A definition: the property is there with everything the element says, image data
      aside, unless the device already has as many others as it may. */
  lemma DefinitionShown(view: View, el: Element, now: int)
    requires ViewOk(view) && el.kind == KindDef
    ensures var after := Fold(view, el, now);
            if el.name !in PropsOf(view, el.device) && |PropsOf(view, el.device)| >= 4096 then after == view
            else OnlyAt(view, after, el.device, el.name) && DefinedAs(after[el.device][el.name], el, now)
  {
    hide DefinedAs, NewVec, ViewOk, OnlyAt;
    NewSays(el, now);
    PutOnly(view, el.device, el.name, NewVec(el, now));
  }

  lemma PutOnly(view: View, device: string, name: string, v: Vec)
    ensures OnlyAt(view, Put(view, device, name, v), device, name) && Put(view, device, name, v)[device][name] == v
  {
  }

  lemma NewSays(el: Element, now: int)
    ensures DefinedAs(NewVec(el, now), el, now)
  {
  }

  predicate DefinedAs(w: Vec, el: Element, now: int) {
    && w.head.device == el.device && w.head.name == el.name && w.head.labelText == el.labelText
    && w.head.group == el.group && w.head.vtype == el.vtype && w.head.perm == el.perm && w.head.rule == el.rule
    && w.head.state == el.state && w.head.timestamp == el.timestamp && w.head.message == el.message
    && w.head.updated == now && |w.members| == |el.members|
    && forall i :: 0 <= i < |el.members| ==> w.members[i] == MemberVal(el.members[i].(data := []), now)
  }

  /** A deletion takes one property, or without a name the whole device; of what is not
      there, nothing. Anything else but definitions and updates of what is there changes
      nothing. */
  lemma DeletionShown(view: View, el: Element, now: int)
    requires ViewOk(view)
    ensures el.kind == KindDel && el.device in view && el.name == "" ==> Fold(view, el, now) == view - {el.device}
    ensures el.kind == KindDel && el.name != "" && Has(view, el.device, el.name) ==>
              var after := Fold(view, el, now);
              && after.Keys == view.Keys && after[el.device] == view[el.device] - {el.name}
              && forall d :: d in view && d != el.device ==> after[d] == view[d]
    ensures el.kind == KindDel && el.name != "" && !Has(view, el.device, el.name) ==> Fold(view, el, now) == view
    ensures el.kind == KindDel && el.device !in view ==> Fold(view, el, now) == view
    ensures el.kind == KindSet && !Has(view, el.device, el.name) ==> Fold(view, el, now) == view
    ensures el.kind != KindDef && el.kind != KindSet && el.kind != KindDel ==> Fold(view, el, now) == view
  {
    hide NewVec, SetVec, Put, DefRefused, VecOk, PropsOk, ViewOk;
  }

  /** What is counted as ignored: a definition past the limit, an update or deletion of what
      is not there, or the members an update has too many. */
  lemma IgnoredShown(view: View, el: Element)
    ensures el.kind == KindDef ==>
              IgnoredBy(view, el)
              == if el.name !in PropsOf(view, el.device) && |PropsOf(view, el.device)| >= 4096 then 1 else 0
    ensures el.kind == KindSet ==>
              IgnoredBy(view, el)
              == if !Has(view, el.device, el.name) then 1
                 else
                   var known := view[el.device][el.name].byName;
                   |set k | 0 <= k < |el.members| && el.members[k].name !in known|
    ensures el.kind == KindDel ==>
              IgnoredBy(view, el)
              == if el.device in view && (el.name == "" || Has(view, el.device, el.name)) then 0 else 1
    ensures el.kind != KindDef && el.kind != KindSet && el.kind != KindDel ==> IgnoredBy(view, el) == 0
  {
    if el.kind == KindSet && Has(view, el.device, el.name) {
      StrangersCounted(view[el.device][el.name].byName, el.members);
    }
  }

  /** Ignored are exactly the members of names the vector does not have. */
  lemma {:induction false} StrangersCounted(byName: map<string, nat>, ms: seq<Member>)
    ensures Strangers(byName, ms) == |set k | 0 <= k < |ms| && ms[k].name !in byName|
    decreases |ms|
  {
    var all := set k | 0 <= k < |ms| && ms[k].name !in byName;
    if ms == [] {
      assert all == {};
    } else {
      var n := |ms| - 1;
      StrangersCounted(byName, ms[..n]);
      OneStranger(byName, ms[..n], ms[n]);
      assert ms == ms[..n] + [ms[n]];
      assert all == (set k | 0 <= k < |ms[..n]| && ms[..n][k].name !in byName)
                    + if ms[n].name in byName then {} else {n};
    }
  }

  lemma {:induction false} OneStranger(byName: map<string, nat>, ms: seq<Member>, m: Member)
    ensures Strangers(byName, ms + [m]) == Strangers(byName, ms) + if m.name in byName then 0 else 1
    decreases |ms|
  {
    if ms == [] {
    } else {
      assert (ms + [m])[1..] == ms[1..] + [m];
      OneStranger(byName, ms[1..], m);
    }
  }
}
