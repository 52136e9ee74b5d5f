/** What an observer that folds every element it is told about comes to believe. */
module Observing {
  import opened Lists
  import opened Wire
  import opened Views

  // Arrival times aside

  function UntimedMembers(mvs: seq<MemberVal>): (r: seq<MemberVal>)
    ensures |r| == |mvs|
  {
    seq(|mvs|, i requires 0 <= i < |mvs| => mvs[i].(arrived := 0))
  }

  function Untimed(v: Vec): Vec {
    v.(head := v.head.(updated := 0), members := UntimedMembers(v.members))
  }

  function UntimedProps(props: Props): Props {
    map p | p in props :: Untimed(props[p])
  }

  /** The device maps with every arrival time blanked. */
  function Timeless(view: View): View {
    map d | d in view :: UntimedProps(view[d])
  }

  lemma TimelessOk(view: View)
    requires ViewOk(view)
    ensures ViewOk(Timeless(view))
  {
    hide VecOk;
    forall d | d in view
      ensures PropsOk(d, UntimedProps(view[d]))
    {
      assert PropsOk(d, view[d]);
      SubsetSmaller(UntimedProps(view[d]).Keys, view[d].Keys);
      forall p | p in view[d]
        ensures VecOk(d, p, Untimed(view[d][p]))
      {
        UntimedOk(d, p, view[d][p]);
      }
    }
  }

  lemma UntimedOk(device: string, name: string, v: Vec)
    requires VecOk(device, name, v)
    ensures VecOk(device, name, Untimed(v))
  {
  }

  lemma UntimedNew(el: Element, now: int)
    ensures Untimed(NewVec(el, now)) == NewVec(el, 0)
  {
    assert UntimedMembers(StoredAll(el.members, now)) == StoredAll(el.members, 0);
  }

  lemma {:induction false} UntimedSetMembers(mvs: seq<MemberVal>, byName: map<string, nat>, ms: seq<Member>, now: int)
    requires forall k :: k in byName ==> byName[k] < |mvs|
    ensures UntimedMembers(SetMembers(mvs, byName, ms, now)) == SetMembers(UntimedMembers(mvs), byName, ms, 0)
    decreases |ms|
  {
    if ms == [] {
    } else {
      if ms[0].name in byName {
        var i := byName[ms[0].name];
        var next := mvs[i := SetMember(mvs[i], ms[0], now)];
        UntimedSetMembers(next, byName, ms[1..], now);
        assert UntimedMembers(next) == UntimedMembers(mvs)[i := SetMember(UntimedMembers(mvs)[i], ms[0], 0)];
      } else {
        UntimedSetMembers(mvs, byName, ms[1..], now);
      }
    }
  }

  lemma UntimedSet(v: Vec, el: Element, now: int)
    requires Indexed(v)
    ensures Indexed(Untimed(v)) && Untimed(SetVec(v, el, now)) == SetVec(Untimed(v), el, 0)
  {
    UntimedSetMembers(v.members, v.byName, el.members, now);
  }

  lemma TimelessPut(view: View, device: string, name: string, v: Vec)
    ensures Timeless(Put(view, device, name, v)) == Put(Timeless(view), device, name, Untimed(v))
  {
    hide Untimed;
    var was := PropsOf(view, device);
    assert UntimedProps(was[name := v]) == UntimedProps(was)[name := Untimed(v)];
    assert PropsOf(Timeless(view), device) == UntimedProps(was);
  }

  lemma TimelessWithout(view: View, device: string, name: string)
    requires device in view
    ensures Timeless(Without(view, device, name)) == Without(Timeless(view), device, name)
  {
    hide Untimed;
    assert UntimedProps(view[device] - {name}) == UntimedProps(view[device]) - {name};
  }

  lemma TimelessChanges(view: View, el: Element)
    ensures Changes(Timeless(view), el) == Changes(view, el)
  {
    var a, b := PropsOf(Timeless(view), el.device), PropsOf(view, el.device);
    assert a.Keys == b.Keys;
    assert |a.Keys| == |a| && |b.Keys| == |b|;
  }

  /** When an element arrives makes no difference to anything but arrival times. */
  lemma FoldTimeless(view: View, el: Element, now: int)
    requires ViewOk(view)
    ensures ViewOk(Timeless(view)) && Timeless(Fold(view, el, now)) == Fold(Timeless(view), el, 0)
  {
    hide ViewOk, VecOk, NewVec, SetVec, Put, Without, Changes, Timeless, Untimed, Indexed;
    TimelessOk(view);
    TimelessChanges(view, el);
    if Changes(view, el) {
      ChangesKnown(view, el);
      ChangesKnown(Timeless(view), el);
      if el.kind == KindDef {
        UntimedNew(el, now);
        TimelessPut(view, el.device, el.name, NewVec(el, now));
      } else if el.kind == KindSet {
        var v := view[el.device][el.name];
        HasOk(view, el.device, el.name);
        VecIndexed(el.device, el.name, v);
        UntimedSet(v, el, now);
        TimelessPut(view, el.device, el.name, SetVec(v, el, now));
        TimelessAt(view, el.device, el.name);
      } else {
        TimelessWithout(view, el.device, el.name);
      }
    }
  }

  lemma ChangesKnown(view: View, el: Element)
    requires Changes(view, el)
    ensures el.kind == KindDef || el.kind == KindSet || el.kind == KindDel
    ensures el.kind == KindSet ==> Has(view, el.device, el.name)
    ensures el.kind == KindDel ==> el.device in view
  {
  }

  lemma TimelessAt(view: View, device: string, name: string)
    requires Has(view, device, name)
    ensures Has(Timeless(view), device, name) && Timeless(view)[device][name] == Untimed(view[device][name])
  {
  }

  /** Two observers of the same elements agree whatever their clocks say. */
  lemma {:induction false} AnyClock(els: seq<Element>, clock: nat -> int)
    ensures Timeless(FoldAll(EMPTY, els, clock)) == FoldAll(EMPTY, els, _ => 0)
    decreases |els|
  {
    hide Fold, Timeless;
    if els == [] {
      assert Timeless(map[]) == map[] by { NoneTimeless(); }
    } else {
      var k := |els| - 1;
      AnyClock(els[..k], clock);
      FoldTimeless(FoldAll(EMPTY, els[..k], clock), els[k], clock(k));
    }
  }

  lemma NoneTimeless()
    ensures Timeless(map[]) == map[]
  {
  }

  // What is defined

  /** Some definition among the elements is of this property. */
  ghost predicate DefinedBy(els: seq<Element>, device: string, name: string) {
    exists k :: 0 <= k < |els| && els[k].kind == KindDef && els[k].device == device && els[k].name == name
  }

  /** Nothing is in a view that was not defined. */
  ghost predicate AllDefined(view: View, els: seq<Element>) {
    forall d, p :: Has(view, d, p) ==> DefinedBy(els, d, p)
  }

  lemma FoldDefined(view: View, els: seq<Element>, el: Element, now: int)
    requires ViewOk(view) && AllDefined(view, els)
    ensures AllDefined(Fold(view, el, now), els + [el])
  {
    hide ViewOk, NewVec, SetVec, VecOk, DefRefused;
    forall d, p | Has(Fold(view, el, now), d, p)
      ensures DefinedBy(els + [el], d, p)
    {
      if Has(view, d, p) {
        assert DefinedBy(els, d, p);
        var k :| 0 <= k < |els| && els[k].kind == KindDef && els[k].device == d && els[k].name == p;
        assert (els + [el])[k] == els[k];
      } else {
        assert (els + [el])[|els|] == el;
      }
    }
  }

  // The end of an attempt

  /** The deletion announced for a device that is gone. */
  function Gone(device: string): Element {
    Blank(KindDel, Number).(device := device)
  }

  function AllGone(devices: seq<string>): (r: seq<Element>)
    ensures |r| == |devices|
  {
    seq(|devices|, i requires 0 <= i < |devices| => Gone(devices[i]))
  }

  /** Every device of the view, once each. */
  ghost predicate NamesAll(devices: seq<string>, view: View) {
    && Distinct(devices)
    && (forall d :: d in devices <==> d in view)
  }

  lemma FoldGone(view: View, device: string, now: int)
    requires ViewOk(view)
    ensures Fold(view, Gone(device), now) == view - {device}
  {
    hide ViewOk;
  }

  lemma {:induction false} HeardGone(els: seq<Element>, devices: seq<string>, clock: nat -> int)
    ensures FoldAll(EMPTY, els + AllGone(devices), clock)
         == FoldAll(EMPTY, els, clock) - (set d | d in devices)
    decreases |devices|
  {
    NoneOk();
    hide ViewOk, Fold, FoldAll, Gone;
    if devices == [] {
      assert els + AllGone(devices) == els;
    } else {
      var n := |devices| - 1;
      var front := els + AllGone(devices[..n]);
      HeardGone(els, devices[..n], clock);
      assert els + AllGone(devices) == front + [Gone(devices[n])];
      FoldOneMore(EMPTY, front, Gone(devices[n]), clock);
      FoldGone(FoldAll(EMPTY, front, clock), devices[n], clock(|front|));
      assert (set d | d in devices) == (set d | d in devices[..n]) + {devices[n]};
    }
  }

  lemma NoneOk()
    ensures ViewOk(EMPTY)
  {
  }

  /** One deletion for each live device leaves an observer with nothing. */
  lemma GoneEmpties(els: seq<Element>, devices: seq<string>, clock: nat -> int)
    requires NamesAll(devices, FoldAll(EMPTY, els, clock))
    ensures FoldAll(EMPTY, els + AllGone(devices), clock) == map[]
  {
    HeardGone(els, devices, clock);
  }
}
