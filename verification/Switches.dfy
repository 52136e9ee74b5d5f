/** ASCOM switch ids: positions in a list of pinned (property, member) pairs that is
    only ever appended to. */
module Switches {
  import opened Lists
  import opened Wire
  import opened Views
  import opened NatOrder

  /** One switch; an empty member marks an ON/OFF vector, which is one switch, not two. */
  datatype Pair = Pair(prop: string, member: string)

  const NUMBERED: seq<string> := ["DIGITAL_OUTPUT_", "PULSE_", "DIGITAL_INPUT_", "ANALOG_INPUT_"]
  const NAMED: seq<string> := [
    "POWER_CHANNELS", "DEW_CHANNELS", "USB_PORTS", "VARIABLE_CHANNELS", "VARIABLE_VOLTAGES",
    "DEW_DUTY_CYCLES", "POWER_SENSORS", "POWER_CURRENTS", "DEW_CURRENTS"]

  predicate AllDigits(s: string) {
    forall i :: 0 <= i < |s| ==> IsDigit(s[i])
  }

  /** A family's own name, or a numbered family's name and a number. */
  predicate Contributes(prop: string) {
    || prop in NAMED
    || exists k :: 0 <= k < |NUMBERED| && NUMBERED[k] < prop && AllDigits(prop[|NUMBERED[k]|..])
  }

  predicate BoolPair(v: Vec) {
    && v.head.vtype == Switch && |v.members| == 2
    && var a, b := v.members[0].member.name, v.members[1].member.name;
       (a == "ON" && b == "OFF") || (a == "OFF" && b == "ON")
  }

  function MemberPairs(prop: string, mvs: seq<MemberVal>): (r: seq<Pair>)
    ensures |r| == |mvs|
  {
    seq(|mvs|, i requires 0 <= i < |mvs| => Pair(prop, mvs[i].member.name))
  }

  /** The switches one property brings. */
  function PairsOf(prop: string, v: Vec): (r: seq<Pair>)
    ensures forall p :: p in r ==> p.prop == prop
  {
    if !Contributes(prop) || (v.head.vtype != Switch && v.head.vtype != Number) then []
    else if BoolPair(v) then [Pair(prop, "")]
    else MemberPairs(prop, v.members)
  }

  predicate Known(arr: seq<string>, props: Props) {
    forall i :: 0 <= i < |arr| ==> arr[i] in props
  }

  function Candidates(arr: seq<string>, props: Props): seq<Pair>
    requires Known(arr, props)
  {
    if arr == [] then []
    else Candidates(arr[..|arr| - 1], props) + PairsOf(arr[|arr| - 1], props[arr[|arr| - 1]])
  }

  /** Append what is new. */
  function PinAll(pinned: seq<Pair>, ps: seq<Pair>): (r: seq<Pair>)
    decreases |ps|
  {
    if ps == [] then pinned
    else
      var front := PinAll(pinned, ps[..|ps| - 1]);
      if ps[|ps| - 1] in front then front else front + [ps[|ps| - 1]]
  }

  /** Ids are never renumbered, never repeated, and cover what is there now. */
  lemma {:induction false} PinAllAppends(pinned: seq<Pair>, ps: seq<Pair>)
    ensures pinned <= PinAll(pinned, ps)
    ensures forall p :: p in PinAll(pinned, ps) <==> p in pinned || p in ps
    ensures Distinct(pinned) ==> Distinct(PinAll(pinned, ps))
    decreases |ps|
  {
    if ps == [] {
    } else {
      var n := |ps| - 1;
      PinAllAppends(pinned, ps[..n]);
      assert ps == ps[..n] + [ps[n]];
      assert forall p :: p in ps <==> p in ps[..n] || p == ps[n];
    }
  }

  lemma {:induction false} PinAllInTwo(pinned: seq<Pair>, a: seq<Pair>, b: seq<Pair>)
    ensures PinAll(pinned, a + b) == PinAll(PinAll(pinned, a), b)
    decreases |b|
  {
    if b == [] {
      assert a + b == a;
    } else {
      var n := |b| - 1;
      assert (a + b)[..|a + b| - 1] == a + b[..n];
      PinAllInTwo(pinned, a, b[..n]);
    }
  }

  class SwitchIds {
    var pinned: seq<Pair>
    var index: set<Pair>

    /** The index is the list, which has no repeats. */
    ghost predicate Valid()
      reads this
    {
      Distinct(pinned) && index == set p | p in pinned
    }

    constructor ()
      ensures Valid() && pinned == []
    {
      pinned, index := [], {};
    }

    method Pin(p: Pair)
      requires Valid()
      modifies this
      ensures Valid() && pinned == PinAll(old(pinned), [p])
    {
      assert [p][..0] == [];
      if p in index {
        return;
      }
      index := index + {p};
      pinned := pinned + [p];
    }

    /** Pin what the snapshot shows, in the order that sorting left the names. */
    method Refresh(available: bool, props: Props, arr: seq<string>) returns (ids: seq<Pair>)
      requires Valid() && Known(arr, props)
      modifies this
      ensures Valid() && ids == pinned
      ensures old(pinned) <= pinned
      ensures pinned == if available then PinAll(old(pinned), Candidates(arr, props)) else old(pinned)
    {
      hide Contributes, BoolPair;
      if available {
        for k := 0 to |arr|
          invariant Valid() && pinned == PinAll(old(pinned), Candidates(arr[..k], props))
        {
          PinProp(arr[k], props[arr[k]]);
          assert arr[..k + 1][..k] == arr[..k];
          PinAllInTwo(old(pinned), Candidates(arr[..k], props), PairsOf(arr[k], props[arr[k]]));
        }
        assert arr[..|arr|] == arr;
        PinAllAppends(old(pinned), Candidates(arr, props));
      }
      return pinned;
    }

    method PinProp(prop: string, v: Vec)
      requires Valid()
      modifies this
      ensures Valid() && pinned == PinAll(old(pinned), PairsOf(prop, v))
    {
      hide Contributes, BoolPair;
      if !Contributes(prop) {
        return;
      }
      if v.head.vtype != Switch && v.head.vtype != Number {
        return;
      }
      if BoolPair(v) {
        Pin(Pair(prop, ""));
        return;
      }
      for k := 0 to |v.members|
        invariant Valid() && pinned == PinAll(old(pinned), MemberPairs(prop, v.members[..k]))
      {
        var p := Pair(prop, v.members[k].member.name);
        Pin(p);
        assert MemberPairs(prop, v.members[..k + 1]) == MemberPairs(prop, v.members[..k]) + [p];
        PinAllInTwo(old(pinned), MemberPairs(prop, v.members[..k]), [p]);
      }
      assert v.members[..|v.members|] == v.members;
    }
  }

  // Which switches a snapshot has

  /** A number and nothing else. */
  predicate Numeral(s: string) {
    s != "" && forall i :: 0 <= i < |s| ==> '0' <= s[i] <= '9'
  }

  /** Nine families by their names; four more by a name and a number. */
  lemma FamiliesAre(prop: string)
    ensures Contributes(prop) <==>
            || prop in {"POWER_CHANNELS", "DEW_CHANNELS", "USB_PORTS", "VARIABLE_CHANNELS", "VARIABLE_VOLTAGES",
                        "DEW_DUTY_CYCLES", "POWER_SENSORS", "POWER_CURRENTS", "DEW_CURRENTS"}
            || InFamily("DIGITAL_OUTPUT_", prop) || InFamily("PULSE_", prop)
            || InFamily("DIGITAL_INPUT_", prop) || InFamily("ANALOG_INPUT_", prop)
  {
    hide InFamily;
    var named := {"POWER_CHANNELS", "DEW_CHANNELS", "USB_PORTS", "VARIABLE_CHANNELS", "VARIABLE_VOLTAGES",
                  "DEW_DUTY_CYCLES", "POWER_SENSORS", "POWER_CURRENTS", "DEW_CURRENTS"};
    assert prop in NAMED <==> prop in named;
    assert NUMBERED[0] == "DIGITAL_OUTPUT_" && NUMBERED[1] == "PULSE_";
    assert NUMBERED[2] == "DIGITAL_INPUT_" && NUMBERED[3] == "ANALOG_INPUT_";
    Cut("DIGITAL_OUTPUT_", prop);
    Cut("PULSE_", prop);
    Cut("DIGITAL_INPUT_", prop);
    Cut("ANALOG_INPUT_", prop);
  }

  ghost predicate InFamily(family: string, prop: string) {
    exists number :: Numeral(number) && prop == family + number
  }

  lemma Cut(family: string, prop: string)
    ensures InFamily(family, prop) <==> family < prop && AllDigits(prop[|family|..])
  {
    if family < prop {
      assert prop == family + prop[|family|..];
    }
    forall number | Numeral(number) && prop == family + number
      ensures family < prop && prop[|family|..] == number
    {
    }
  }

  /** The names a vector has for its members, in order. */
  function Labels(v: Vec): (r: seq<string>) {
    seq(|v.members|, i requires 0 <= i < |v.members| => v.members[i].member.name)
  }

  /** A switch or number property of a family brings one switch if its members are ON and
      OFF, in either order, and it is made of switches, and otherwise one for each member;
      no other property brings any. */
  lemma PairsSay(prop: string, v: Vec)
    ensures PairsOf(prop, v) ==
            if !Contributes(prop) || v.head.vtype !in {Switch, Number} then []
            else if v.head.vtype == Switch && Labels(v) in {["ON", "OFF"], ["OFF", "ON"]} then [Pair(prop, "")]
            else seq(|v.members|, i requires 0 <= i < |v.members| => Pair(prop, v.members[i].member.name))
  {
    hide Contributes;
    var names := Labels(v);
    assert |names| == 2 ==> names == [names[0], names[1]];
    assert BoolPair(v) <==> v.head.vtype == Switch && (names == ["ON", "OFF"] || names == ["OFF", "ON"]);
    assert MemberPairs(prop, v.members)
        == seq(|v.members|, i requires 0 <= i < |v.members| => Pair(prop, v.members[i].member.name));
  }

  /** What an enumeration of a snapshot has a switch for. */
  lemma EnumeratedIff(pinned: seq<Pair>, arr: seq<string>, props: Props, p: Pair)
    requires Known(arr, props)
    ensures p in PinAll(pinned, Candidates(arr, props)) <==>
            || p in pinned
            || (p.prop in arr && Contributes(p.prop)
                && var v := props[p.prop];
                   if v.head.vtype == Switch && Labels(v) in {["ON", "OFF"], ["OFF", "ON"]} then p.member == ""
                   else v.head.vtype in {Switch, Number} && p.member in Labels(v))
  {
    hide Contributes, PairsOf, BoolPair, Candidates;
    PinAllAppends(pinned, Candidates(arr, props));
    CandidateIff(arr, props, p);
    if p.prop in arr {
      PairsSay(p.prop, props[p.prop]);
      LabelOf(props[p.prop], p);
    }
  }

  lemma {:induction false} CandidateIff(arr: seq<string>, props: Props, p: Pair)
    requires Known(arr, props)
    ensures p in Candidates(arr, props) <==> p.prop in arr && p in PairsOf(p.prop, props[p.prop])
    decreases |arr|
  {
    hide PairsOf;
    if arr == [] {
    } else {
      var n := |arr| - 1;
      CandidateIff(arr[..n], props, p);
      assert arr == arr[..n] + [arr[n]];
    }
  }

  lemma LabelOf(v: Vec, p: Pair)
    ensures p.member in Labels(v) <==>
            p in seq(|v.members|, i requires 0 <= i < |v.members| => Pair(p.prop, v.members[i].member.name))
  {
    var ps := seq(|v.members|, i requires 0 <= i < |v.members| => Pair(p.prop, v.members[i].member.name));
    if p.member in Labels(v) {
      var i :| 0 <= i < |v.members| && Labels(v)[i] == p.member;
      assert ps[i] == p;
    }
    if p in ps {
      var i :| 0 <= i < |v.members| && ps[i] == p;
      assert Labels(v)[i] == p.member;
    }
  }

  // Whether the enumeration depends on anything but the snapshot

  predicate AllFit(props: Props) {
    forall p :: p in props ==> Fits(p)
  }

  /** Every property once, nothing before what sorts below it: all that sorting promises. */
  ghost predicate Arranged(arr: seq<string>, props: Props) {
    && Known(arr, props) && Distinct(arr)
    && (forall p :: p in props ==> p in arr)
    && (forall i, j :: 0 <= i < j < |arr| ==> !Less(arr[j], arr[i]))
  }

  /** A fresh enumeration. */
  function Fresh(arr: seq<string>, props: Props): seq<Pair>
    requires Known(arr, props)
  {
    PinAll([], Candidates(arr, props))
  }

  /** No two properties that bring switches differ only in leading zeros. */
  ghost predicate Untied(props: Props) {
    forall a, b :: a in props && b in props && PairsOf(a, props[a]) != [] && PairsOf(b, props[b]) != [] &&
        Key(a) == Key(b)
      ==> a == b
  }

  /** The properties that bring switches, in order. */
  function Kept(arr: seq<string>, props: Props): seq<string>
    requires Known(arr, props)
  {
    if arr == [] then []
    else
      var n := |arr| - 1;
      Kept(arr[..n], props) + if PairsOf(arr[n], props[arr[n]]) == [] then [] else [arr[n]]
  }

  lemma {:induction false} KeptMembers(arr: seq<string>, props: Props)
    requires Known(arr, props)
    ensures forall p :: p in Kept(arr, props) <==> p in arr && PairsOf(p, props[p]) != []
    decreases |arr|
  {
    hide PairsOf;
    if arr == [] {
    } else {
      var n := |arr| - 1;
      KeptMembers(arr[..n], props);
      assert arr == arr[..n] + [arr[n]];
    }
  }

  lemma CandidatesSnoc(arr: seq<string>, p: string, props: Props)
    requires Known(arr, props) && p in props
    ensures Known(arr + [p], props) && Candidates(arr + [p], props) == Candidates(arr, props) + PairsOf(p, props[p])
  {
    hide PairsOf;
    assert (arr + [p])[..|arr|] == arr;
  }

  lemma {:induction false} KeptSame(arr: seq<string>, props: Props)
    requires Known(arr, props)
    ensures Known(Kept(arr, props), props) && Candidates(Kept(arr, props), props) == Candidates(arr, props)
    decreases |arr|
  {
    hide PairsOf;
    if arr == [] {
    } else {
      var n := |arr| - 1;
      var front := Kept(arr[..n], props);
      KeptSame(arr[..n], props);
      if PairsOf(arr[n], props[arr[n]]) == [] {
        assert Kept(arr, props) == front;
        assert Candidates(arr[..n], props) + [] == Candidates(arr[..n], props);
      } else {
        CandidatesSnoc(front, arr[n], props);
        assert Kept(arr, props) == front + [arr[n]];
      }
    }
  }

  predicate Ascending(s: seq<string>) {
    forall i, j :: 0 <= i < j < |s| ==> Less(s[i], s[j])
  }

  lemma {:induction false} KeptAscends(arr: seq<string>, props: Props)
    requires Known(arr, props) && Distinct(arr) && AllFit(props) && Untied(props)
    requires forall i, j :: 0 <= i < j < |arr| ==> !Less(arr[j], arr[i])
    ensures Ascending(Kept(arr, props))
    decreases |arr|
  {
    hide PairsOf, Less, Key, Fits;
    if arr == [] {
    } else {
      var n := |arr| - 1;
      KeptAscends(arr[..n], props);
      KeptMembers(arr[..n], props);
      if PairsOf(arr[n], props[arr[n]]) != [] {
        forall p | p in Kept(arr[..n], props)
          ensures Less(p, arr[n])
        {
          assert p in arr[..n];
          var i :| 0 <= i < n && arr[i] == p;
          StrictWeak(p, arr[n], p);
        }
      }
    }
  }

  /** Two ascending lists of the same names are the same list. */
  lemma {:induction false} AscendingUnique(s: seq<string>, t: seq<string>)
    requires Ascending(s) && Ascending(t)
    requires forall p :: p in s <==> p in t
    requires forall p :: p in s ==> Fits(p)
    ensures s == t
    decreases |s|
  {
    hide Less, Fits;
    if s == [] || t == [] {
      Inhabited(s);
      Inhabited(t);
    } else {
      assert s[0] in t && t[0] in s;
      var i :| 0 <= i < |s| && s[i] == t[0];
      var j :| 0 <= j < |t| && t[j] == s[0];
      Asymmetric(s[0], t[0]);
      assert s[0] == t[0];
      TailSame(s, t);
      TailSame(t, s);
      AscendingUnique(s[1..], t[1..]);
      assert s == [s[0]] + s[1..] && t == [t[0]] + t[1..];
    }
  }

  lemma Inhabited(s: seq<string>)
    ensures s == [] || exists p :: p in s
  {
    assert s == [] || s[0] in s;
  }

  lemma TailSame(s: seq<string>, t: seq<string>)
    requires s != [] && t != [] && s[0] == t[0] && Ascending(s)
    requires forall p :: p in s ==> p in t && Fits(p)
    ensures forall p :: p in s[1..] ==> p in t[1..] && Fits(p)
  {
    hide Less, Fits;
    forall p | p in s[1..]
      ensures p in t[1..]
    {
      var i :| 1 <= i < |s| && s[i] == p;
      Asymmetric(s[0], p);
      assert p in t && p != t[0];
    }
  }

  lemma Asymmetric(a: string, b: string)
    requires Fits(a) && Fits(b)
    ensures !(Less(a, b) && Less(b, a)) && !Less(a, a) && !Less(b, b)
  {
    StrictWeak(a, b, a);
    StrictWeak(b, a, b);
  }

  /** If no two tie, every arrangement enumerates the same. */
  lemma UntiedUnique(arr: seq<string>, brr: seq<string>, props: Props)
    requires AllFit(props) && Untied(props) && Arranged(arr, props) && Arranged(brr, props)
    ensures Fresh(arr, props) == Fresh(brr, props)
  {
    hide PairsOf, Less, Fits;
    KeptAscends(arr, props);
    KeptAscends(brr, props);
    KeptSame(arr, props);
    KeptSame(brr, props);
    KeptMembers(arr, props);
    KeptMembers(brr, props);
    AscendingUnique(Kept(arr, props), Kept(brr, props));
  }

  // Otherwise two arrangements differ

  /** In an enumeration, a's first switch comes before all of b's. */
  ghost predicate Before(ids: seq<Pair>, a: string, b: string) {
    exists k :: 0 <= k < |ids| && ids[k].prop == a && forall l :: 0 <= l <= k ==> ids[l].prop != b
  }

  lemma BeforeAsymmetric(ids: seq<Pair>, a: string, b: string)
    requires Before(ids, a, b)
    ensures !Before(ids, b, a)
  {
  }

  lemma {:induction false} CandidatesInTwo(a: seq<string>, b: seq<string>, props: Props)
    requires Known(a, props) && Known(b, props)
    ensures Known(a + b, props) && Candidates(a + b, props) == Candidates(a, props) + Candidates(b, props)
    decreases |b|
  {
    hide PairsOf;
    if b == [] {
      assert a + b == a;
    } else {
      var n := |b| - 1;
      assert (a + b)[..|a + b| - 1] == a + b[..n];
      CandidatesInTwo(a, b[..n], props);
    }
  }

  lemma {:induction false} CandidateProps(arr: seq<string>, props: Props, p: string)
    requires Known(arr, props)
    ensures (exists q :: q in Candidates(arr, props) && q.prop == p) <==> p in arr && PairsOf(p, props[p]) != []
    decreases |arr|
  {
    hide PairsOf;
    if arr == [] {
    } else {
      var n := |arr| - 1;
      CandidateProps(arr[..n], props, p);
      assert arr == arr[..n] + [arr[n]];
      var ps := PairsOf(arr[n], props[arr[n]]);
      assert ps != [] ==> ps[0] in ps && ps[0] in Candidates(arr, props);
    }
  }

  /** What comes first enumerates to a prefix. */
  lemma FreshPrefix(front: seq<string>, back: seq<string>, props: Props)
    requires Known(front, props) && Known(back, props)
    ensures Known(front + back, props) && Fresh(front, props) <= Fresh(front + back, props)
  {
    hide PairsOf;
    CandidatesInTwo(front, back, props);
    PinAllInTwo([], Candidates(front, props), Candidates(back, props));
    PinAllAppends(Fresh(front, props), Candidates(back, props));
  }

  /** The properties an enumeration has switches of. */
  lemma FreshProps(arr: seq<string>, props: Props, p: string)
    requires Known(arr, props)
    ensures (exists q :: q in Fresh(arr, props) && q.prop == p) <==> p in arr && PairsOf(p, props[p]) != []
  {
    hide PairsOf, Candidates;
    PinAllAppends([], Candidates(arr, props));
    CandidateProps(arr, props, p);
  }

  lemma EarlierBefore(arr: seq<string>, props: Props, i: nat, j: nat)
    requires Known(arr, props) && Distinct(arr) && i < j < |arr| && PairsOf(arr[i], props[arr[i]]) != []
    ensures Before(Fresh(arr, props), arr[i], arr[j])
  {
    hide PairsOf, Fresh;
    var front, back := arr[..i + 1], arr[i + 1..];
    assert arr == front + back;
    FreshPrefix(front, back, props);
    assert front[i] == arr[i] && arr[j] !in front;
    FreshProps(front, props, arr[i]);
    FreshProps(front, props, arr[j]);
    var ids := Fresh(front, props);
    var q :| q in ids && q.prop == arr[i];
    var k :| 0 <= k < |ids| && ids[k] == q;
    assert forall l :: 0 <= l < |ids| ==> Fresh(arr, props)[l] == ids[l] && ids[l] in ids;
  }

  /** Names with equal keys can change places. */
  lemma SwapArranged(arr: seq<string>, props: Props, i: nat, j: nat)
    requires AllFit(props) && Arranged(arr, props) && i < j < |arr| && Key(arr[i]) == Key(arr[j])
    ensures Arranged(arr[i := arr[j]][j := arr[i]], props)
  {
    hide Less, Fits, Key;
    var brr := arr[i := arr[j]][j := arr[i]];
    forall p | p in props
      ensures p in brr
    {
      var k :| 0 <= k < |arr| && arr[k] == p;
      assert brr[if k == i then j else if k == j then i else k] == p;
    }
    forall k, l | 0 <= k < l < |brr|
      ensures !Less(brr[l], brr[k])
    {
      SameKey(arr, props, i, j, k);
      SameKey(arr, props, i, j, l);
      LessByKey(brr[l], brr[k], arr[l], arr[k]);
    }
  }

  lemma SameKey(arr: seq<string>, props: Props, i: nat, j: nat, k: nat)
    requires AllFit(props) && Known(arr, props) && i < j < |arr| && k < |arr| && Key(arr[i]) == Key(arr[j])
    ensures Key(arr[i := arr[j]][j := arr[i]][k]) == Key(arr[k])
    ensures Fits(arr[i := arr[j]][j := arr[i]][k]) && Fits(arr[k])
  {
  }

  lemma LessByKey(a: string, b: string, c: string, d: string)
    requires Fits(a) && Fits(b) && Fits(c) && Fits(d) && Key(a) == Key(c) && Key(b) == Key(d)
    ensures Less(a, b) == Less(c, d)
  {
    hide Less, KeyLess, Key;
    LessIsKeyLess(a, b);
    LessIsKeyLess(c, d);
  }

  lemma TiedDiffer(arr: seq<string>, props: Props)
    requires AllFit(props) && Arranged(arr, props) && !Untied(props)
    ensures exists brr :: Arranged(brr, props) && Fresh(brr, props) != Fresh(arr, props)
  {
    hide Less, Fits, Key, PairsOf, Fresh, Before, AllFit;
    var a, b :| a in props && b in props && PairsOf(a, props[a]) != [] && PairsOf(b, props[b]) != [] &&
        Key(a) == Key(b) && a != b;
    assert a in arr && b in arr;
    var i :| 0 <= i < |arr| && arr[i] == a;
    var j :| 0 <= j < |arr| && arr[j] == b;
    var lo, hi := if i < j then i else j, if i < j then j else i;
    var brr := arr[lo := arr[hi]][hi := arr[lo]];
    SwapArranged(arr, props, lo, hi);
    EarlierBefore(arr, props, lo, hi);
    EarlierBefore(brr, props, lo, hi);
    BeforeAsymmetric(Fresh(arr, props), arr[lo], arr[hi]);
    assert Arranged(brr, props) && Fresh(brr, props) != Fresh(arr, props);
  }

  // A tie

  /** Two pulse outputs, named as some drivers number theirs. */
  const PULSE := Vec(
    Views.Head("Box", "PULSE", "", "", Switch, ReadWrite, OneOfMany, Ok, "", "", 0),
    [MemberVal(NO_MEMBER.(name := "START"), 0)], map["START" := 0])

  const PULSES: Props := map["PULSE_1" := PULSE, "PULSE_01" := PULSE]

  lemma ContributesPulse(number: string)
    requires number != "" && AllDigits(number)
    ensures Contributes("PULSE_" + number)
  {
    var prop := "PULSE_" + number;
    assert NUMBERED[1] == "PULSE_" && NUMBERED[1] < prop;
    assert prop[|NUMBERED[1]|..] == number;
  }

  lemma PulseChunks(number: string)
    requires number != "" && AllDigits(number)
    ensures var s := "PULSE_" + number;
            && NatOrder.Head(s) == "PULSE_" && Rest(s) == number
            && NatOrder.Head(number) == number && Rest(number) == ""
  {
    var s := "PULSE_" + number;
    assert forall i :: 0 <= i < 6 ==> s[i] == "PULSE_"[i] && !IsDigit("PULSE_"[i]);
    assert s[6] == number[0];
    assert Run(s, false) == 6 && s[..6] == "PULSE_" && s[6..] == number;
    assert Run(number, true) == |number|;
    assert number[..|number|] == number;
  }

  /** To the order, an output of the family is its number. */
  lemma PulseKey(number: string)
    requires number != "" && AllDigits(number) && Atoi(number).Some?
    ensures Fits("PULSE_" + number) && Key("PULSE_" + number) == [Txt("PULSE_"), Num(Atoi(number).value)]
  {
    hide NatOrder.Head, Rest, Atoi;
    var s := "PULSE_" + number;
    PulseChunks(number);
    NotANumber();
    assert !IsDigit(s[0]) && IsDigit(number[0]);
    assert Key(number) == [Num(Atoi(number).value)] + Key("");
    assert Fits("") && Fits(number);
  }

  lemma NotANumber()
    ensures Atoi("PULSE_") == None
  {
    assert !IsDigit("PULSE_"[5]);
  }

  /** Numbers of one value tie, whatever their leading zeros. */
  lemma PulsesTieIff(m: string, n: string)
    requires m != "" && AllDigits(m) && Atoi(m).Some? && n != "" && AllDigits(n) && Atoi(n).Some?
    ensures !Less("PULSE_" + m, "PULSE_" + n) && !Less("PULSE_" + n, "PULSE_" + m) <==> Atoi(m) == Atoi(n)
  {
    hide Less, Key, Fits, Atoi;
    PulseKey(m);
    PulseKey(n);
    StrictWeak("PULSE_" + m, "PULSE_" + n, "PULSE_" + m);
  }

  lemma OneIsOne()
    ensures Atoi("1") == Some(1) && Atoi("01") == Some(1) && AllDigits("1") && AllDigits("01")
    ensures "PULSE_" + "1" == "PULSE_1" && "PULSE_" + "01" == "PULSE_01" && "PULSE_1" != "PULSE_01"
  {
    assert "01"[..1] == "0";
    assert |"PULSE_1"| == 7 && |"PULSE_01"| == 8;
  }

  /** PULSE_1 and PULSE_01 in one snapshot: both orders are sorted, and the ids of their
      switches are exchanged. */
  lemma PulsesTie()
    ensures AllFit(PULSES) && !Untied(PULSES)
    ensures Arranged(["PULSE_1", "PULSE_01"], PULSES) && Arranged(["PULSE_01", "PULSE_1"], PULSES)
    ensures Fresh(["PULSE_1", "PULSE_01"], PULSES) == [Pair("PULSE_1", "START"), Pair("PULSE_01", "START")]
    ensures Fresh(["PULSE_01", "PULSE_1"], PULSES) == [Pair("PULSE_01", "START"), Pair("PULSE_1", "START")]
  {
    hide Less, Key, Fits, Contributes, PairsOf;
    OneIsOne();
    PulsesTieIff("1", "01");
    PulseKey("1");
    PulseKey("01");
    PulsePairs("1");
    PulsePairs("01");
    PulsesFresh("PULSE_1", "PULSE_01");
    PulsesFresh("PULSE_01", "PULSE_1");
  }

  lemma PulsePairs(number: string)
    requires number != "" && AllDigits(number)
    ensures PairsOf("PULSE_" + number, PULSE) == [Pair("PULSE_" + number, "START")]
  {
    hide Contributes;
    ContributesPulse(number);
    assert !BoolPair(PULSE);
  }

  lemma PulsesFresh(a: string, b: string)
    requires a in PULSES && b in PULSES && a != b
    requires PairsOf(a, PULSE) == [Pair(a, "START")] && PairsOf(b, PULSE) == [Pair(b, "START")]
    ensures Fresh([a, b], PULSES) == [Pair(a, "START"), Pair(b, "START")]
  {
    hide PairsOf, PinAll;
    assert PULSES[a] == PULSE && PULSES[b] == PULSE;
    assert [a, b][..1] == [a] && [a][..0] == [];
    assert Candidates([], PULSES) == [];
    assert Candidates([a], PULSES) == [] + PairsOf(a, PULSE);
    var ps := Candidates([a, b], PULSES);
    assert ps == Candidates([a], PULSES) + PairsOf(b, PULSE);
    assert ps == [Pair(a, "START"), Pair(b, "START")];
    PinTwo(Pair(a, "START"), Pair(b, "START"));
  }

  lemma PinTwo(p: Pair, q: Pair)
    requires p != q
    ensures PinAll([], [p, q]) == [p, q]
  {
    assert [p, q][..1] == [p] && [p][..0] == [];
    assert PinAll([], []) == [];
    assert PinAll([], [p]) == [] + [p];
  }

  /** A fresh enumeration depends only on the snapshot's content exactly if no two
      properties that bring switches tie. */
  lemma EnumerationUniqueIff(arr: seq<string>, props: Props)
    requires AllFit(props) && Arranged(arr, props)
    ensures (forall brr :: Arranged(brr, props) ==> Fresh(brr, props) == Fresh(arr, props)) <==> Untied(props)
  {
    hide Fresh, Untied, AllFit, Less;
    if Untied(props) {
      forall brr | Arranged(brr, props)
        ensures Fresh(brr, props) == Fresh(arr, props)
      {
        UntiedUnique(arr, brr, props);
      }
    } else {
      TiedDiffer(arr, props);
    }
  }
}
