/** Presets: values put on properties before or after connecting, and the record of
    what a supervisor writes, from which their gating can be read off. */
module Presets {
  import opened Wire
  import opened Views

  /** A value for one member of one property. */
  datatype Preset = Preset(prop: string, member: string, value: string, before: bool)

  /** One driver child. parse is the reading of a decimal number, if it is one. */
  datatype Config = Config(
    device: string, presets: seq<Preset>, pollingPeriodMs: int, holdConnect: bool,
    parse: string -> Option<Num>, pollingValue: Num)
  {
    /** An empty name wants every device. */
    predicate Wants(d: string): (r: bool)
      ensures device == "" ==> r
      ensures device != "" ==> (r <==> d == device)
    {
      device == "" || device == d
    }
  }

  /** What goes to the driver. */
  datatype Message =
    | GetProperties
    | PingReply(uid: string)
    | NewSwitch(device: string, prop: string, on: seq<string>, off: seq<string>)
    | NewNumber(device: string, prop: string, numbers: map<string, Num>)
    | NewText(device: string, prop: string, texts: map<string, string>)

  /** What told the supervisor of the vector that presets are written to: the definition
      just applied, or the snapshot. */
  datatype Shown = Defined | Snapped

  /** Why it was sent; for presets, which ones. */
  datatype Why = Asked | Answered | Polled | Connecting | Presetting(due: seq<nat>, shown: Shown)

  datatype Phase = PhaseIdle | Spawning | Acquiring | Serving | Retrying | Stopped

  /** One write: the marks as the decision to write found them, and as the write itself
      found them the phase, the snapshot and the definitions considered in this attempt. */
  datatype Act = Act(msg: Message, why: Why, sent: seq<bool>, phase: Phase, view: View, defs: seq<Element>)

  predicate IsDue(presets: seq<Preset>, sent: seq<bool>, prop: string, serving: bool, i: nat)
    requires i < |presets| == |sent|
  {
    presets[i].prop == prop && !sent[i] && (presets[i].before || serving)
  }

  /** The presets due among the first n, in order. */
  function Due(presets: seq<Preset>, sent: seq<bool>, prop: string, serving: bool, n: nat): (due: seq<nat>)
    requires n <= |presets| == |sent|
    ensures forall k :: 0 <= k < |due| ==> due[k] < n
  {
    if n == 0 then []
    else
      Due(presets, sent, prop, serving, n - 1) + if IsDue(presets, sent, prop, serving, n - 1) then [n - 1] else []
  }

  /** The due ones and no others. */
  lemma {:induction false} DueIff(presets: seq<Preset>, sent: seq<bool>, prop: string, serving: bool, n: nat, i: nat)
    requires n <= |presets| == |sent|
    ensures i in Due(presets, sent, prop, serving, n) <==>
            i < n && presets[i].prop == prop && !sent[i] && (presets[i].before || serving)
  {
    if n == 0 {
    } else {
      DueIff(presets, sent, prop, serving, n - 1, i);
    }
  }

  /** Each once, in the order of the configuration. */
  lemma {:induction false} DueOrdered(presets: seq<Preset>, sent: seq<bool>, prop: string, serving: bool, n: nat)
    requires n <= |presets| == |sent|
    ensures forall j, k :: 0 <= j < k < |Due(presets, sent, prop, serving, n)| ==>
              Due(presets, sent, prop, serving, n)[j] < Due(presets, sent, prop, serving, n)[k]
  {
    if n == 0 {
    } else {
      DueOrdered(presets, sent, prop, serving, n - 1);
    }
  }

  /** The marks once everything due has been taken. */
  function Marked(presets: seq<Preset>, sent: seq<bool>, prop: string, serving: bool): (r: seq<bool>)
    requires |presets| == |sent|
    ensures |r| == |sent|
  {
    seq(|sent|, i requires 0 <= i < |sent| => sent[i] || IsDue(presets, sent, prop, serving, i))
  }

  /** Taking marks the due ones and takes no mark back. */
  lemma MarkedIff(presets: seq<Preset>, sent: seq<bool>, prop: string, serving: bool, i: nat)
    requires i < |presets| == |sent|
    ensures Marked(presets, sent, prop, serving)[i] <==>
            sent[i] || i in Due(presets, sent, prop, serving, |presets|)
  {
    DueIff(presets, sent, prop, serving, |presets|, i);
  }

  /** Every before-connect preset has had its turn. */
  predicate BeforeDone(presets: seq<Preset>, sent: seq<bool>)
    requires |presets| == |sent|
  {
    forall i :: 0 <= i < |presets| && presets[i].before ==> sent[i]
  }

  // What a preset write says

  /** strings.EqualFold(value, "off"). */
  predicate IsOff(value: string) {
    |value| == 3 && value[0] in {'o', 'O'} && value[1] in {'f', 'F'} && value[2] in {'f', 'F'}
  }

  predicate Targets(presets: seq<Preset>, due: seq<nat>) {
    forall k :: 0 <= k < |due| ==> due[k] < |presets|
  }

  /** The due members to turn on, or off. */
  function Switched(presets: seq<Preset>, due: seq<nat>, off: bool): seq<string>
    requires Targets(presets, due)
  {
    if due == [] then []
    else
      var k := |due| - 1;
      var p := presets[due[k]];
      Switched(presets, due[..k], off) + if IsOff(p.value) == off then [p.member] else []
  }

  /** Every current value, with what the due presets say put over it. */
  function Numbers(cfg: Config, current: map<string, Num>, due: seq<nat>): map<string, Num>
    requires Targets(cfg.presets, due)
  {
    if due == [] then current
    else
      var k := |due| - 1;
      var p := cfg.presets[due[k]];
      var v := cfg.parse(p.value);
      var front := Numbers(cfg, current, due[..k]);
      if v.None? then front else front[p.member := v.value]
  }

  function Texts(presets: seq<Preset>, due: seq<nat>): map<string, string>
    requires Targets(presets, due)
  {
    if due == [] then map[]
    else
      var k := |due| - 1;
      Texts(presets, due[..k])[presets[due[k]].member := presets[due[k]].value]
  }

  /** The one write that takes the due presets to a vector, if its type can be preset. */
  function PresetMessage(
      cfg: Config, device: string, prop: string, vt: VType, current: map<string, Num>, due: seq<nat>): Option<Message>
    requires Targets(cfg.presets, due)
  {
    match vt
    case Switch => Some(NewSwitch(device, prop, Switched(cfg.presets, due, false), Switched(cfg.presets, due, true)))
    case Number => Some(NewNumber(device, prop, Numbers(cfg, current, due)))
    case Text => Some(NewText(device, prop, Texts(cfg.presets, due)))
    case _ => None
  }

  /** A member that no due preset has a number for. */
  predicate Untargeted(cfg: Config, due: seq<nat>, member: string)
    requires Targets(cfg.presets, due)
  {
    forall k :: 0 <= k < |due| ==> cfg.presets[due[k]].member != member || cfg.parse(cfg.presets[due[k]].value).None?
  }

  /** A number write has a value for every current member, presets over current values. */
  lemma {:induction false} NumbersComplete(cfg: Config, current: map<string, Num>, due: seq<nat>)
    requires Targets(cfg.presets, due)
    ensures current.Keys <= Numbers(cfg, current, due).Keys
    ensures forall m :: m in current && Untargeted(cfg, due, m) ==> Numbers(cfg, current, due)[m] == current[m]
    ensures forall k :: 0 <= k < |due| && cfg.parse(cfg.presets[due[k]].value).Some?
              ==> cfg.presets[due[k]].member in Numbers(cfg, current, due)
    decreases |due|
  {
    if due == [] {
    } else {
      var n := |due| - 1;
      NumbersComplete(cfg, current, due[..n]);
      forall m | m in current && Untargeted(cfg, due, m)
        ensures Untargeted(cfg, due[..n], m)
      {
        assert forall k :: 0 <= k < n ==> due[..n][k] == due[k];
      }
    }
  }

  // What the messages say, preset by preset

  /** Of the due presets for a member with a number, the k-th is the last. */
  predicate LastNumber(cfg: Config, due: seq<nat>, k: nat)
    requires Targets(cfg.presets, due) && k < |due|
  {
    && cfg.parse(cfg.presets[due[k]].value).Some?
    && forall j :: k < j < |due| && cfg.presets[due[j]].member == cfg.presets[due[k]].member ==>
         cfg.parse(cfg.presets[due[j]].value).None?
  }

  /** A number write says, of each member, what the last due preset with a number for it
      says; it names no member that is neither current nor in such a preset. */
  lemma {:induction false} NumbersSay(cfg: Config, current: map<string, Num>, due: seq<nat>)
    requires Targets(cfg.presets, due)
    ensures forall k :: 0 <= k < |due| && LastNumber(cfg, due, k) ==>
              var m := cfg.presets[due[k]].member;
              && m in Numbers(cfg, current, due)
              && Numbers(cfg, current, due)[m] == cfg.parse(cfg.presets[due[k]].value).value
    ensures forall m :: m in Numbers(cfg, current, due) ==> m in current || !Untargeted(cfg, due, m)
    decreases |due|
  {
    if due == [] {
    } else {
      var n := |due| - 1;
      var front := due[..n];
      NumbersSay(cfg, current, front);
      forall k | 0 <= k < n && LastNumber(cfg, due, k)
        ensures LastNumber(cfg, front, k)
      {
        assert forall j :: 0 <= j < n ==> front[j] == due[j];
      }
      forall m | !Untargeted(cfg, front, m)
        ensures !Untargeted(cfg, due, m)
      {
        var j :| 0 <= j < n && !(cfg.presets[front[j]].member != m || cfg.parse(cfg.presets[front[j]].value).None?);
        assert due[j] == front[j];
      }
    }
  }

  /** A due preset asks for a member to be off, its value folding to "off", or to be on. */
  predicate Asks(presets: seq<Preset>, due: seq<nat>, m: string, off: bool)
    requires Targets(presets, due)
  {
    exists k :: 0 <= k < |due| && presets[due[k]].member == m && (Lower(presets[due[k]].value) == "off") == off
  }

  /** The switches to turn off are the members of the due presets whose value folds to
      "off", the ones to turn on all the others. */
  lemma {:induction false} SwitchesSay(presets: seq<Preset>, due: seq<nat>, m: string)
    requires Targets(presets, due)
    ensures m in Switched(presets, due, true) <==> Asks(presets, due, m, true)
    ensures m in Switched(presets, due, false) <==> Asks(presets, due, m, false)
    decreases |due|
  {
    if due == [] {
    } else {
      var n := |due| - 1;
      var front := due[..n];
      assert due == front + [due[n]];
      SwitchesSay(presets, front, m);
      OffFolds(presets[due[n]].value);
      assert forall k :: 0 <= k < n ==> front[k] == due[k];
    }
  }

  lemma OffFolds(value: string)
    ensures IsOff(value) <==> Lower(value) == "off"
  {
    var low := Lower(value);
    assert |low| == |value|;
    if IsOff(value) {
      assert low == [low[0], low[1], low[2]];
    }
    if low == "off" {
      assert low[0] == 'o' && low[1] == 'f' && low[2] == 'f';
    }
  }

  /** Of the due presets for a member, the k-th is the last. */
  predicate LastText(presets: seq<Preset>, due: seq<nat>, k: nat)
    requires Targets(presets, due) && k < |due|
  {
    forall j :: k < j < |due| ==> presets[due[j]].member != presets[due[k]].member
  }

  /** A text write says of a member what the last due preset for it says. */
  lemma {:induction false} TextsSay(presets: seq<Preset>, due: seq<nat>, k: nat)
    requires Targets(presets, due) && k < |due| && LastText(presets, due, k)
    ensures presets[due[k]].member in Texts(presets, due)
    ensures Texts(presets, due)[presets[due[k]].member] == presets[due[k]].value
    decreases |due|
  {
    var n := |due| - 1;
    if k == n {
    } else {
      var front := due[..n];
      assert forall j :: 0 <= j < n ==> front[j] == due[j];
      TextsSay(presets, front, k);
    }
  }

  /** It names no others. */
  lemma {:induction false} TextsOnly(presets: seq<Preset>, due: seq<nat>, m: string)
    requires Targets(presets, due) && m in Texts(presets, due)
    ensures exists k :: 0 <= k < |due| && presets[due[k]].member == m
    decreases |due|
  {
    var n := |due| - 1;
    if presets[due[n]].member == m {
    } else {
      TextsOnly(presets, due[..n], m);
      var k :| 0 <= k < n && presets[due[..n][k]].member == m;
      assert due[..n][k] == due[k];
    }
  }

  // The vector a preset write goes to

  function Names(ms: seq<Member>): set<string> {
    set m | m in ms :: m.name
  }

  function Values(ms: seq<Member>): (r: map<string, Num>)
    ensures r.Keys == Names(ms)
  {
    if ms == [] then map[] else Values(ms[..|ms| - 1])[ms[|ms| - 1].name := ms[|ms| - 1].value]
  }

  function MembersOf(mvs: seq<MemberVal>): seq<Member> {
    seq(|mvs|, i requires 0 <= i < |mvs| => mvs[i].member)
  }

  /** The last definition considered is of this property; or the snapshot has it. */
  predicate Known(shown: Shown, view: View, defs: seq<Element>, device: string, prop: string) {
    if shown == Snapped then Has(view, device, prop)
    else
      && defs != []
      && var el := defs[|defs| - 1];
         el.kind == KindDef && el.device == device && el.name == prop
  }

  function TypeAt(shown: Shown, view: View, defs: seq<Element>, device: string, prop: string): VType
    requires Known(shown, view, defs, device, prop)
  {
    if shown == Snapped then view[device][prop].head.vtype else defs[|defs| - 1].vtype
  }

  function MembersAt(shown: Shown, view: View, defs: seq<Element>, device: string, prop: string): seq<Member>
    requires Known(shown, view, defs, device, prop)
  {
    if shown == Snapped then MembersOf(view[device][prop].members) else defs[|defs| - 1].members
  }

  // What every run keeps

  /** CONNECT is written only to a wanted device, never when held, and only with every
      before-connect preset marked. */
  predicate ConnectGated(cfg: Config, a: Act)
    requires |a.sent| == |cfg.presets|
  {
    a.why.Connecting? ==>
      && a.msg.NewSwitch? && cfg.Wants(a.msg.device) && a.msg.prop == "CONNECTION"
      && a.msg.on == ["CONNECT"] && a.msg.off == []
      && !cfg.holdConnect && BeforeDone(cfg.presets, a.sent)
  }

  /** Serving can be taken back by a connect retry only like this. */
  predicate Takeable(cfg: Config, sent: seq<bool>)
    requires |sent| == |cfg.presets|
  {
    !cfg.holdConnect && !BeforeDone(cfg.presets, sent)
  }

  /** A preset write goes to a wanted device and carries presets for its property not taken
      before, after-connect ones only while serving or Takeable. It is made for a vector
      the supervisor knows, from that vector's type and current values. */
  predicate PresetGated(cfg: Config, a: Act)
    requires |a.sent| == |cfg.presets|
  {
    a.why.Presetting? ==>
      && (a.msg.NewSwitch? || a.msg.NewNumber? || a.msg.NewText?) && cfg.Wants(a.msg.device)
      && (forall k :: 0 <= k < |a.why.due| ==>
            && a.why.due[k] < |cfg.presets|
            && cfg.presets[a.why.due[k]].prop == a.msg.prop
            && !a.sent[a.why.due[k]]
            && (cfg.presets[a.why.due[k]].before || a.phase == Serving || Takeable(cfg, a.sent)))
      && Known(a.why.shown, a.view, a.defs, a.msg.device, a.msg.prop)
      && var vt := TypeAt(a.why.shown, a.view, a.defs, a.msg.device, a.msg.prop);
         var current := Values(MembersAt(a.why.shown, a.view, a.defs, a.msg.device, a.msg.prop));
         PresetMessage(cfg, a.msg.device, a.msg.prop, vt, current, a.why.due) == Some(a.msg)
  }

  predicate ActOk(cfg: Config, a: Act) {
    |a.sent| == |cfg.presets| && ConnectGated(cfg, a) && PresetGated(cfg, a)
  }

  /** What was taken stays marked for the rest of the attempt. */
  predicate Kept(a: Act, sent: seq<bool>) {
    && |a.sent| == |sent|
    && (forall i :: 0 <= i < |sent| && a.sent[i] ==> sent[i])
    && (a.why.Presetting? ==> forall k :: 0 <= k < |a.why.due| ==> a.why.due[k] < |sent| && sent[a.why.due[k]])
  }

  /** Later writes find the marks of earlier ones of the same attempt. */
  predicate LogOk(cfg: Config, acts: seq<Act>, began: nat, sent: seq<bool>) {
    && |sent| == |cfg.presets|
    && (forall k :: 0 <= k < |acts| ==> ActOk(cfg, acts[k]))
    && (forall k :: began <= k < |acts| ==> Kept(acts[k], sent))
    && (forall j, k :: began <= j < k < |acts| ==> Kept(acts[j], acts[k].sent))
  }

  predicate Disjoint(a: Act, b: Act) {
    a.why.Presetting? && b.why.Presetting? ==> forall i :: i in a.why.due ==> i !in b.why.due
  }

  /** Among these writes no preset enters two. */
  predicate OncePerPreset(acts: seq<Act>, lo: nat, hi: nat)
    requires hi <= |acts|
  {
    forall j, k :: lo <= j < k < hi ==> Disjoint(acts[j], acts[k])
  }

  /** Within an attempt no preset enters two writes. */
  lemma PresetsOnce(cfg: Config, acts: seq<Act>, began: nat, sent: seq<bool>, j: nat, k: nat)
    requires LogOk(cfg, acts, began, sent) && began <= j < k < |acts|
    ensures Disjoint(acts[j], acts[k])
  {
    assert Kept(acts[j], acts[k].sent) && ActOk(cfg, acts[k]);
    assert PresetGated(cfg, acts[k]);
  }

  /** With CONNECT held, or every before-connect preset marked, after-connect ones go out
      only while serving. */
  lemma AfterConnectServing(cfg: Config, acts: seq<Act>, began: nat, sent: seq<bool>, k: nat, i: nat)
    requires LogOk(cfg, acts, began, sent) && k < |acts|
    requires acts[k].why.Presetting? && i in acts[k].why.due && i < |cfg.presets| && !cfg.presets[i].before
    ensures |acts[k].sent| == |cfg.presets|
    ensures cfg.holdConnect || BeforeDone(cfg.presets, acts[k].sent) ==> acts[k].phase == Serving
  {
    assert ActOk(cfg, acts[k]);
    var j :| 0 <= j < |acts[k].why.due| && acts[k].why.due[j] == i;
  }

  /** A number write names every member of the vector it is for: of the definition just
      applied, or of the vector in the snapshot. Members without a preset keep their value;
      the others have the number of the last due preset that has one for them. */
  lemma NumberWriteComplete(cfg: Config, acts: seq<Act>, began: nat, sent: seq<bool>, k: nat)
    requires LogOk(cfg, acts, began, sent) && k < |acts|
    requires acts[k].why.Presetting? && acts[k].msg.NewNumber?
    ensures var a := acts[k];
            && Targets(cfg.presets, a.why.due)
            && Known(a.why.shown, a.view, a.defs, a.msg.device, a.msg.prop)
            && var ms := MembersAt(a.why.shown, a.view, a.defs, a.msg.device, a.msg.prop);
               && Names(ms) <= a.msg.numbers.Keys
               && (forall m :: m in Names(ms) && Untargeted(cfg, a.why.due, m) ==> a.msg.numbers[m] == Values(ms)[m])
               && (forall i :: 0 <= i < |a.why.due| && LastNumber(cfg, a.why.due, i) ==>
                     var m := cfg.presets[a.why.due[i]].member;
                     && m in a.msg.numbers
                     && a.msg.numbers[m] == cfg.parse(cfg.presets[a.why.due[i]].value).value)
               && (forall m :: m in a.msg.numbers ==> m in Names(ms) || !Untargeted(cfg, a.why.due, m))
  {
    var a := acts[k];
    assert ActOk(cfg, a) && PresetGated(cfg, a);
    var ms := MembersAt(a.why.shown, a.view, a.defs, a.msg.device, a.msg.prop);
    NumbersComplete(cfg, Values(ms), a.why.due);
    NumbersSay(cfg, Values(ms), a.why.due);
  }

  /** A switch write turns off exactly the due members whose preset folds to "off", and on
      exactly the others. */
  lemma SwitchWriteSays(cfg: Config, acts: seq<Act>, began: nat, sent: seq<bool>, k: nat, m: string)
    requires LogOk(cfg, acts, began, sent) && k < |acts|
    requires acts[k].why.Presetting? && acts[k].msg.NewSwitch?
    ensures var a := acts[k];
            && Targets(cfg.presets, a.why.due)
            && (m in a.msg.off <==> Asks(cfg.presets, a.why.due, m, true))
            && (m in a.msg.on <==> Asks(cfg.presets, a.why.due, m, false))
  {
    hide Switched, Texts, Numbers, Lower, Values, TypeAt, MembersAt, Takeable, Known;
    var a := acts[k];
    assert ActOk(cfg, a) && PresetGated(cfg, a);
    SwitchesSay(cfg.presets, a.why.due, m);
  }

  /** A text write says of each due member the text of its last due preset, and names no
      others. */
  lemma TextWriteSays(cfg: Config, acts: seq<Act>, began: nat, sent: seq<bool>, k: nat, m: string)
    requires LogOk(cfg, acts, began, sent) && k < |acts|
    requires acts[k].why.Presetting? && acts[k].msg.NewText?
    ensures var a := acts[k];
            && Targets(cfg.presets, a.why.due)
            && (m in a.msg.texts <==> exists i :: 0 <= i < |a.why.due| && cfg.presets[a.why.due[i]].member == m)
            && forall i :: 0 <= i < |a.why.due| && cfg.presets[a.why.due[i]].member == m ==>
                 LastText(cfg.presets, a.why.due, i) ==>
                   m in a.msg.texts && a.msg.texts[m] == cfg.presets[a.why.due[i]].value
  {
    hide Switched, Texts, Numbers, Lower, Values, TypeAt, MembersAt, Takeable, Known;
    var a := acts[k];
    assert ActOk(cfg, a) && PresetGated(cfg, a);
    forall i | 0 <= i < |a.why.due| && LastText(cfg.presets, a.why.due, i)
      ensures cfg.presets[a.why.due[i]].member in Texts(cfg.presets, a.why.due)
      ensures Texts(cfg.presets, a.why.due)[cfg.presets[a.why.due[i]].member] == cfg.presets[a.why.due[i]].value
    {
      TextsSay(cfg.presets, a.why.due, i);
    }
    if m in Texts(cfg.presets, a.why.due) {
      TextsOnly(cfg.presets, a.why.due, m);
    }
    if i :| 0 <= i < |a.why.due| && cfg.presets[a.why.due[i]].member == m {
      LastOf(cfg.presets, a.why.due, m, i);
    }
  }

  /** Of the due presets of a member one is the last. */
  lemma {:induction false} LastOf(presets: seq<Preset>, due: seq<nat>, m: string, i: nat)
    requires Targets(presets, due) && i < |due| && presets[due[i]].member == m
    ensures exists k :: 0 <= k < |due| && presets[due[k]].member == m && LastText(presets, due, k)
    decreases |due| - i
  {
    if j :| i < j < |due| && presets[due[j]].member == m {
      LastOf(presets, due, m, j);
    }
  }

  lemma LogGrows(cfg: Config, acts: seq<Act>, began: nat, was: seq<bool>, sent: seq<bool>, a: Act)
    requires LogOk(cfg, acts, began, was) && ActOk(cfg, a) && a.sent == was
    requires |sent| == |was| && forall i :: 0 <= i < |was| && was[i] ==> sent[i]
    requires a.why.Presetting? ==> forall k :: 0 <= k < |a.why.due| ==> a.why.due[k] < |sent| && sent[a.why.due[k]]
    ensures LogOk(cfg, acts + [a], began, sent)
    ensures LogOk(cfg, acts, began, sent)
  {
    hide ActOk;
    forall k | began <= k < |acts|
      ensures Kept(acts[k], sent)
    {
      assert Kept(acts[k], was);
    }
  }

  lemma MarksGrow(cfg: Config, acts: seq<Act>, began: nat, was: seq<bool>, sent: seq<bool>)
    requires LogOk(cfg, acts, began, was)
    requires |sent| == |was| && forall i :: 0 <= i < |was| && was[i] ==> sent[i]
    ensures LogOk(cfg, acts, began, sent)
  {
    LogGrows(cfg, acts, began, was, sent, Act(GetProperties, Asked, was, PhaseIdle, EMPTY, []));
  }

  /** The write of what is due for a property of a wanted device. */
  lemma DueGated(
      cfg: Config, was: seq<bool>, device: string, prop: string, shown: Shown, view: View, defs: seq<Element>,
      serving: bool, phase: Phase)
    requires cfg.Wants(device) && Known(shown, view, defs, device, prop)
    requires |was| == |cfg.presets| && (serving ==> phase == Serving || Takeable(cfg, was))
    ensures var due := Due(cfg.presets, was, prop, serving, |was|);
            var current := Values(MembersAt(shown, view, defs, device, prop));
            var msg := PresetMessage(cfg, device, prop, TypeAt(shown, view, defs, device, prop), current, due);
            && (msg.Some? ==> ActOk(cfg, Act(msg.value, Presetting(due, shown), was, phase, view, defs)))
            && (forall k :: 0 <= k < |due| ==> due[k] < |was| && Marked(cfg.presets, was, prop, serving)[due[k]])
  {
    hide Takeable, Numbers, Texts, Switched, Values, Known, TypeAt, MembersAt, Due;
    var due := Due(cfg.presets, was, prop, serving, |was|);
    forall k | 0 <= k < |due|
      ensures due[k] < |was| && IsDue(cfg.presets, was, prop, serving, due[k])
    {
      DueIff(cfg.presets, was, prop, serving, |was|, due[k]);
    }
  }

  /** Taking what is due for a property, and writing it, keeps the record right. */
  lemma DueTaken(
      cfg: Config, acts: seq<Act>, began: nat, was: seq<bool>, device: string, prop: string, shown: Shown,
      view: View, defs: seq<Element>, serving: bool, phase: Phase)
    requires LogOk(cfg, acts, began, was) && cfg.Wants(device)
    requires Known(shown, view, defs, device, prop)
    requires |was| == |cfg.presets| && (serving ==> phase == Serving || Takeable(cfg, was))
    ensures var due := Due(cfg.presets, was, prop, serving, |was|);
            var sent := Marked(cfg.presets, was, prop, serving);
            var current := Values(MembersAt(shown, view, defs, device, prop));
            var msg := PresetMessage(cfg, device, prop, TypeAt(shown, view, defs, device, prop), current, due);
            && LogOk(cfg, acts, began, sent)
            && (msg.Some? ==>
                  LogOk(cfg, acts + [Act(msg.value, Presetting(due, shown), was, phase, view, defs)], began, sent))
            && (due == [] ==> sent == was)
  {
    hide LogOk, ActOk, Takeable, Values, Known, TypeAt, MembersAt, Due, PresetMessage;
    var due := Due(cfg.presets, was, prop, serving, |was|);
    var sent := Marked(cfg.presets, was, prop, serving);
    var current := Values(MembersAt(shown, view, defs, device, prop));
    var msg := PresetMessage(cfg, device, prop, TypeAt(shown, view, defs, device, prop), current, due);
    DueGated(cfg, was, device, prop, shown, view, defs, serving, phase);
    MarksGrow(cfg, acts, began, was, sent);
    if msg.Some? {
      LogGrows(cfg, acts, began, was, sent, Act(msg.value, Presetting(due, shown), was, phase, view, defs));
    }
    NothingDue(cfg, was, prop, serving);
  }

  lemma NothingDue(cfg: Config, was: seq<bool>, prop: string, serving: bool)
    requires |was| == |cfg.presets|
    ensures Due(cfg.presets, was, prop, serving, |was|) == [] ==> Marked(cfg.presets, was, prop, serving) == was
  {
    if Due(cfg.presets, was, prop, serving, |was|) == [] {
      forall i | 0 <= i < |was|
        ensures Marked(cfg.presets, was, prop, serving)[i] == was[i]
      {
        DueIff(cfg.presets, was, prop, serving, |was|, i);
      }
    }
  }

  /** A new attempt finds nothing marked, and nothing of its own written yet. */
  lemma FreshLog(cfg: Config, acts: seq<Act>, began: nat, was: seq<bool>)
    requires LogOk(cfg, acts, began, was)
    ensures LogOk(cfg, acts, |acts|, seq(|cfg.presets|, _ => false))
  {
    hide ActOk, Kept;
  }
}
