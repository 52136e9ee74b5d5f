/** The supervisor of one driver child: spawn, acquire, serve, retry. Its read loop
    and the tickers that retry CONNECT share it; wherever a ticker can come in
    between, the read loop here calls Yield. */
module Supervising {
  import opened Wire
  import opened Views
  import opened Snapshots
  import opened Observing
  import opened Presets
  import opened Ticking

  /** One element off the child's stream, and when it came. */
  datatype Input = Input(el: Element, at: int)

  /** What the world does to one attempt: whether the child spawns, whether the first
      write succeeds, what the child says, whether shutdown ends it. */
  datatype Script = Script(spawned: bool, asked: bool, stream: seq<Input>, cancelled: bool)

  /** The elements that reach the observer and the store: all but pings. */
  function Told(stream: seq<Input>): seq<Element> {
    if stream == [] then []
    else
      var k := |stream| - 1;
      Told(stream[..k]) + if stream[k].el.kind == KindPing then [] else [stream[k].el]
  }

  lemma ToldOne(input: Input)
    ensures Told([input]) == if input.el.kind == KindPing then [] else [input.el]
  {
    assert Told([input][..0]) == [];
  }

  lemma HeardUnfolds(els: seq<Element>, clock: nat -> int)
    requires |els| > 0
    ensures FoldAll(EMPTY, els, clock) ==
            Fold(FoldAll(EMPTY, els[..|els| - 1], clock), els[|els| - 1], clock(|els| - 1))
  {
    hide Fold;
  }

  /** What an attempt gets to tell: nothing if the child never spawned or could not be asked. */
  function Reached(script: Script): seq<Element> {
    if script.spawned && script.asked then Told(script.stream) else []
  }

  /** What the observer hears over some attempts that end with these devices gone. */
  function Sessions(before: seq<Element>, scripts: seq<Script>, gones: seq<seq<string>>): seq<Element>
    requires |scripts| == |gones|
  {
    if scripts == [] then before
    else
      var k := |scripts| - 1;
      Sessions(before, scripts[..k], gones[..k]) + Reached(scripts[k]) + AllGone(gones[k])
  }

  /** Each attempt's deletions are one for each device then alive. */
  ghost predicate AllListed(before: seq<Element>, scripts: seq<Script>, gones: seq<seq<string>>)
    requires |scripts| == |gones|
    decreases |scripts|
  {
    scripts != [] ==>
      var k := |scripts| - 1;
      && AllListed(before, scripts[..k], gones[..k])
      && NamesAll(gones[k], FoldAll(EMPTY, Sessions(before, scripts[..k], gones[..k]) + Reached(scripts[k]), _ => 0))
  }

  /** Every before-connect preset is marked exactly if a wanted device has defined its
      property. */
  ghost predicate BeforeExact(cfg: Config, sent: seq<bool>, defs: seq<Element>)
    requires |sent| == |cfg.presets|
  {
    forall i :: 0 <= i < |sent| && cfg.presets[i].before ==>
      (sent[i] <==> WantedDef(cfg, defs, cfg.presets[i].prop))
  }

  ghost predicate WantedDef(cfg: Config, defs: seq<Element>, prop: string) {
    exists k :: 0 <= k < |defs| && defs[k].kind == KindDef && cfg.Wants(defs[k].device) && defs[k].name == prop
  }

  lemma WantedDefGrows(cfg: Config, defs: seq<Element>, el: Element, prop: string)
    ensures WantedDef(cfg, defs + [el], prop) <==>
              WantedDef(cfg, defs, prop) || (el.kind == KindDef && cfg.Wants(el.device) && el.name == prop)
  {
    var more := defs + [el];
    if WantedDef(cfg, defs, prop) {
      var k :| 0 <= k < |defs| && defs[k].kind == KindDef && cfg.Wants(defs[k].device) && defs[k].name == prop;
      assert more[k] == defs[k];
    }
    assert more[|defs|] == el;
  }

  /** A definition of a wanted device takes the before-connect presets of its property;
      other elements, and definitions with no presets configured, take none. */
  lemma DefConsidered(cfg: Config, sent: seq<bool>, defs: seq<Element>, el: Element, serving: bool)
    requires |sent| == |cfg.presets| && BeforeExact(cfg, sent, defs)
    ensures el.kind == KindDef && cfg.Wants(el.device) ==>
              BeforeExact(cfg, Marked(cfg.presets, sent, el.name, serving), defs + [el])
    ensures el.kind != KindDef || |cfg.presets| == 0 || !cfg.Wants(el.device) ==> BeforeExact(cfg, sent, defs + [el])
  {
    hide WantedDef;
    forall i | 0 <= i < |sent|
      ensures WantedDef(cfg, defs + [el], cfg.presets[i].prop) <==>
                WantedDef(cfg, defs, cfg.presets[i].prop)
                || (el.kind == KindDef && cfg.Wants(el.device) && el.name == cfg.presets[i].prop)
    {
      WantedDefGrows(cfg, defs, el, cfg.presets[i].prop);
    }
  }

  /** A property in the snapshot was defined in this attempt, so its before-connect
      presets have been taken already: sweeping it takes after-connect ones only. */
  lemma SweepSpares(cfg: Config, view: View, defs: seq<Element>, sent: seq<bool>, device: string, prop: string)
    requires |sent| == |cfg.presets| && AllDefined(view, defs) && BeforeExact(cfg, sent, defs)
    requires Has(view, device, prop) && cfg.Wants(device)
    ensures var swept := Marked(cfg.presets, sent, prop, true);
            && BeforeExact(cfg, swept, defs)
            && (BeforeDone(cfg.presets, swept) <==> BeforeDone(cfg.presets, sent))
  {
    hide WantedDef;
    var swept := Marked(cfg.presets, sent, prop, true);
    HasWanted(cfg, view, defs, device, prop);
    assert forall i :: 0 <= i < |sent| && cfg.presets[i].before ==> swept[i] == sent[i];
  }

  lemma HasWanted(cfg: Config, view: View, defs: seq<Element>, device: string, prop: string)
    requires AllDefined(view, defs) && Has(view, device, prop) && cfg.Wants(device)
    ensures WantedDef(cfg, defs, prop)
  {
    assert DefinedBy(defs, device, prop);
    var k :| 0 <= k < |defs| && defs[k].kind == KindDef && defs[k].device == device && defs[k].name == prop;
    assert defs[k].kind == KindDef && cfg.Wants(defs[k].device) && defs[k].name == prop;
  }

  /** The device's CONNECT switch is there, and off. */
  predicate SwitchedOff(view: View, device: string) {
    && Has(view, device, "CONNECTION")
    && var v := view[device]["CONNECTION"];
       "CONNECT" in v.byName && v.byName["CONNECT"] < |v.members| && !v.members[v.byName["CONNECT"]].member.on
  }

  function ConnectMessage(device: string): Message {
    NewSwitch(device, "CONNECTION", ["CONNECT"], [])
  }

  /** CONNECT has been written to a device since. */
  predicate Connected(before: seq<Message>, after: seq<Message>, device: string) {
    |before| <= |after| && ConnectMessage(device) in after[|before|..]
  }

  lemma ConnectedLater(before: seq<Message>, after: seq<Message>, later: seq<Message>, device: string)
    requires Connected(before, after, device) && after <= later
    ensures Connected(before, later, device)
  {
    var k :| 0 <= k < |after[|before|..]| && after[|before|..][k] == ConnectMessage(device);
    assert later[|before|..][k] == ConnectMessage(device);
  }

  /** Marks are never taken back. */
  predicate Grown(was: seq<bool>, sent: seq<bool>) {
    |was| == |sent| && forall i :: 0 <= i < |was| && was[i] ==> sent[i]
  }

  /** Every preset of a property has been taken. */
  predicate Taken(cfg: Config, sent: seq<bool>, prop: string) {
    |sent| == |cfg.presets| && forall i :: 0 <= i < |sent| && cfg.presets[i].prop == prop ==> sent[i]
  }

  /** Every preset has been taken whose property the device shows. */
  predicate AllTaken(cfg: Config, sent: seq<bool>, view: View, device: string) {
    |sent| == |cfg.presets| && forall i :: 0 <= i < |sent| && Has(view, device, cfg.presets[i].prop) ==> sent[i]
  }

  lemma MarkedTakes(cfg: Config, sent: seq<bool>, prop: string)
    requires |sent| == |cfg.presets|
    ensures Taken(cfg, Marked(cfg.presets, sent, prop, true), prop)
  {
  }

  lemma MarkedGrows(presets: seq<Preset>, sent: seq<bool>, prop: string, serving: bool)
    requires |sent| == |presets|
    ensures Grown(sent, Marked(presets, sent, prop, serving))
  {
  }

  /** The after-connect properties still to be swept; nothing else is left to take. */
  predicate LeftIn(cfg: Config, sent: seq<bool>, view: View, device: string, props: set<string>) {
    && |sent| == |cfg.presets|
    && forall i :: 0 <= i < |sent| && Has(view, device, cfg.presets[i].prop) && !sent[i] ==>
        cfg.presets[i].prop in props
  }

  lemma LeftAtFirst(cfg: Config, sent: seq<bool>, view: View, defs: seq<Element>, device: string, props: set<string>)
    requires |sent| == |cfg.presets| && AllDefined(view, defs) && BeforeExact(cfg, sent, defs) && cfg.Wants(device)
    requires props == set i | 0 <= i < |cfg.presets| && !cfg.presets[i].before && !sent[i] :: cfg.presets[i].prop
    ensures LeftIn(cfg, sent, view, device, props)
  {
    hide AllDefined, WantedDef;
    forall i | 0 <= i < |sent| && Has(view, device, cfg.presets[i].prop) && !sent[i]
      ensures cfg.presets[i].prop in props
    {
      HasWanted(cfg, view, defs, device, cfg.presets[i].prop);
    }
  }

  lemma LeftAfter(
      cfg: Config, was: seq<bool>, sent: seq<bool>, view: View, device: string, props: set<string>, prop: string)
    requires LeftIn(cfg, was, view, device, props) && Grown(was, sent)
    requires Has(view, device, prop) ==> Taken(cfg, sent, prop)
    ensures LeftIn(cfg, sent, view, device, props - {prop})
  {
  }

  /** The writes from a place on have no polling period among them. */
  predicate Unpolled(acts: seq<Act>, from: nat) {
    forall k :: from <= k < |acts| ==> !acts[k].why.Polled?
  }

  /** The first write from a place on sets a device's polling period, and no later one does. */
  predicate PolledOnce(acts: seq<Act>, from: nat, device: string, period: Num) {
    && from < |acts| && Unpolled(acts, from + 1)
    && acts[from].why == Polled
    && acts[from].msg == NewNumber(device, "POLLING_PERIOD", map["PERIOD_MS" := period])
  }

  /** Of the writes from a place on, exactly one sets a device's polling period. */
  ghost predicate PolledAmong(acts: seq<Act>, from: nat, device: string, period: Num) {
    exists at :: from <= at < |acts| && Unpolled(acts[..at], from) && PolledOnce(acts, at, device, period)
  }

  /** Each of these writes was made while serving. */
  predicate WhileServing(acts: seq<Act>, from: nat) {
    forall k :: from <= k < |acts| ==> acts[k].phase == Serving
  }

  /** The definitions a write of this attempt found are still the first ones. */
  predicate DefsGrow(acts: seq<Act>, began: nat, defs: seq<Element>) {
    forall k :: began <= k < |acts| ==> acts[k].defs <= defs
  }

  /** The wanted devices whose CONNECT is off. */
  ghost function OpenIn(cfg: Config, view: View): set<string> {
    set d | d in view && cfg.Wants(d) && SwitchedOff(view, d)
  }

  /** The writes of each attempt lie between one bound and the next. */
  ghost predicate Bounded(acts: seq<Act>, bounds: seq<nat>, from: nat) {
    && bounds != [] && bounds[0] == from && bounds[|bounds| - 1] == |acts|
    && forall i, j :: 0 <= i < j < |bounds| ==> bounds[i] <= bounds[j]
  }

  /** No preset enters two writes of the k-th attempt. */
  ghost predicate OnceInAttempt(acts: seq<Act>, bounds: seq<nat>, k: nat)
    requires k + 1 < |bounds|
  {
    bounds[k + 1] <= |acts| && OncePerPreset(acts, bounds[k], bounds[k + 1])
  }

  lemma AttemptAdded(cfg: Config, was: seq<Act>, acts: seq<Act>, sent: seq<bool>, bounds: seq<nat>, from: nat)
    requires Bounded(was, bounds, from) && forall k: nat :: k + 1 < |bounds| ==> OnceInAttempt(was, bounds, k)
    requires was <= acts && LogOk(cfg, acts, |was|, sent)
    ensures Bounded(acts, bounds + [|acts|], from)
    ensures forall k: nat :: k + 1 < |bounds + [|acts|]| ==> OnceInAttempt(acts, bounds + [|acts|], k)
  {
    hide LogOk, Disjoint;
    var more := bounds + [|acts|];
    forall k: nat | k + 1 < |more|
      ensures OnceInAttempt(acts, more, k)
    {
      if k + 1 < |bounds| {
        assert OnceInAttempt(was, bounds, k);
        assert forall k :: 0 <= k < |was| ==> acts[k] == was[k];
      } else {
        forall i, j | |was| <= i < j < |acts|
          ensures Disjoint(acts[i], acts[j])
        {
          PresetsOnce(cfg, acts, |was|, sent, i, j);
        }
      }
    }
  }

  // The configuration and the elements of two runs that go wrong

  const RACE := Config("Dome", [Preset("A", "M", "1", true), Preset("B", "M", "1", false)], 0, false,
      (_: string) => None, ZERO)

  function DefB(): Element {
    Blank(KindDef, Text).(device := "Dome", name := "B")
  }

  function DefConnection(): Element {
    Blank(KindDef, Switch).(device := "Dome", name := "CONNECTION", members := [NO_MEMBER.(name := "CONNECT")])
  }

  function SetConnection(): Element {
    Blank(KindSet, Switch).(
      device := "Dome", name := "CONNECTION", state := Ok, members := [NO_MEMBER.(name := "CONNECT", on := true)])
  }

  lemma RaceMarks()
    ensures seq(2, _ => false) == [false, false] && Takeable(RACE, [false, false])
    ensures Marked(RACE.presets, [false, false], "B", false) == [false, false]
    ensures Marked(RACE.presets, [false, false], "CONNECTION", false) == [false, false]
  {
    assert RACE.presets[0].before && !RACE.presets[1].before;
  }

  /** What the first n of these elements show. */
  ghost function RaceView(n: nat): (r: View)
    requires n <= 3
    ensures ViewOk(r)
  {
    if n == 0 then EMPTY
    else
      var el := if n == 1 then DefB() else if n == 2 then DefConnection() else SetConnection();
      FoldKeepsOk(RaceView(n - 1), el, 0);
      Fold(RaceView(n - 1), el, 0)
  }

  lemma RaceViews()
    ensures ViewOk(EMPTY)
    ensures Fold(EMPTY, DefB(), 0) == RaceView(1)
    ensures Fold(RaceView(1), DefConnection(), 0) == RaceView(2)
    ensures Fold(RaceView(2), SetConnection(), 0) == RaceView(3)
    ensures "Dome" in OpenIn(RACE, RaceView(2))
    ensures Has(RaceView(3), "Dome", "B") && RaceView(3)["Dome"]["B"].head.vtype == Text
  {
    var b: View := Put(EMPTY, "Dome", "B", NewVec(DefB(), 0));
    assert RaceView(1) == b;
    assert b["Dome"].Keys == {"B"};
    var c: View := Put(b, "Dome", "CONNECTION", NewVec(DefConnection(), 0));
    assert RaceView(2) == c;
    assert c["Dome"]["CONNECTION"].byName["CONNECT"] == 0;
    assert SwitchedOff(c, "Dome");
  }

  class Supervisor {
    const cfg: Config
    const store: Store
    var phase: Phase
    var reason: string
    var writing: bool
    var presetSent: seq<bool>
    /** Devices that retry ticks have still to ask to connect. */
    var retries: seq<string>
    /** How many tickers have stored their phase and not yet their reason. */
    var owed: nat
    /** What the observer was told. */
    var heard: seq<Element>
    /** What was written to children. */
    var wire: seq<Message>

    ghost var acts: seq<Act>
    ghost var began: nat
    /** Elements applied, and of those the ones whose presets were considered, in this attempt. */
    ghost var applied: seq<Element>
    ghost var defs: seq<Element>

    /** What tickers read and write. */
    ghost function Ticks(): Ticker
      reads this
    {
      Ticker(phase, reason, retries, owed)
    }

    /** What tickers find. */
    ghost function Sees(): Around
      requires |presetSent| == |cfg.presets|
      reads *
    {
      Around(cfg.holdConnect, BeforeDone(cfg.presets, presetSent), OpenIn(cfg, store.cur.View()))
    }

    /** Serving, and no ticker can change that. */
    ghost predicate Calm()
      requires |presetSent| == |cfg.presets|
      reads *
    {
      Undisturbed(Sees(), Ticks())
    }

    /** Tickers have nothing to write, or nowhere. */
    ghost predicate Silent()
      requires |presetSent| == |cfg.presets|
      reads this
    {
      !writing || cfg.holdConnect || !BeforeDone(cfg.presets, presetSent)
    }

    /** The record of writes is the wire's, and grows with the attempt. */
    ghost predicate Recorded()
      reads this
    {
      && |acts| == |wire| && (forall k :: 0 <= k < |acts| ==> acts[k].msg == wire[k])
      && began <= |acts| && DefsGrow(acts, began, defs)
    }

    /** What holds whenever either goroutine may run. */
    ghost predicate Steady()
      reads *
    {
      && store.Valid()
      && |presetSent| == |cfg.presets| && LogOk(cfg, acts, began, presetSent)
      && Recorded()
      && (forall d :: d in retries ==> cfg.Wants(d))
      && AllDefined(store.cur.View(), applied)
    }

    /** What holds between two elements: the observer, folding what it heard, has the
        store's device maps; before-connect marks are exact. */
    ghost predicate Valid()
      reads *
    {
      && Steady()
      && applied == defs
      && BeforeExact(cfg, presetSent, defs)
      && Mirrored()
    }

    ghost predicate Mirrored()
      reads *
    {
      Timeless(store.cur.View()) == FoldAll(EMPTY, heard, _ => 0)
    }

    constructor (cfg: Config, store: Store)
      requires store.Valid() && store.cur.View() == map[]
      ensures Valid() && this.cfg == cfg && this.store == store
      ensures Ticks() == Ticker(PhaseIdle, "not started", [], 0)
      ensures heard == [] && wire == [] && !writing && store.cur.View() == map[]
    {
      this.cfg := cfg;
      this.store := store;
      phase := PhaseIdle;
      reason := "not started";
      writing := false;
      presetSent := seq(|cfg.presets|, _ => false);
      retries, owed, heard, wire := [], 0, [], [];
      acts, began, applied, defs := [], 0, [], [];
      new;
      store.ValidKept();
      NoneTimeless();
    }

    // Steps of either goroutine

    method SetPhase(to: Phase)
      requires Steady()
      modifies this`phase
      ensures Steady() && store.cur.View() == old(store.cur.View())
      ensures phase == to
    {
      hide LogOk, AllDefined, Store.Valid, Snapshot.View;
      phase := to;
      store.ValidKept();
    }

    method SetReason(why: string)
      requires Steady()
      modifies this`reason
      ensures Steady() && store.cur.View() == old(store.cur.View())
      ensures reason == why
    {
      hide LogOk, AllDefined, Store.Valid, Snapshot.View;
      reason := why;
      store.ValidKept();
    }

    /** Hand a message to the writer, if there is one. */
    method RawWrite(msg: Message, ghost why: Why, ghost found: seq<bool>)
      requires store.Valid() && Recorded()
      modifies this`wire, this`acts
      ensures store.Valid() && Recorded() && store.cur.View() == old(store.cur.View())
      ensures acts == old(acts) + if writing then [Act(msg, why, found, phase, store.cur.View(), defs)] else []
      ensures wire == old(wire) + if writing then [msg] else []
    {
      hide Store.Valid, Snapshot.View;
      ghost var view := store.cur.View();
      if writing {
        wire := wire + [msg];
        acts := acts + [Act(msg, why, found, phase, view, defs)];
      }
      store.ValidKept();
    }

    /** Ask a device to connect, unless held; with a before-connect preset outstanding go
        back to acquiring instead, for a reason that is still to be stored. */
    method AskConnect(device: string) returns (fell: bool)
      requires Steady() && cfg.Wants(device)
      modifies this`phase, this`wire, this`acts
      ensures Steady() && store.cur.View() == old(store.cur.View())
      ensures fell == Takeable(cfg, presetSent)
      ensures phase == if fell then Acquiring else old(phase)
      ensures wire == old(wire) + if writing && !cfg.holdConnect && !fell then [ConnectMessage(device)] else []
      ensures old(acts) <= acts && (Silent() ==> acts == old(acts) && wire == old(wire))
      ensures forall k :: |old(acts)| <= k < |acts| ==> acts[k].phase == old(phase)
      ensures Unpolled(acts, |old(acts)|)
    {
      hide AllDefined, LogOk, BeforeDone, Store.Valid, Snapshot.View;
      if cfg.holdConnect {
        return false;
      }
      if !BeforeDone(cfg.presets, presetSent) {
        SetPhase(Acquiring);
        return true;
      }
      ghost var a := Act(ConnectMessage(device), Connecting, presetSent, phase, store.cur.View(), defs);
      RawWrite(ConnectMessage(device), Connecting, presetSent);
      LogGrows(cfg, old(acts), began, presetSent, presetSent, a);
      assert old(acts) + [] == old(acts);
      return false;
    }

    // Steps of a ticker

    /** A tick: while acquiring, every wanted device whose CONNECT is off is to be asked
        again. */
    method Tick()
      requires Steady()
      modifies this`retries
      ensures Steady() && store.cur.View() == old(store.cur.View())
      ensures if phase == Acquiring
              then exists asked ::
                     Enabled(Sees(), old(Ticks()), Ask(asked)) && Ticks() == Take(Sees(), old(Ticks()), Ask(asked))
              else retries == old(retries)
    {
      hide LogOk, AllDefined, Store.Valid, Snapshot.View, SwitchedOff, BeforeDone;
      KnownDevices(store.cur);
      if phase != Acquiring {
        return;
      }
      var snap := store.cur;
      var names := snap.Devices();
      store.ValidKept();
      var off: seq<string> := [];
      for k := 0 to |names|
        invariant store.Valid() && store.cur == snap && snap.View() == old(store.cur.View()) && retries == old(retries)
        invariant forall d :: d in off <==> d in names[..k] && cfg.Wants(d) && SwitchedOff(snap.View(), d)
      {
        assert names[..k + 1] == names[..k] + [names[k]];
        var idle := ConnectOff(names[k]);
        if cfg.Wants(names[k]) && idle {
          off := off + [names[k]];
        }
      }
      assert names[..|names|] == names;
      retries := retries + off;
      store.ValidKept();
      assert Listed(off) == OpenIn(cfg, store.cur.View());
      assert Enabled(Sees(), old(Ticks()), Ask(off));
    }

    /** Whether a device has a CONNECT switch and it is off. */
    method ConnectOff(device: string) returns (off: bool)
      requires store.Valid()
      ensures store.Valid() && store.cur.View() == old(store.cur.View())
      ensures off <==> SwitchedOff(store.cur.View(), device)
      ensures var view := store.cur.View();
              off <==>
              && device in view && "CONNECTION" in view[device]
              && var v := view[device]["CONNECTION"];
                 "CONNECT" in v.byName && v.byName["CONNECT"] < |v.members|
                 && !v.members[v.byName["CONNECT"]].member.on
    {
      hide Snapshot.View, ViewOk, VecOk, Indexed, Increasing;
      HasView(store.cur, device, "CONNECTION");
      var have := VectorsOf(store.cur, device);
      if "CONNECTION" !in have {
        return false;
      }
      ghost var view := store.cur.View();
      HasOk(view, device, "CONNECTION");
      VecIndexed(device, "CONNECTION", view[device]["CONNECTION"]);
      var m := have["CONNECTION"].Member("CONNECT");
      store.ValidKept();
      return m.Some? && !m.value.member.on;
    }

    /** One of the asked-for retries, from this attempt's ticker or a stale one. */
    method Retry(k: nat)
      requires Steady() && k < |retries|
      modifies this`phase, this`retries, this`owed, this`wire, this`acts
      ensures Steady() && store.cur.View() == old(store.cur.View())
      ensures Ticks() == Take(Sees(), old(Ticks()), Turn.Retry(k))
      ensures var ready := forall i :: 0 <= i < |cfg.presets| && cfg.presets[i].before ==> presetSent[i];
              var ask := NewSwitch(old(retries[k]), "CONNECTION", ["CONNECT"], []);
              wire == old(wire) + if writing && !cfg.holdConnect && ready then [ask] else []
      ensures old(acts) <= acts && (Silent() ==> acts == old(acts) && wire == old(wire))
      ensures forall k :: |old(acts)| <= k < |acts| ==> acts[k].phase == old(phase)
      ensures Unpolled(acts, |old(acts)|)
    {
      hide LogOk, AllDefined, Store.Valid, Snapshot.View;
      var d := retries[k];
      retries := retries[..k] + retries[k + 1..];
      store.ValidKept();
      var fell := AskConnect(d);
      if fell {
        owed := owed + 1;
        store.ValidKept();
      }
    }

    method Explain()
      requires Steady() && owed > 0
      modifies this`reason, this`owed
      ensures Steady() && store.cur.View() == old(store.cur.View())
      ensures Ticks() == Take(Sees(), old(Ticks()), Turn.Explain)
    {
      hide LogOk, AllDefined, BeforeDone, Store.Valid, Snapshot.View;
      reason, owed := WAITING, owed - 1;
      store.ValidKept();
    }

    /** Whatever tickers do before the read loop goes on. */
    method Yield()
      requires Steady()
      modifies this`phase, this`reason, this`retries, this`owed, this`wire, this`acts
      ensures Steady() && store.cur.View() == old(store.cur.View())
      ensures Leads(Sees(), old(Ticks()), Ticks())
      ensures old(wire) <= wire && old(acts) <= acts && (Silent() ==> acts == old(acts) && wire == old(wire))
      ensures phase == old(phase) || (phase == Acquiring && Takeable(cfg, presetSent))
      ensures reason == old(reason) || reason == WAITING
      ensures old(Calm()) ==> Calm() && WhileServing(acts, |old(acts)|)
      ensures Unpolled(acts, |old(acts)|)
    {
      hide LogOk, AllDefined, BeforeDone, Store.Valid, Snapshot.View, Leads, Take, Enabled, OpenIn, Recorded;
      ghost var around, ticks := Sees(), Ticks();
      LeadsNowhere(around, ticks);
      var turns: nat :| 0 <= turns;
      for t := 0 to turns
        invariant Steady() && store.cur.View() == old(store.cur.View())
        invariant Sees() == around && Leads(around, ticks, Ticks())
        invariant old(wire) <= wire && old(acts) <= acts && (Silent() ==> acts == old(acts) && wire == old(wire))
        invariant Undisturbed(around, ticks) ==> WhileServing(acts, |old(acts)|)
        invariant Unpolled(acts, |old(acts)|)
      {
        OneTurn(ticks);
      }
      LeadsKeeps(around, ticks, Ticks());
      if Undisturbed(around, ticks) {
        LeadsUndisturbed(around, ticks, Ticks());
      }
    }

    method OneTurn(ghost ticks: Ticker)
      requires Steady() && Leads(Sees(), ticks, Ticks())
      modifies this`phase, this`reason, this`retries, this`owed, this`wire, this`acts
      ensures Steady() && store.cur.View() == old(store.cur.View())
      ensures Sees() == old(Sees()) && Leads(Sees(), ticks, Ticks())
      ensures old(wire) <= wire && old(acts) <= acts && (Silent() ==> acts == old(acts) && wire == old(wire))
      ensures old(Undisturbed(Sees(), ticks)) ==> forall k :: |old(acts)| <= k < |acts| ==> acts[k].phase == Serving
      ensures Unpolled(acts, |old(acts)|)
    {
      hide LogOk, AllDefined, BeforeDone, Store.Valid, Snapshot.View, Leads, Take, OpenIn, Recorded;
      ghost var around, t := Sees(), Ticks();
      if Undisturbed(around, ticks) {
        LeadsUndisturbed(around, ticks, t);
      }
      var k: nat :| 0 <= k;
      if k < |retries| {
        Retry(k);
        LeadsFurther(around, ticks, t, Turn.Retry(k));
      } else if k == |retries| && owed > 0 {
        Explain();
        LeadsFurther(around, ticks, t, Turn.Explain);
      } else {
        Tick();
        if phase == Acquiring {
          ghost var asked :| Enabled(around, t, Ask(asked)) && Ticks() == Take(around, t, Ask(asked));
          LeadsFurther(around, ticks, t, Ask(asked));
        }
      }
    }

    /** Store a phase and then its reason. Tickers may run in between. */
    method Transition(to: Phase, why: string)
      requires Steady()
      modifies this`phase, this`reason, this`retries, this`owed, this`wire, this`acts
      ensures Steady() && store.cur.View() == old(store.cur.View())
      ensures Moved(Sees(), old(Ticks()), to, why, Ticks())
      ensures old(wire) <= wire && old(acts) <= acts && (Silent() ==> acts == old(acts) && wire == old(wire))
      ensures phase == to || (phase == Acquiring && Takeable(cfg, presetSent))
      ensures reason == ReasonFor(to, why)
      ensures to == Serving && Undisturbed(Sees(), old(Ticks()).(phase := to)) ==>
              Calm() && WhileServing(acts, |old(acts)|)
      ensures Unpolled(acts, |old(acts)|)
    {
      hide LogOk, AllDefined, BeforeDone, Store.Valid, Snapshot.View, Leads, OpenIn, Recorded;
      ghost var ticks := Ticks();
      SetPhase(to);
      assert Ticks() == ticks.(phase := to);
      label stored:
      Yield();
      ghost var between := Ticks();
      SetReason(ReasonFor(to, why));
      assert Ticks() == between.(reason := ReasonFor(to, why));
    }

    /** Ask a device to connect from the read loop. */
    method SendConnect(device: string)
      requires Steady() && cfg.Wants(device)
      modifies this`phase, this`reason, this`retries, this`owed, this`wire, this`acts
      ensures Steady() && store.cur.View() == old(store.cur.View())
      ensures old(wire) <= wire && old(acts) <= acts
      ensures var ready := forall i :: 0 <= i < |cfg.presets| && cfg.presets[i].before ==> presetSent[i];
              var ask := NewSwitch(device, "CONNECTION", ["CONNECT"], []);
              && wire == old(wire) + (if writing && !cfg.holdConnect && ready then [ask] else [])
              && (phase == if !cfg.holdConnect && !ready then Acquiring else old(phase))
              && (!cfg.holdConnect && !ready ==> reason == "waiting to apply before-connect presets")
    {
      hide LogOk, AllDefined, Store.Valid, Snapshot.View, OpenIn, Recorded;
      var fell := AskConnect(device);
      if fell {
        Yield();
        SetReason(WAITING);
      }
    }

    // Presets

    /** Mark every due preset of a property and take them there in one write. Marks and
        write are one step, as far as a ticker can tell. */
    method ApplyPresetsFor(
        device: string, prop: string, vt: VType, current: map<string, Num>, serving: bool, ghost shown: Shown)
      requires Steady() && cfg.Wants(device)
      requires serving ==> phase == Serving || Takeable(cfg, presetSent)
      requires Known(shown, store.cur.View(), defs, device, prop)
      requires vt == TypeAt(shown, store.cur.View(), defs, device, prop)
      requires current == Values(MembersAt(shown, store.cur.View(), defs, device, prop))
      modifies this`presetSent, this`wire, this`acts
      ensures Steady() && store.cur.View() == old(store.cur.View())
      ensures presetSent == Marked(cfg.presets, old(presetSent), prop, serving)
      ensures old(wire) <= wire && old(acts) <= acts
      ensures var due := Due(cfg.presets, old(presetSent), prop, serving, |old(presetSent)|);
              var msg := PresetMessage(cfg, device, prop, vt, current, due);
              acts == old(acts)
                + if writing && due != [] && msg.Some?
                  then [Act(msg.value, Presetting(due, shown), old(presetSent), phase, store.cur.View(), defs)] else []
    {
      hide LogOk, AllDefined, BeforeDone, Store.Valid, Snapshot.View, Known, TypeAt, MembersAt, Due, Marked, Values;
      hide PresetMessage, DefsGrow;
      ghost var was, log := presetSent, acts;
      DueTaken(cfg, acts, began, presetSent, device, prop, shown, store.cur.View(), defs, serving, phase);
      var todo := MarkDue(prop, serving);
      assert log + [] == log;
      if todo == [] {
        return;
      }
      var msg := Compose(device, prop, vt, current, todo);
      if msg.Some? {
        RawWrite(msg.value, Presetting(todo, shown), was);
      }
      store.ValidKept();
    }

    method MarkDue(prop: string, serving: bool) returns (todo: seq<nat>)
      requires store.Valid() && |presetSent| == |cfg.presets|
      modifies this`presetSent
      ensures store.Valid() && store.cur.View() == old(store.cur.View())
      ensures presetSent == Marked(cfg.presets, old(presetSent), prop, serving)
      ensures todo == Due(cfg.presets, old(presetSent), prop, serving, |old(presetSent)|)
    {
      hide Store.Valid, Snapshot.View;
      ghost var was := presetSent;
      var sent := presetSent;
      todo := [];
      for i := 0 to |cfg.presets|
        invariant |sent| == |was|
        invariant todo == Due(cfg.presets, was, prop, serving, i)
        invariant forall k :: 0 <= k < |sent| ==> sent[k] == if k < i then Marked(cfg.presets, was, prop, serving)[k]
                  else was[k]
      {
        var p := cfg.presets[i];
        if !(p.prop != prop || sent[i] || (!p.before && !serving)) {
          sent := sent[i := true];
          todo := todo + [i];
        }
      }
      presetSent := sent;
      store.ValidKept();
    }

    /** The message for a vector's type. */
    method Compose(
        device: string, prop: string, vt: VType, current: map<string, Num>, todo: seq<nat>)
      returns (msg: Option<Message>)
      requires Targets(cfg.presets, todo)
      ensures msg == PresetMessage(cfg, device, prop, vt, current, todo)
    {
      match vt {
        case Switch =>
          var on, off := [], [];
          for k := 0 to |todo|
            invariant on == Switched(cfg.presets, todo[..k], false) && off == Switched(cfg.presets, todo[..k], true)
          {
            assert todo[..k + 1][..k] == todo[..k];
            var p := cfg.presets[todo[k]];
            if IsOff(p.value) {
              off := off + [p.member];
            } else {
              on := on + [p.member];
            }
          }
          assert todo[..|todo|] == todo;
          msg := Some(NewSwitch(device, prop, on, off));
        case Number =>
          var numbers := current;
          for k := 0 to |todo|
            invariant numbers == Numbers(cfg, current, todo[..k])
          {
            assert todo[..k + 1][..k] == todo[..k];
            var v := cfg.parse(cfg.presets[todo[k]].value);
            if v.Some? {
              numbers := numbers[cfg.presets[todo[k]].member := v.value];
            }
          }
          assert todo[..|todo|] == todo;
          msg := Some(NewNumber(device, prop, numbers));
        case Text =>
          var texts := map[];
          for k := 0 to |todo|
            invariant texts == Texts(cfg.presets, todo[..k])
          {
            assert todo[..k + 1][..k] == todo[..k];
            texts := texts[cfg.presets[todo[k]].member := cfg.presets[todo[k]].value];
          }
          assert todo[..|todo|] == todo;
          msg := Some(NewText(device, prop, texts));
        case _ =>
          msg := None;
      }
    }

    /** A definition of a wanted device triggers the presets of its property: one write,
        made from the definition itself, carries what is due. */
    method ApplyPresetDefs(el: Element)
      requires Steady() && applied == defs + [el] && BeforeExact(cfg, presetSent, defs)
      modifies this`phase, this`reason, this`retries, this`owed, this`wire, this`acts, this`presetSent, this`defs
      ensures Steady() && store.cur.View() == old(store.cur.View())
      ensures applied == defs && BeforeExact(cfg, presetSent, defs)
      ensures old(wire) <= wire && old(acts) <= acts && Grown(old(presetSent), presetSent)
      ensures phase == old(phase) || (phase == Acquiring && old(Takeable(cfg, presetSent)))
      ensures if el.kind == KindDef && cfg.Wants(el.device)
              then presetSent == Marked(cfg.presets, old(presetSent), el.name, old(phase) == Serving)
              else presetSent == old(presetSent) && old(Ticks()) == Ticks() && acts == old(acts)
      ensures el.kind == KindDef && cfg.Wants(el.device) && old(phase) == Serving ==> Taken(cfg, presetSent, el.name)
      ensures el.kind == KindDef && cfg.Wants(el.device) && writing ==>
                var due := Due(cfg.presets, old(presetSent), el.name, old(phase) == Serving, |old(presetSent)|);
                var msg := PresetMessage(cfg, el.device, el.name, el.vtype, Values(el.members), due);
                due != [] && msg.Some? ==>
                  && |acts| > |old(acts)|
                  && acts[|acts| - 1]
                  == Act(msg.value, Presetting(due, Defined), old(presetSent), phase, store.cur.View(), defs)
    {
      hide LogOk, AllDefined, BeforeDone, BeforeExact, Store.Valid, Snapshot.View, Marked, Leads, OpenIn, PresetMessage;
      DefConsidered(cfg, presetSent, defs, el, phase == Serving);
      MarkedGrows(cfg.presets, presetSent, el.name, phase == Serving);
      defs := defs + [el];
      store.ValidKept();
      if el.kind != KindDef || |cfg.presets| == 0 || !cfg.Wants(el.device) {
        NonePreset(cfg.presets, presetSent, el.name, phase == Serving);
        return;
      }
      MarkedTakes(cfg, presetSent, el.name);
      ApplyDefined(el);
    }

    /** The definition just considered has its presets taken. */
    method ApplyDefined(el: Element)
      requires Steady() && defs != [] && defs[|defs| - 1] == el && el.kind == KindDef && cfg.Wants(el.device)
      modifies this`phase, this`reason, this`retries, this`owed, this`wire, this`acts, this`presetSent
      ensures Steady() && store.cur.View() == old(store.cur.View())
      ensures old(wire) <= wire && old(acts) <= acts
      ensures phase == old(phase) || (phase == Acquiring && old(Takeable(cfg, presetSent)))
      ensures presetSent == Marked(cfg.presets, old(presetSent), el.name, old(phase) == Serving)
      ensures var due := Due(cfg.presets, old(presetSent), el.name, old(phase) == Serving, |old(presetSent)|);
              var msg := PresetMessage(cfg, el.device, el.name, el.vtype, Values(el.members), due);
              writing && due != [] && msg.Some? ==>
                && |acts| > |old(acts)|
                && acts[|acts| - 1]
                == Act(msg.value, Presetting(due, Defined), old(presetSent), phase, store.cur.View(), defs)
    {
      hide LogOk, AllDefined, BeforeDone, Store.Valid, Snapshot.View, Marked, Leads, OpenIn, PresetMessage, Due, Values;
      var current := ReadValues(el.members);
      store.ValidKept();
      var serving := phase == Serving;
      Yield();
      ApplyPresetsFor(el.device, el.name, el.vtype, current, serving, Defined);
    }

    static lemma NonePreset(presets: seq<Preset>, sent: seq<bool>, prop: string, serving: bool)
      requires |presets| == |sent|
      ensures presets == [] ==>
              Marked(presets, sent, prop, serving) == sent && Due(presets, sent, prop, serving, |sent|) == []
    {
    }

    static method ReadValues(ms: seq<Member>) returns (r: map<string, Num>)
      ensures r == Values(ms)
    {
      r := map[];
      for k := 0 to |ms|
        invariant r == Values(ms[..k])
      {
        assert ms[..k + 1][..k] == ms[..k];
        r := r[ms[k].name := ms[k].value];
      }
      assert ms[..|ms|] == ms;
    }

    /** A property's type and current values, if the snapshot has it. */
    method Look(device: string, prop: string) returns (found: Option<(VType, map<string, Num>)>)
      requires store.Valid()
      ensures store.Valid() && store.cur.View() == old(store.cur.View())
      ensures found.Some? <==> Has(store.cur.View(), device, prop)
      ensures found.Some? ==> found.value.1 == Values(MembersOf(store.cur.View()[device][prop].members))
      ensures found.Some? ==> found.value.0 == store.cur.View()[device][prop].head.vtype
    {
      hide Snapshot.View, ViewOk, Increasing;
      HasView(store.cur, device, prop);
      var have := VectorsOf(store.cur, device);
      if prop !in have {
        return None;
      }
      var v := have[prop];
      var current := ReadValues(MembersOf(v.members[..]));
      store.ValidKept();
      return Some((v.head.vtype, current));
    }

    /** Apply the after-connect presets whose definitions came before serving: then every
        preset has been taken whose property the device shows. */
    method SweepPresets(device: string)
      requires Steady() && cfg.Wants(device) && applied == defs && BeforeExact(cfg, presetSent, defs)
      requires phase == Serving || Takeable(cfg, presetSent)
      modifies this`phase, this`reason, this`retries, this`owed, this`wire, this`acts, this`presetSent
      ensures Steady() && store.cur.View() == old(store.cur.View()) && BeforeExact(cfg, presetSent, defs)
      ensures phase == old(phase) || (phase == Acquiring && Takeable(cfg, presetSent))
      ensures old(wire) <= wire && old(acts) <= acts && Grown(old(presetSent), presetSent)
      ensures Sees() == old(Sees()) && reason in {old(reason), WAITING}
      ensures old(Calm()) ==> Calm() && WhileServing(acts, |old(acts)|)
      ensures AllTaken(cfg, presetSent, store.cur.View(), device)
      ensures Unpolled(acts, |old(acts)|)
    {
      hide LogOk, AllDefined, BeforeDone, BeforeExact, Store.Valid, Snapshot.View, WantedDef, DefinedBy, Marked, Has;
      hide OpenIn, Recorded, Undisturbed, WhileServing, Unpolled;
      ghost var around := Sees();
      var props := set i | 0 <= i < |cfg.presets| && !cfg.presets[i].before && !presetSent[i] :: cfg.presets[i].prop;
      LeftAtFirst(cfg, presetSent, store.cur.View(), defs, device, props);
      hide LeftIn, Taken, Grown;
      GrownTrans(presetSent, presetSent, presetSent);
      NoneSince(acts);
      while props != {}
        invariant Steady() && store.cur.View() == old(store.cur.View())
        invariant applied == defs == old(defs) && BeforeExact(cfg, presetSent, defs)
        invariant Sees() == around && reason in {old(reason), WAITING}
        invariant phase == old(phase) || (phase == Acquiring && Takeable(cfg, presetSent))
        invariant old(wire) <= wire && old(acts) <= acts && Grown(old(presetSent), presetSent)
        invariant old(Calm()) ==> Calm() && WhileServing(acts, |old(acts)|)
        invariant Unpolled(acts, |old(acts)|)
        invariant LeftIn(cfg, presetSent, store.cur.View(), device, props)
        decreases |props|
      {
        var prop :| prop in props;
        ghost var was, log := presetSent, acts;
        Sweep(device, prop);
        LeftAfter(cfg, was, presetSent, store.cur.View(), device, props, prop);
        GrownTrans(old(presetSent), was, presetSent);
        SinceThen(acts, |old(acts)|, |log|, log);
        props := props - {prop};
      }
      NothingLeft(cfg, presetSent, store.cur.View(), device);
    }

    static lemma GrownTrans(a: seq<bool>, b: seq<bool>, c: seq<bool>)
      ensures Grown(a, a)
      ensures Grown(a, b) && Grown(b, c) ==> Grown(a, c)
    {
    }

    static lemma NoneSince(acts: seq<Act>)
      ensures WhileServing(acts, |acts|) && Unpolled(acts, |acts|)
    {
    }

    static lemma SinceThen(acts: seq<Act>, from: nat, mid: nat, before: seq<Act>)
      requires before <= acts && |before| == mid
      ensures WhileServing(before, from) && WhileServing(acts, mid) ==> WhileServing(acts, from)
      ensures Unpolled(before, from) && Unpolled(acts, mid) ==> Unpolled(acts, from)
    {
    }

    static lemma NothingLeft(cfg: Config, sent: seq<bool>, view: View, device: string)
      requires LeftIn(cfg, sent, view, device, {})
      ensures AllTaken(cfg, sent, view, device)
    {
    }

    /** One property of the sweep: if the snapshot has it, one write, made from the
        snapshot, carries what is due. */
    method Sweep(device: string, prop: string)
      requires Steady() && cfg.Wants(device) && applied == defs && BeforeExact(cfg, presetSent, defs)
      requires phase == Serving || Takeable(cfg, presetSent)
      modifies this`phase, this`reason, this`retries, this`owed, this`wire, this`acts, this`presetSent
      ensures Steady() && store.cur.View() == old(store.cur.View()) && BeforeExact(cfg, presetSent, defs)
      ensures phase == old(phase) || (phase == Acquiring && Takeable(cfg, presetSent))
      ensures old(wire) <= wire && old(acts) <= acts && Grown(old(presetSent), presetSent)
      ensures Sees() == old(Sees()) && reason in {old(reason), WAITING}
      ensures old(Calm()) ==> Calm() && WhileServing(acts, |old(acts)|)
      ensures Unpolled(acts, |old(acts)|)
      ensures Has(store.cur.View(), device, prop) ==> Taken(cfg, presetSent, prop)
      ensures Has(store.cur.View(), device, prop) && writing ==>
                var v := store.cur.View()[device][prop];
                var due := Due(cfg.presets, old(presetSent), prop, true, |old(presetSent)|);
                var msg := PresetMessage(cfg, device, prop, v.head.vtype, Values(MembersOf(v.members)), due);
                due != [] && msg.Some? ==>
                  && |acts| > |old(acts)|
                  && acts[|acts| - 1]
                  == Act(msg.value, Presetting(due, Snapped), old(presetSent), phase, store.cur.View(), defs)
    {
      hide LogOk, AllDefined, BeforeDone, BeforeExact, Store.Valid, Snapshot.View, WantedDef, DefinedBy, Marked, Has;
      hide Taken, Grown, OpenIn, Recorded, Leads, PresetMessage;
      Yield();
      var found := Look(device, prop);
      GrownTrans(presetSent, presetSent, presetSent);
      if found.Some? {
        SweepSpares(cfg, store.cur.View(), defs, presetSent, device, prop);
        MarkedGrows(cfg.presets, presetSent, prop, true);
        MarkedTakes(cfg, presetSent, prop);
        ApplyPresetsFor(device, prop, found.value.0, found.value.1, true, Snapped);
      }
    }

    /** Settings of the host's own, re-applied whenever serving begins: the polling period
        is written first and once, if one is configured, and then the presets. */
    method OnServing(device: string)
      requires Steady() && cfg.Wants(device) && applied == defs && BeforeExact(cfg, presetSent, defs)
      requires phase == Serving || Takeable(cfg, presetSent)
      modifies this`phase, this`reason, this`retries, this`owed, this`wire, this`acts, this`presetSent
      ensures Steady() && store.cur.View() == old(store.cur.View()) && BeforeExact(cfg, presetSent, defs)
      ensures phase == old(phase) || (phase == Acquiring && Takeable(cfg, presetSent))
      ensures old(wire) <= wire && old(acts) <= acts && Grown(old(presetSent), presetSent)
      ensures Sees() == old(Sees()) && reason in {old(reason), WAITING}
      ensures old(Calm()) ==> Calm() && WhileServing(acts, |old(acts)|)
      ensures AllTaken(cfg, presetSent, store.cur.View(), device)
      ensures if cfg.pollingPeriodMs > 0 && writing then PolledOnce(acts, |old(acts)|, device, cfg.pollingValue)
              else Unpolled(acts, |old(acts)|)
    {
      hide LogOk, AllDefined, BeforeDone, BeforeExact, Store.Valid, Snapshot.View, AllTaken, Grown, OpenIn, Recorded;
      if cfg.pollingPeriodMs > 0 {
        Say(NewNumber(device, "POLLING_PERIOD", map["PERIOD_MS" := cfg.pollingValue]), Polled);
      }
      ghost var log := acts;
      SweepPresets(device);
      SinceThen(acts, |old(acts)|, |log|, log);
    }

    /** A write that neither connects nor presets. */
    method Say(msg: Message, ghost why: Why)
      requires Steady() && !why.Connecting? && !why.Presetting?
      modifies this`wire, this`acts
      ensures Steady() && store.cur.View() == old(store.cur.View())
      ensures wire == old(wire) + (if writing then [msg] else [])
      ensures acts
           == old(acts) + if writing then [Act(msg, why, presetSent, phase, store.cur.View(), defs)] else []
    {
      hide LogOk, AllDefined, Store.Valid, Snapshot.View;
      ghost var a := Act(msg, why, presetSent, phase, store.cur.View(), defs);
      LogGrows(cfg, acts, began, presetSent, presetSent, a);
      assert acts + [] == acts;
      RawWrite(msg, why, presetSent);
    }

    /** The phase follows CONNECTION: on and settled serves, an alert or an off goes back
        to acquiring. Serving that no ticker can take back lasts through what it sets off,
        and every write of that is made while serving. */
    method EvalConnection(el: Element)
      requires Steady() && cfg.Wants(el.device) && applied == defs && BeforeExact(cfg, presetSent, defs)
      modifies this`phase, this`reason, this`retries, this`owed, this`wire, this`acts, this`presetSent
      ensures Steady() && store.cur.View() == old(store.cur.View()) && BeforeExact(cfg, presetSent, defs)
      ensures var on := exists m :: m in el.members && m.name == "CONNECT" && m.on;
              var settled := on && (el.state == Ok || el.state == Idle);
              && (settled ==> phase == Serving || (phase == Acquiring && Takeable(cfg, presetSent)))
              && (settled && old(Undisturbed(Sees(), Ticks().(phase := Serving))) ==>
                    phase == Serving && WhileServing(acts, |old(acts)|))
              && (settled && old(phase) != Serving ==> AllTaken(cfg, presetSent, store.cur.View(), el.device))
              && (if settled && old(phase) != Serving && cfg.pollingPeriodMs > 0 && writing
                  then PolledAmong(acts, |old(acts)|, el.device, cfg.pollingValue)
                  else Unpolled(acts, |old(acts)|))
              && (phase == Serving ==> on && (old(phase) == Serving || settled))
              && (el.state == Alert ==>
                    && phase == Acquiring
                    && reason == "connect refused: " + if el.message == "" then "CONNECTION Alert" else el.message)
              && (!on && el.state != Alert && old(phase) == Serving ==>
                    phase == Acquiring && reason == "device disconnected")
              && (!settled && el.state != Alert && (on || old(phase) != Serving) ==> old(Ticks()) == Ticks())
      ensures old(wire) <= wire && old(acts) <= acts && Grown(old(presetSent), presetSent)
      ensures Sees() == old(Sees())
    {
      hide LogOk, AllDefined, BeforeDone, BeforeExact, Store.Valid, Snapshot.View, AllTaken, OpenIn, Recorded, Moved;
      var on := FindOn(el.members);
      store.ValidKept();
      NoneSince(acts);
      if on && (el.state == Ok || el.state == Idle) {
        if phase != Serving {
          Transition(Serving, "");
          ghost var log := acts;
          OnServing(el.device);
          SinceThen(acts, |old(acts)|, |log|, log);
          if cfg.pollingPeriodMs > 0 && writing {
            assert acts[..|log|] == log;
          }
        }
      } else if el.state == Alert {
        Transition(Acquiring, "connect refused: " + if el.message == "" then "CONNECTION Alert" else el.message);
      } else if !on && phase == Serving {
        Transition(Acquiring, "device disconnected");
      }
    }

    static method FindOn(ms: seq<Member>) returns (on: bool)
      ensures on <==> exists m :: m in ms && m.name == "CONNECT" && m.on
    {
      on := false;
      for k := 0 to |ms|
        invariant on <==> exists m :: m in ms[..k] && m.name == "CONNECT" && m.on
      {
        assert ms[..k + 1] == ms[..k] + [ms[k]];
        if ms[k].name == "CONNECT" && ms[k].on {
          on := true;
        }
      }
      assert ms[..|ms|] == ms;
    }

    // The read loop

    /** Tell the observer. */
    method Observe(el: Element)
      requires Steady()
      modifies this`heard
      ensures Steady() && store.cur.View() == old(store.cur.View())
      ensures heard == old(heard) + [el]
    {
      hide LogOk, AllDefined, Store.Valid, Snapshot.View;
      heard := heard + [el];
      store.ValidKept();
    }

    /** Fold an element the observer has been told about into the store. */
    method FoldIn(el: Element, at: int)
      requires Steady() && |heard| > 0 && heard[|heard| - 1] == el
      requires Timeless(store.cur.View()) == FoldAll(EMPTY, heard[..|heard| - 1], _ => 0)
      modifies this`applied, store
      ensures Steady() && Mirrored()
      ensures store.cur.View() == Fold(old(store.cur.View()), el, at)
      ensures applied == old(applied) + [el]
    {
      hide LogOk, AllDefined, Store.Valid, Snapshot.View, Timeless, FoldAll, ViewOk, Fold, Changes;
      ghost var view := store.cur.View();
      ViewValid();
      FoldTimeless(view, el, at);
      FoldDefined(view, applied, el, at);
      HeardUnfolds(heard, _ => 0);
      applied := applied + [el];
      store.ValidKept();
      var changed := store.Apply(el, at);
    }

    lemma ViewValid()
      requires store.Valid()
      ensures ViewOk(store.cur.View())
    {
    }

    /** One element: pings are answered and go no further; anything else is shown to the
        observer, folded, and considered for presets and connection. */
    method Apply(el: Element, at: int)
      requires Valid()
      modifies this`phase, this`reason, this`retries, this`owed, this`wire, this`acts, this`presetSent
      modifies this`heard, this`applied, this`defs, store
      ensures Valid()
      ensures heard == old(heard) + Told([Input(el, at)]) && defs == old(defs) + Told([Input(el, at)])
      ensures heard == old(heard) + if el.kind == KindPing then [] else [el]
      ensures store.cur.View() == if el.kind == KindPing then old(store.cur.View())
              else Fold(old(store.cur.View()), el, at)
      ensures el.kind == KindPing ==> wire == old(wire) + if writing then [PingReply(el.name)] else []
      ensures old(wire) <= wire && old(acts) <= acts
      ensures AsksConnect(el) && BeforeDone(cfg.presets, presetSent) ==> Connected(old(wire), wire, el.device)
    {
      hide LogOk, AllDefined, BeforeDone, BeforeExact, Store.Valid, Snapshot.View, Timeless, FoldAll, Fold;
      hide Leads, OpenIn;
      ViewValid();
      ToldOne(Input(el, at));
      if el.kind == KindPing {
        Say(PingReply(el.name), Answered);
        return;
      }
      Observe(el);
      Yield();
      FoldIn(el, at);
      Consider(el);
    }

    /** What an element just folded sets off: presets, CONNECT, a change of phase. */
    method Consider(el: Element)
      requires Steady() && applied == defs + [el] && BeforeExact(cfg, presetSent, defs)
      modifies this`phase, this`reason, this`retries, this`owed, this`wire, this`acts, this`presetSent, this`defs
      ensures Steady() && store.cur.View() == old(store.cur.View())
      ensures applied == defs && BeforeExact(cfg, presetSent, defs)
      ensures old(wire) <= wire && old(acts) <= acts && Grown(old(presetSent), presetSent)
      ensures AsksConnect(el) && BeforeDone(cfg.presets, presetSent) ==> Connected(old(wire), wire, el.device)
    {
      hide LogOk, AllDefined, BeforeDone, BeforeExact, Store.Valid, Snapshot.View;
      hide Connected, Taken, AllTaken, Grown, Leads, OpenIn, Recorded, WhileServing, Calm, Ticks, Due, PresetMessage,
          Marked;
      Yield();
      GrownTrans(presetSent, presetSent, presetSent);
      ApplyPresetDefs(el);
      AskDefined(el, old(wire));
      ghost var sent, asked := presetSent, wire;
      Yield();
      if el.name == "CONNECTION" && cfg.Wants(el.device) {
        EvalConnection(el);
      }
      GrownTrans(old(presetSent), sent, presetSent);
      GrownTrans(sent, sent, sent);
      if AsksConnect(el) && BeforeDone(cfg.presets, presetSent) {
        ConnectedLater(old(wire), asked, wire, el.device);
      }
    }

    /** The definition of CONNECTION has the device asked to connect. */
    method AskDefined(el: Element, ghost before: seq<Message>)
      requires Steady() && before <= wire
      modifies this`phase, this`reason, this`retries, this`owed, this`wire, this`acts
      ensures Steady() && store.cur.View() == old(store.cur.View())
      ensures old(wire) <= wire && old(acts) <= acts
      ensures AsksConnect(el) && BeforeDone(cfg.presets, presetSent) ==> Connected(before, wire, el.device)
    {
      hide LogOk, AllDefined, Store.Valid, Snapshot.View, Connected, Leads, OpenIn, Recorded, Calm;
      Yield();
      ghost var asked := wire;
      if el.kind == KindDef && el.name == "CONNECTION" && cfg.Wants(el.device) {
        SendConnect(el.device);
        if AsksConnect(el) && BeforeDone(cfg.presets, presetSent) {
          SaysConnect(before, asked, wire, el.device);
        }
      }
    }

    /** A definition that has CONNECT written, once the before-connect presets are done. */
    ghost predicate AsksConnect(el: Element)
      reads this
    {
      el.kind == KindDef && el.name == "CONNECTION" && cfg.Wants(el.device) && !cfg.holdConnect && writing
    }

    static lemma SaysConnect(before: seq<Message>, asked: seq<Message>, after: seq<Message>, device: string)
      requires before <= asked && after == asked + [ConnectMessage(device)]
      ensures Connected(before, after, device)
    {
      assert after[|before|..][|asked| - |before|] == ConnectMessage(device);
    }

    // The end of an attempt

    /** Invalidate the snapshot; these are the devices it served. */
    method Drop() returns (gone: seq<string>)
      requires Steady()
      modifies store
      ensures Steady() && store.cur.View() == map[] && NamesAll(gone, old(store.cur.View()))
    {
      hide LogOk, Snapshot.View, ViewOk;
      KnownDevices(store.cur);
      gone := store.cur.Devices();
      store.ValidKept();
      store.Invalidate();
    }

    /** A device-wide deletion for each device, so that clients drop what is stale. */
    method AnnounceGone(gone: seq<string>)
      requires Steady() && store.cur.View() == map[]
      requires NamesAll(gone, FoldAll(EMPTY, heard, _ => 0))
      modifies this`heard
      ensures Steady() && Mirrored() && store.cur.View() == map[]
      ensures heard == old(heard) + AllGone(gone) && FoldAll(EMPTY, heard, _ => 0) == map[]
    {
      hide LogOk, AllDefined, Store.Valid, Snapshot.View, FoldAll, Gone;
      GoneEmpties(heard, gone, _ => 0);
      NoneTimeless();
      for k := 0 to |gone|
        invariant Steady() && store.cur.View() == map[]
        invariant heard == old(heard) + AllGone(gone)[..k]
      {
        Observe(Gone(gone[k]));
      }
      assert AllGone(gone)[..|gone|] == AllGone(gone);
    }

    /** Apply the child's elements until its stream ends. Unless shutdown ended it, what it
        served is invalidated before the phase says so, and then announced. */
    method ReadLoop(stream: seq<Input>, cancelled: bool) returns (served: bool, ghost gone: seq<string>)
      requires Valid() && applied == []
      modifies this`phase, this`reason, this`retries, this`owed, this`wire, this`acts, this`presetSent
      modifies this`heard, this`applied, this`defs, store
      ensures Valid() && defs == Told(stream) && old(acts) <= acts
      ensures heard == old(heard) + Told(stream) + AllGone(gone)
      ensures if cancelled then gone == []
              else
                && NamesAll(gone, FoldAll(EMPTY, old(heard) + Told(stream), _ => 0))
                && store.cur.View() == map[] && phase != Serving && reason != ""
    {
      hide LogOk, AllDefined, BeforeDone, BeforeExact, Store.Valid, Snapshot.View, FoldAll, NamesAll, Steady, Fold,
          Changes;
      served := false;
      for k := 0 to |stream|
        invariant Valid()
        invariant defs == Told(stream[..k]) && heard == old(heard) + Told(stream[..k]) && old(acts) <= acts
      {
        Apply(stream[k].el, stream[k].at);
        ToldOne(stream[k]);
        assert stream[..k + 1][..k] == stream[..k];
        if phase == Serving {
          served := true;
        }
      }
      assert stream[..|stream|] == stream;
      gone := [];
      if cancelled {
        assert heard == old(heard) + Told(stream) + AllGone([]);
        return;
      }
      gone := Lose("child stream ended");
    }

    /** Invalidate, say why, announce. */
    method Lose(why: string) returns (gone: seq<string>)
      requires Valid() && why != ""
      modifies this`phase, this`reason, this`retries, this`owed, this`wire, this`acts, this`heard, store
      ensures Valid() && store.cur.View() == map[] && phase != Serving && reason != "" && old(acts) <= acts
      ensures NamesAll(gone, FoldAll(EMPTY, old(heard), _ => 0)) && heard == old(heard) + AllGone(gone)
    {
      hide LogOk, AllDefined, BeforeDone, BeforeExact, Store.Valid, Snapshot.View, FoldAll, Timeless;
      hide Moved, Leads, OpenIn, Recorded;
      gone := Drop();
      NamesTimeless(gone, old(store.cur.View()));
      Transition(Retrying, why);
      Yield();
      AnnounceGone(gone);
    }

    static lemma NamesTimeless(gone: seq<string>, view: View)
      requires NamesAll(gone, view)
      ensures NamesAll(gone, Timeless(view))
    {
    }

    /** What is left once the child is reaped is dropped and announced. */
    method Cleanup() returns (gone: seq<string>)
      requires Valid()
      modifies this`phase, this`reason, this`retries, this`owed, this`wire, this`acts, this`heard, this`writing, store
      ensures Valid() && store.cur.View() == map[] && !writing && acts == old(acts)
      ensures NamesAll(gone, FoldAll(EMPTY, old(heard), _ => 0)) && heard == old(heard) + AllGone(gone)
      ensures phase == old(phase) || phase == Acquiring
      ensures reason in {old(reason), WAITING}
    {
      hide Leads, OpenIn;
      hide LogOk, AllDefined, BeforeDone, BeforeExact, Store.Valid, Snapshot.View, FoldAll, Timeless;
      writing := false;
      store.ValidKept();
      gone := Drop();
      NamesTimeless(gone, old(store.cur.View()));
      Yield();
      AnnounceGone(gone);
    }

    /** A fresh attempt: an empty valid snapshot and no preset marked. */
    method Begin()
      requires Valid() && store.cur.View() == map[] && !writing
      modifies this`phase, this`reason, this`retries, this`owed, this`wire, this`acts
      modifies this`presetSent, this`began, this`applied, this`defs, store
      ensures Valid() && store.cur.View() == map[] && !writing && applied == []
      ensures acts == old(acts) && began == |acts| && heard == old(heard)
      ensures presetSent == seq(|cfg.presets|, _ => false)
      ensures old(retries == [] && owed == 0) ==> Ticks() == Ticker(Spawning, "spawning", [], 0)
    {
      hide LogOk, BeforeDone, Store.Valid, Snapshot.View, FoldAll, Timeless, Moved, Leads, OpenIn, Recorded;
      Announce(Spawning, "spawning");
      ghost var ticks := Ticks();
      store.Reset();
      ghost var around := Sees();
      Yield();
      LeadsStill(around, ticks, Ticks());
      ResetPresets();
    }

    /** A transition and what tickers do after it. */
    method Announce(to: Phase, why: string)
      requires Steady()
      modifies this`phase, this`reason, this`retries, this`owed, this`wire, this`acts
      ensures Steady() && store.cur.View() == old(store.cur.View())
      ensures old(wire) <= wire && old(acts) <= acts && (Silent() ==> acts == old(acts) && wire == old(wire))
      ensures phase == to || (phase == Acquiring && Takeable(cfg, presetSent))
      ensures Still(Sees(), old(Ticks()).(phase := to)) ==>
              Ticks() == old(Ticks()).(phase := to, reason := ReasonFor(to, why))
    {
      hide LogOk, AllDefined, BeforeDone, Store.Valid, Snapshot.View, Moved, Leads, OpenIn, Recorded;
      ghost var around, ticks := Sees(), Ticks();
      Transition(to, why);
      ghost var between := Ticks();
      MovedStill(around, ticks, to, why, between);
      Yield();
      LeadsStill(around, between, Ticks());
    }

    method ResetPresets()
      requires Steady() && store.cur.View() == map[]
      modifies this`presetSent, this`began, this`applied, this`defs
      ensures Steady() && store.cur.View() == map[] && BeforeExact(cfg, presetSent, defs)
      ensures began == |acts| && applied == defs == [] && presetSent == seq(|cfg.presets|, _ => false)
    {
      hide LogOk, BeforeDone, Store.Valid, Snapshot.View;
      FreshLog(cfg, acts, began, presetSent);
      presetSent := seq(|cfg.presets|, _ => false);
      began, applied, defs := |acts|, [], [];
      store.ValidKept();
    }

    /** One attempt. Every device alive when the child's stream ends is announced gone
        exactly once, by the read loop or, at shutdown, by the cleanup. Its own writes are
        the ones from began on, in which no preset enters twice. */
    method Attempt(script: Script) returns (served: bool, ghost gone: seq<string>)
      requires Valid() && store.cur.View() == map[] && !writing
      modifies this, store
      ensures Valid() && store.cur.View() == map[] && !writing
      ensures heard == old(heard) + Reached(script) + AllGone(gone)
      ensures NamesAll(gone, FoldAll(EMPTY, old(heard) + Reached(script), _ => 0))
      ensures defs == Reached(script)
      ensures old(acts) <= acts && began == |old(acts)| && OncePerPreset(acts, began, |acts|)
      ensures !script.cancelled ==> phase != Serving && reason != ""
    {
      hide LogOk, AllDefined, BeforeDone, BeforeExact, Store.Valid, Snapshot.View, FoldAll, NamesAll, Told, Timeless;
      hide Steady, Moved, OncePerPreset;
      Begin();
      served, gone := false, [];
      if !script.spawned {
        Transition(Retrying, "spawn failed");
        NoneAlive();
        OnceSoFar();
        assert heard + [] + AllGone([]) == heard && heard + [] == heard;
        return;
      }
      served, gone := Session(script);
    }

    /** A spawned child, from the first write to its reaping. */
    method Session(script: Script) returns (served: bool, ghost gone: seq<string>)
      requires Valid() && store.cur.View() == map[] && applied == [] && script.spawned && began == |acts|
      modifies this`phase, this`reason, this`retries, this`owed, this`wire, this`acts, this`presetSent
      modifies this`heard, this`applied, this`defs, this`writing, store
      ensures Valid() && store.cur.View() == map[] && !writing
      ensures heard == old(heard) + Reached(script) + AllGone(gone)
      ensures NamesAll(gone, FoldAll(EMPTY, old(heard) + Reached(script), _ => 0))
      ensures defs == Reached(script)
      ensures old(acts) <= acts && began == |old(acts)| && OncePerPreset(acts, began, |acts|)
      ensures !script.cancelled ==> phase != Serving && reason != ""
    {
      hide LogOk, AllDefined, BeforeDone, BeforeExact, Store.Valid, Snapshot.View, FoldAll, NamesAll, Told, Timeless;
      hide Steady, Moved, Leads, OncePerPreset, Sees, Calm, Ticks, WhileServing, Recorded;
      Greet();
      served, gone := false, [];
      if !script.asked {
        Transition(Retrying, "getProperties write failed");
        assert heard + [] + AllGone([]) == heard && heard + [] == heard;
      } else {
        served, gone := ReadLoop(script.stream, script.cancelled);
      }
      ghost var before := heard;
      var again := Cleanup();
      EitherSite(old(heard) + Reached(script), before, gone, again);
      gone := gone + again;
      OnceSoFar();
    }

    lemma OnceSoFar()
      requires Steady()
      ensures began <= |acts| && OncePerPreset(acts, began, |acts|)
    {
      hide LogOk, Disjoint;
      forall j, k | began <= j < k < |acts|
        ensures Disjoint(acts[j], acts[k])
      {
        PresetsOnce(cfg, acts, began, presetSent, j, k);
      }
    }

    /** The child is there: ask it for its properties. */
    method Greet()
      requires Valid() && store.cur.View() == map[]
      modifies this`phase, this`reason, this`retries, this`owed, this`wire, this`acts, this`writing
      ensures Valid() && store.cur.View() == map[] && writing && old(acts) <= acts
      ensures old(retries == [] && owed == 0) ==> Ticks() == Ticker(Acquiring, "acquiring", [], 0)
    {
      hide LogOk, AllDefined, BeforeDone, BeforeExact, Store.Valid, Snapshot.View, FoldAll, Timeless, Recorded;
      SetWriter();
      Announce(Acquiring, "acquiring");
      Say(GetProperties, Asked);
    }

    method SetWriter()
      requires Valid()
      modifies this`writing
      ensures Valid() && store.cur.View() == old(store.cur.View()) && writing && Ticks() == old(Ticks())
    {
      hide LogOk, AllDefined, BeforeDone, BeforeExact, Store.Valid, Snapshot.View, FoldAll, Timeless;
      writing := true;
      store.ValidKept();
    }

    lemma NoneAlive()
      requires Mirrored() && store.cur.View() == map[]
      ensures FoldAll(EMPTY, heard, _ => 0) == map[] && NamesAll([], FoldAll(EMPTY, heard, _ => 0))
    {
      hide FoldAll;
      NoneTimeless();
    }

    static lemma HeadIn(names: seq<string>)
      requires names != []
      ensures exists d :: d in names
    {
      assert names[0] in names;
    }

    /** Whichever site announces first, the other has nothing left to announce. */
    static lemma EitherSite(told: seq<Element>, before: seq<Element>, gone: seq<string>, again: seq<string>)
      requires before == told + AllGone(gone)
      requires gone == [] || NamesAll(gone, FoldAll(EMPTY, told, _ => 0))
      requires NamesAll(again, FoldAll(EMPTY, before, _ => 0))
      ensures NamesAll(gone + again, FoldAll(EMPTY, told, _ => 0))
      ensures before + AllGone(again) == told + AllGone(gone + again)
    {
      hide FoldAll;
      if gone == [] {
        assert before == told && gone + again == again;
      } else {
        GoneEmpties(told, gone, _ => 0);
        if again != [] {
          HeadIn(again);
          assert false;
        }
        assert gone + again == gone;
      }
      assert AllGone(gone + again) == AllGone(gone) + AllGone(again);
    }

    /** Back to waiting, for the reason the attempt left. */
    method Pause()
      requires Valid() && store.cur.View() == map[] && !writing
      modifies this`phase, this`reason, this`retries, this`owed, this`wire, this`acts
      ensures Valid() && store.cur.View() == map[] && acts == old(acts)
      ensures phase == Retrying || (phase == Acquiring && Takeable(cfg, presetSent))
      ensures reason == old(reason)
    {
      hide LogOk, AllDefined, BeforeDone, BeforeExact, Store.Valid, Snapshot.View, FoldAll, Timeless, Moved, OpenIn,
          Recorded;
      Transition(Retrying, reason);
    }

    method Finish()
      requires Valid() && store.cur.View() == map[] && !writing
      modifies this`phase, this`reason, this`retries, this`owed, this`wire, this`acts
      ensures Valid() && store.cur.View() == map[] && acts == old(acts) && FoldAll(EMPTY, heard, _ => 0) == map[]
      ensures phase == Stopped || (phase == Acquiring && Takeable(cfg, presetSent))
      ensures reason == "shut down"
    {
      hide LogOk, AllDefined, BeforeDone, BeforeExact, Store.Valid, Snapshot.View, FoldAll, Timeless, Moved, OpenIn,
          Recorded;
      Transition(Stopped, "shut down");
      NoneAlive();
    }

    lemma LogKnown()
      requires Steady()
      ensures LogOk(cfg, acts, began, presetSent)
    {
    }

    static lemma AtFirst(acts: seq<Act>)
      ensures Bounded(acts, [|acts|], |acts|)
    {
    }

    static lemma SessionAdded(before: seq<Element>, scripts: seq<Script>, gones: seq<seq<string>>, gone: seq<string>)
      requires |gones| < |scripts| && AllListed(before, scripts[..|gones|], gones)
      requires NamesAll(gone,
               FoldAll(EMPTY, Sessions(before, scripts[..|gones|], gones) + Reached(scripts[|gones|]), _ => 0))
      ensures AllListed(before, scripts[..|gones| + 1], gones + [gone])
      ensures Sessions(before, scripts[..|gones| + 1], gones + [gone])
           == Sessions(before, scripts[..|gones|], gones) + Reached(scripts[|gones|]) + AllGone(gone)
    {
      hide FoldAll, NamesAll, Reached, AllGone;
      var k := |gones|;
      assert scripts[..k + 1][..k] == scripts[..k] && (gones + [gone])[..k] == gones;
    }

    /** Attempt after attempt until shutdown, or until the waits between them are cut
        short; then stopped, unless a leftover ticker comes after that. The observer has
        heard each attempt's elements followed by one deletion for each device then alive,
        and so believes in nothing at the end. In each attempt no preset enters two writes. */
    method Run(scripts: seq<Script>) returns (ghost gones: seq<seq<string>>, ghost bounds: seq<nat>)
      requires Valid() && store.cur.View() == map[] && !writing
      modifies this, store
      ensures Valid() && store.cur.View() == map[] && old(acts) <= acts
      ensures phase == Stopped || (phase == Acquiring && Takeable(cfg, presetSent))
      ensures |bounds| == |gones| + 1 && Bounded(acts, bounds, |old(acts)|)
      ensures forall k: nat :: k < |gones| ==> OnceInAttempt(acts, bounds, k)
      ensures |gones| <= |scripts|
      ensures |gones| < |scripts| ==> gones != [] && scripts[|gones| - 1].cancelled
      ensures AllListed(old(heard), scripts[..|gones|], gones)
      ensures heard == Sessions(old(heard), scripts[..|gones|], gones) && FoldAll(EMPTY, heard, _ => 0) == map[]
    {
      hide Steady, BeforeDone, BeforeExact, Store.Valid, Snapshot.View, FoldAll, NamesAll, Reached, AllGone, Mirrored;
      hide Bounded, OnceInAttempt, OncePerPreset, LogOk;
      gones, bounds := [], [|acts|];
      AtFirst(acts);
      var k := 0;
      while k < |scripts|
        invariant Valid() && store.cur.View() == map[] && !writing
        invariant k <= |scripts| && |gones| == k
        invariant AllListed(old(heard), scripts[..k], gones)
        invariant heard == Sessions(old(heard), scripts[..k], gones)
        invariant old(acts) <= acts && |bounds| == k + 1 && Bounded(acts, bounds, |old(acts)|)
        invariant forall i: nat :: i < k ==> OnceInAttempt(acts, bounds, i)
      {
        ghost var gone, was := [], acts;
        var served;
        served, gone := Attempt(scripts[k]);
        LogKnown();
        AttemptAdded(cfg, was, acts, presetSent, bounds, |old(acts)|);
        bounds := bounds + [|acts|];
        SessionAdded(old(heard), scripts, gones, gone);
        gones := gones + [gone];
        k := k + 1;
        if scripts[k - 1].cancelled {
          break;
        }
        Pause();
      }
      Finish();
    }

    // Two runs that go wrong

    /** Why an after-connect preset can go out while not serving: serving has begun with
        before-connect presets outstanding, and a pending retry comes before the sweep's
        write. Then whatever after-connect preset the sweep finds due is written in
        acquiring. */
    method RetryBeforeSweep(device: string, prop: string, retry: nat, i: nat)
      requires Steady() && cfg.Wants(device) && writing
      requires phase == Serving && Takeable(cfg, presetSent) && retry < |retries|
      requires i < |cfg.presets| && cfg.presets[i].prop == prop && !cfg.presets[i].before && !presetSent[i]
      requires Has(store.cur.View(), device, prop)
      requires store.cur.View()[device][prop].head.vtype in {Switch, Number, Text}
      modifies this`phase, this`retries, this`owed, this`presetSent, this`wire, this`acts
      ensures Steady() && phase == Acquiring && |acts| > |old(acts)|
      ensures var a := acts[|acts| - 1]; a.why.Presetting? && i in a.why.due && a.phase == Acquiring
    {
      hide LogOk, AllDefined, BeforeDone, Store.Valid, Snapshot.View, Has, OpenIn, Recorded, Due;
      Retry(retry);
      var found := Look(device, prop);
      DueIff(cfg.presets, presetSent, prop, true, |presetSent|, i);
      ApplyPresetsFor(device, prop, found.value.0, found.value.1, true, Snapped);
    }

    /** One element's way to its presets, no ticker coming in between. */
    method Hear(el: Element)
      requires Steady() && Mirrored() && applied == defs && BeforeExact(cfg, presetSent, defs)
      modifies this`phase, this`reason, this`retries, this`owed, this`wire, this`acts
      modifies this`heard, this`presetSent, this`applied, this`defs, store
      ensures Steady() && Mirrored() && applied == defs && BeforeExact(cfg, presetSent, defs)
      ensures store.cur.View() == Fold(old(store.cur.View()), el, 0)
      ensures phase == old(phase) || phase == Acquiring
      ensures if el.kind == KindDef && cfg.Wants(el.device)
              then presetSent == Marked(cfg.presets, old(presetSent), el.name, old(phase) == Serving)
              else presetSent == old(presetSent) && Ticks() == old(Ticks())
    {
      hide LogOk, AllDefined, BeforeDone, BeforeExact, Store.Valid, Snapshot.View, Timeless, FoldAll, Fold, Recorded;
      hide Leads, OpenIn, Due, Marked, PresetMessage;
      ViewValid();
      Observe(el);
      FoldIn(el, 0);
      ApplyPresetDefs(el);
    }

    /** A child, from nothing, up to the moment its serving is stored: it has defined an
        after-connect property and CONNECTION, a tick has listed it for a retry, and then it
        said that it is connected. Its before-connect property is still to come. */
    static method ReachServing() returns (s: Supervisor)
      ensures fresh(s) && fresh(s.store) && s.cfg == RACE && s.Steady() && s.writing
      ensures s.phase == Serving && s.retries != [] && s.presetSent == [false, false]
      ensures Has(s.store.cur.View(), "Dome", "B") && s.store.cur.View()["Dome"]["B"].head.vtype == Text
    {
      hide LogOk, AllDefined, BeforeExact, BeforeDone, Store.Valid, Snapshot.View, Timeless, FoldAll, Fold,
          Supervisor.Recorded;
      hide Leads, OpenIn, Has, SwitchedOff, ViewOk, Moved, Marked, ConnectMessage, Still, RaceView;
      s := Acquired();
      RaceMarks();
      RaceViews();
      ghost var around, ticks := s.Sees(), s.Ticks();
      s.Tick();
      ghost var asked :| Enabled(around, ticks, Ask(asked)) && s.Ticks() == Take(around, ticks, Ask(asked));
      assert "Dome" in Listed(asked);
      s.Hear(SetConnection());
      s.SetPhase(Serving);
    }

    static method Acquired() returns (s: Supervisor)
      ensures fresh(s) && fresh(s.store) && s.cfg == RACE && s.Steady() && s.writing
      ensures s.Mirrored() && s.applied == s.defs && BeforeExact(RACE, s.presetSent, s.defs)
      ensures s.phase == Acquiring && s.presetSent == [false, false] && s.store.cur.View() == RaceView(2)
    {
      hide LogOk, AllDefined, BeforeExact, BeforeDone, Store.Valid, Snapshot.View, Timeless, FoldAll, Fold,
          Supervisor.Recorded;
      hide Leads, OpenIn, Has, SwitchedOff, ViewOk, Moved, Marked, ConnectMessage, Still, RaceView;
      s := Introduced();
      s.SendConnect("Dome");
    }

    static method Introduced() returns (s: Supervisor)
      ensures fresh(s) && fresh(s.store) && s.cfg == RACE && s.Steady() && s.writing
      ensures s.Mirrored() && s.applied == s.defs && BeforeExact(RACE, s.presetSent, s.defs)
      ensures s.phase == Acquiring && s.presetSent == [false, false] && s.store.cur.View() == RaceView(2)
    {
      hide LogOk, AllDefined, BeforeExact, BeforeDone, Store.Valid, Snapshot.View, Timeless, FoldAll, Fold,
          Supervisor.Recorded;
      hide Leads, OpenIn, Has, SwitchedOff, ViewOk, Moved, Marked, ConnectMessage, Still, RaceView;
      s := Greeted();
      RaceMarks();
      RaceViews();
      s.Hear(DefB());
      s.Hear(DefConnection());
    }

    static method Greeted() returns (s: Supervisor)
      ensures fresh(s) && fresh(s.store) && s.cfg == RACE && s.Valid() && s.writing && s.store.cur.View() == map[]
      ensures s.Ticks() == Ticker(Acquiring, "acquiring", [], 0) && s.presetSent == seq(2, _ => false)
    {
      hide LogOk, AllDefined, BeforeExact, BeforeDone, Store.Valid, Snapshot.View, Timeless, FoldAll;
      var store := new Store();
      s := new Supervisor(RACE, store);
      s.Begin();
      s.Greet();
    }

    /** Acquiring, without a reason: the retry and its reason come between the two stores of
        the transition to serving. */
    static method AcquiringUnexplained() returns (s: Supervisor)
      ensures fresh(s) && s.Steady() && s.phase == Acquiring && s.reason == "" && s.owed == 0
    {
      hide LogOk, AllDefined, BeforeExact, Store.Valid, Snapshot.View, Supervisor.Recorded, Has, OpenIn;
      s := ReachServing();
      RaceMarks();
      s.Retry(0);
      while s.owed > 0
        invariant fresh(s) && s.Steady() && s.phase == Acquiring
        decreases s.owed
      {
        s.Explain();
      }
      s.SetReason(ReasonFor(Serving, ""));
    }

    /** An after-connect preset written in acquiring: the retry comes after both stores,
        before the sweep. */
    static method AfterConnectAcquiring() returns (s: Supervisor)
      ensures fresh(s) && s.Steady() && |s.acts| > 0 && s.cfg == RACE && !RACE.presets[1].before
      ensures var a := s.acts[|s.acts| - 1]; a.why.Presetting? && 1 in a.why.due && a.phase == Acquiring
    {
      hide LogOk, AllDefined, BeforeExact, Store.Valid, Snapshot.View, Supervisor.Recorded, Has, OpenIn;
      s := ReachServing();
      RaceMarks();
      s.SetReason(ReasonFor(Serving, ""));
      s.RetryBeforeSweep("Dome", "B", 0, 1);
    }
  }
}
