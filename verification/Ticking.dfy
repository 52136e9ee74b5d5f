/** The goroutine that retries CONNECT, as the read loop sees it: between any two of
    the read loop's steps it may take any number of its own, those of tickers left
    over from earlier attempts included. */
module Ticking {
  import opened Wire
  import opened Presets

  const WAITING: string := "waiting to apply before-connect presets"

  /** What a ticker reads and writes. Phase and reason are stored one after the other:
      owed counts the reasons still to be stored by tickers that have stored their phase. */
  datatype Ticker = Ticker(phase: Phase, reason: string, retries: seq<string>, owed: nat)

  /** What it finds and does not change: whether CONNECT is held, whether every
      before-connect preset is marked, and which wanted devices have CONNECT off. */
  datatype Around = Around(held: bool, ready: bool, open: set<string>)

  datatype Turn =
    | Ask(devices: seq<string>)   // a tick while acquiring: the open devices, in any order
    | Retry(k: nat)               // one of the retries asked for
    | Explain                     // store a reason owed

  function Listed(devices: seq<string>): set<string> {
    set d | d in devices
  }

  predicate Enabled(a: Around, t: Ticker, turn: Turn) {
    match turn
    case Ask(devices) => t.phase == Acquiring && Listed(devices) == a.open
    case Retry(k) => k < |t.retries|
    case Explain => t.owed > 0
  }

  /** With a before-connect preset outstanding a retry falls back to acquiring; otherwise
      it writes CONNECT, which changes nothing here. */
  function Take(a: Around, t: Ticker, turn: Turn): Ticker
    requires Enabled(a, t, turn)
  {
    match turn
    case Ask(devices) => t.(retries := t.retries + devices)
    case Retry(k) =>
      var left := t.(retries := t.retries[..k] + t.retries[k + 1..]);
      if a.held || a.ready then left else left.(phase := Acquiring, owed := t.owed + 1)
    case Explain => t.(reason := WAITING, owed := t.owed - 1)
  }

  predicate IsSchedule(a: Around, t: Ticker, turns: seq<Turn>)
    decreases |turns|
  {
    turns == [] || (Enabled(a, t, turns[0]) && IsSchedule(a, Take(a, t, turns[0]), turns[1..]))
  }

  function After(a: Around, t: Ticker, turns: seq<Turn>): Ticker
    requires IsSchedule(a, t, turns)
    decreases |turns|
  {
    if turns == [] then t else After(a, Take(a, t, turns[0]), turns[1..])
  }

  /** Some schedule leads from one state to the other. */
  ghost predicate Leads(a: Around, t: Ticker, u: Ticker) {
    exists turns :: IsSchedule(a, t, turns) && After(a, t, turns) == u
  }

  lemma LeadsNowhere(a: Around, t: Ticker)
    ensures Leads(a, t, t)
  {
    assert IsSchedule(a, t, []) && After(a, t, []) == t;
  }

  lemma {:induction false} OneTurnMore(a: Around, t: Ticker, turns: seq<Turn>, turn: Turn)
    requires IsSchedule(a, t, turns) && Enabled(a, After(a, t, turns), turn)
    ensures IsSchedule(a, t, turns + [turn])
    ensures After(a, t, turns + [turn]) == Take(a, After(a, t, turns), turn)
    decreases |turns|
  {
    hide Take, Enabled;
    var all := turns + [turn];
    if turns == [] {
      assert all[1..] == [];
    } else {
      assert all[0] == turns[0] && all[1..] == turns[1..] + [turn];
      OneTurnMore(a, Take(a, t, turns[0]), turns[1..], turn);
    }
  }

  lemma LeadsFurther(a: Around, t: Ticker, u: Ticker, turn: Turn)
    requires Leads(a, t, u) && Enabled(a, u, turn)
    ensures Leads(a, t, Take(a, u, turn))
  {
    hide Take, Enabled, IsSchedule, After;
    var turns :| IsSchedule(a, t, turns) && After(a, t, turns) == u;
    OneTurnMore(a, t, turns, turn);
  }

  // What no schedule changes

  /** Nothing a ticker does leads out of this. */
  ghost predicate Stable(a: Around, p: Ticker -> bool) {
    forall t: Ticker, turn: Turn | p(t) && Enabled(a, t, turn) :: p(Take(a, t, turn))
  }

  lemma {:induction false} StableAfter(a: Around, p: Ticker -> bool, t: Ticker, turns: seq<Turn>)
    requires Stable(a, p) && p(t) && IsSchedule(a, t, turns)
    ensures p(After(a, t, turns))
    decreases |turns|
  {
    hide Take, Enabled;
    if turns == [] {
    } else {
      StableAfter(a, p, Take(a, t, turns[0]), turns[1..]);
    }
  }

  /** A ticker moves the phase to acquiring if anywhere, and only with a before-connect
      preset outstanding; it stores one reason. */
  lemma LeadsKeeps(a: Around, t: Ticker, u: Ticker)
    requires Leads(a, t, u)
    ensures u.phase == t.phase || (u.phase == Acquiring && !a.held && !a.ready)
    ensures u.reason == t.reason || u.reason == WAITING
  {
    var turns :| IsSchedule(a, t, turns) && After(a, t, turns) == u;
    StableAfter(a, (s: Ticker) => s.phase == t.phase || (s.phase == Acquiring && !a.held && !a.ready), t, turns);
    StableAfter(a, (s: Ticker) => s.reason == t.reason || s.reason == WAITING, t, turns);
  }

  /** There is nothing for a ticker to do. */
  predicate Still(a: Around, t: Ticker) {
    t.retries == [] && t.owed == 0 && (t.phase != Acquiring || a.open == {})
  }

  lemma LeadsStill(a: Around, t: Ticker, u: Ticker)
    requires Leads(a, t, u)
    ensures Still(a, t) ==> u == t
  {
    if Still(a, t) {
      var turns :| IsSchedule(a, t, turns) && After(a, t, turns) == u;
      forall turn | Enabled(a, t, turn)
        ensures Take(a, t, turn) == t
      {
        AskNone(turn);
      }
      StableAfter(a, (s: Ticker) => s == t, t, turns);
    }
  }

  lemma AskNone(turn: Turn)
    ensures turn.Ask? && Listed(turn.devices) == {} ==> turn.devices == []
  {
    if turn.Ask? && turn.devices != [] {
      assert turn.devices[0] in Listed(turn.devices);
    }
  }

  // Serving

  /** Serving cannot be taken back by a ticker. */
  predicate Undisturbed(a: Around, t: Ticker) {
    t.phase == Serving && (a.held || a.ready || t.retries == [])
  }

  lemma LeadsUndisturbed(a: Around, t: Ticker, u: Ticker)
    requires Leads(a, t, u) && Undisturbed(a, t)
    ensures Undisturbed(a, u)
  {
    var turns :| IsSchedule(a, t, turns) && After(a, t, turns) == u;
    StableAfter(a, (s: Ticker) => Undisturbed(a, s), t, turns);
  }

  /** From serving a ticker can leave serving exactly if CONNECT is not held, a
      before-connect preset is outstanding, and a retry is pending. */
  lemma LeavesServingIff(a: Around, t: Ticker)
    requires t.phase == Serving
    ensures (exists u :: Leads(a, t, u) && u.phase != Serving) <==> !a.held && !a.ready && t.retries != []
  {
    if Undisturbed(a, t) {
      forall u | Leads(a, t, u)
        ensures u.phase == Serving
      {
        LeadsUndisturbed(a, t, u);
      }
    } else {
      LeadsNowhere(a, t);
      LeadsFurther(a, t, t, Retry(0));
      assert Take(a, t, Retry(0)).phase != Serving;
    }
  }

  // A transition of the read loop: the phase is stored, tickers run, the reason is stored

  function ReasonFor(to: Phase, why: string): string {
    if to != Serving then why else ""
  }

  ghost predicate Moved(a: Around, t: Ticker, to: Phase, why: string, u: Ticker) {
    exists between :: Leads(a, t.(phase := to), between) && u == between.(reason := ReasonFor(to, why))
  }

  lemma MovedFacts(a: Around, t: Ticker, to: Phase, why: string, u: Ticker)
    requires Moved(a, t, to, why, u)
    ensures u.phase == to || (u.phase == Acquiring && !a.held && !a.ready)
    ensures u.reason == ReasonFor(to, why)
    ensures to == Serving && Undisturbed(a, t.(phase := to)) ==> Undisturbed(a, u)
  {
    hide Leads;
    var between :| Leads(a, t.(phase := to), between) && u == between.(reason := ReasonFor(to, why));
    LeadsKeeps(a, t.(phase := to), between);
    if to == Serving && Undisturbed(a, t.(phase := to)) {
      LeadsUndisturbed(a, t.(phase := to), between);
    }
  }

  lemma MovedStill(a: Around, t: Ticker, to: Phase, why: string, u: Ticker)
    requires Moved(a, t, to, why, u)
    ensures Still(a, t.(phase := to)) ==> u == t.(phase := to, reason := ReasonFor(to, why))
  {
    hide Leads;
    var between :| Leads(a, t.(phase := to), between) && u == between.(reason := ReasonFor(to, why));
    LeadsStill(a, t.(phase := to), between);
  }

  /** The reason is empty exactly while serving. */
  predicate Agrees(t: Ticker) {
    t.phase == Serving <==> t.reason == ""
  }

  /** However tickers run during a transition and after it, phase and reason agree. */
  ghost predicate AlwaysAgrees(a: Around, t: Ticker, to: Phase, why: string) {
    forall u, v :: Moved(a, t, to, why, u) && Leads(a, u, v) ==> Agrees(v)
  }

  /** They do exactly if the transition is not to serving; or no ticker owes a reason and
      none can take serving back. */
  lemma TransitionAgreesIff(a: Around, t: Ticker, to: Phase, why: string)
    requires to != Serving ==> why != ""
    ensures AlwaysAgrees(a, t, to, why) <==>
              (to == Serving ==> t.owed == 0 && (a.held || a.ready || t.retries == []))
  {
    var t1 := t.(phase := to);
    if to != Serving {
      AgreesAway(a, t, to, why);
    } else if t.owed == 0 && Undisturbed(a, t1) {
      AgreesServing(a, t);
    } else {
      LateReason(a, t);
    }
  }

  lemma AgreesAway(a: Around, t: Ticker, to: Phase, why: string)
    requires to != Serving && why != ""
    ensures AlwaysAgrees(a, t, to, why)
  {
    forall u, v | Moved(a, t, to, why, u) && Leads(a, u, v)
      ensures Agrees(v)
    {
      MovedFacts(a, t, to, why, u);
      LeadsKeeps(a, u, v);
    }
  }

  lemma AgreesServing(a: Around, t: Ticker)
    requires t.owed == 0 && Undisturbed(a, t.(phase := Serving))
    ensures AlwaysAgrees(a, t, Serving, "")
  {
    var quiet := (s: Ticker) => s.owed == 0 && Undisturbed(a, s);
    var silent := (s: Ticker) => s.owed == 0 && Undisturbed(a, s) && s.reason == "";
    assert Stable(a, quiet) && Stable(a, silent);
    forall u, v | Moved(a, t, Serving, "", u) && Leads(a, u, v)
      ensures Agrees(v)
    {
      var between :| Leads(a, t.(phase := Serving), between) && u == between.(reason := "");
      var turns :| IsSchedule(a, t.(phase := Serving), turns) && After(a, t.(phase := Serving), turns) == between;
      StableAfter(a, quiet, t.(phase := Serving), turns);
      var later :| IsSchedule(a, u, later) && After(a, u, later) == v;
      StableAfter(a, silent, u, later);
    }
  }

  /** Serving with a reason, when one was owed; or acquiring without one, when a retry
      and its reason come between the two stores. */
  lemma LateReason(a: Around, t: Ticker)
    requires t.owed > 0 || (!a.held && !a.ready && t.retries != [])
    ensures !AlwaysAgrees(a, t, Serving, "")
  {
    hide IsSchedule, After;
    var t1 := t.(phase := Serving);
    LeadsNowhere(a, t1);
    if t.owed > 0 {
      var u := t1.(reason := "");
      assert Moved(a, t, Serving, "", u);
      LeadsNowhere(a, u);
      LeadsFurther(a, u, u, Explain);
      assert !Agrees(Take(a, u, Explain));
    } else {
      LeadsFurther(a, t1, t1, Retry(0));
      var t2 := Take(a, t1, Retry(0));
      LeadsFurther(a, t1, t2, Explain);
      var u := Take(a, t2, Explain).(reason := "");
      assert Moved(a, t, Serving, "", u);
      LeadsNowhere(a, u);
      assert !Agrees(u);
    }
  }
}
