/** Ekos speaks of catalog labels, the host of configured instances: translating a
    profile to labels, and labels back to instances. */
module Ekos {
  import opened Configuration
  import opened Lists
  import opened Results
  import opened Wire

  datatype Trouble =
    | UnknownDevice(name: string)
    | NoUniqueLabel(name: string)
    | RemoteDriver
    | Ambiguous(labelText: string)
    | NoDevice(labelText: string)
    | Duplicate(name: string)

  /** A catalog line. */
  datatype Driver = Driver(name: string, labelText: string, binary: string)

  /** A selection: a label, perhaps of another host. */
  datatype Selection = Selection(labelText: string, remote: string)

  // filepath.Base

  function NoTrailing(p: string): string {
    if p != "" && p[|p| - 1] == '/' then NoTrailing(p[..|p| - 1]) else p
  }

  function LastPart(p: string): string {
    if p == "" || p[|p| - 1] == '/' then "" else LastPart(p[..|p| - 1]) + [p[|p| - 1]]
  }

  function Base(p: string): string {
    if p == "" then "." else if NoTrailing(p) == "" then "/" else LastPart(NoTrailing(p))
  }

  /** The last element of a path: what stands after its last slash, trailing ones aside. */
  lemma {:induction false} BaseIs(dir: string, name: string, slashes: nat)
    requires name != "" && forall i :: 0 <= i < |name| ==> name[i] != '/'
    requires dir == "" || dir[|dir| - 1] == '/'
    ensures Base(dir + name + seq(slashes, _ => '/')) == name
  {
    var p := dir + name;
    assert p[|p| - 1] == name[|name| - 1];
    SlashesGone(p, slashes);
    LastIs(dir, name);
  }

  lemma {:induction false} SlashesGone(p: string, slashes: nat)
    requires p != "" && p[|p| - 1] != '/'
    ensures NoTrailing(p + seq(slashes, _ => '/')) == p
    decreases slashes
  {
    var s := p + seq(slashes, _ => '/');
    if slashes == 0 {
      assert s == p;
    } else {
      assert s[..|s| - 1] == p + seq(slashes - 1, _ => '/');
      SlashesGone(p, slashes - 1);
    }
  }

  lemma {:induction false} LastIs(dir: string, name: string)
    requires forall i :: 0 <= i < |name| ==> name[i] != '/'
    requires dir == "" || dir[|dir| - 1] == '/'
    ensures LastPart(dir + name) == name
    decreases |name|
  {
    var p := dir + name;
    if name == "" {
      assert p == dir;
    } else {
      var n := |name| - 1;
      var front := name[..n];
      assert name == front + [name[n]];
      assert forall i :: 0 <= i < n ==> front[i] == name[i];
      LastIs(dir, front);
      assert p == (dir + front) + [name[n]];
      assert p[|p| - 1] == name[n] && p[..|p| - 1] == dir + front;
    }
  }

  predicate Runs(d: Driver, e: Entry) {
    Base(d.binary) == Base(e.exec)
  }

  // An instance's label

  /** The catalog lines of an entry's binary. */
  function Lines(e: Entry, catalog: seq<Driver>): (r: seq<Driver>)
    ensures forall d :: d in r <==> d in catalog && Base(d.binary) == Base(e.exec)
  {
    if catalog == [] then []
    else
      var n := |catalog| - 1;
      assert catalog == catalog[..n] + [catalog[n]];
      Lines(e, catalog[..n]) + if Runs(catalog[n], e) then [catalog[n]] else []
  }

  function Named(ds: seq<Driver>, name: string): (r: Option<Driver>)
    ensures r.Some? ==> r.value in ds && r.value.labelText == name
    ensures r.None? ==> forall d :: d in ds ==> d.labelText != name
  {
    if ds == [] then None else if ds[0].labelText == name then Some(ds[0]) else Named(ds[1..], name)
  }

  /** Lines whose driver name is their label. */
  function Primary(ds: seq<Driver>): (r: seq<Driver>)
    ensures forall d :: d in r <==> d in ds && d.name == d.labelText
  {
    if ds == [] then []
    else
      var n := |ds| - 1;
      assert ds == ds[..n] + [ds[n]];
      Primary(ds[..n]) + if ds[n].name == ds[n].labelText then [ds[n]] else []
  }

  /** The label of an entry: the one it is named after, the one its device is named after,
      the only one, or the only primary one. */
  function LineOf(e: Entry, catalog: seq<Driver>): (r: Option<Driver>)
    ensures r.Some? ==> r.value in catalog && Runs(r.value, e)
  {
    var ds := Lines(e, catalog);
    if Named(ds, e.name).Some? then Named(ds, e.name)
    else if Named(ds, e.deviceName).Some? then Named(ds, e.deviceName)
    else if |ds| == 1 then Some(ds[0])
    else
      var ps := Primary(ds);
      if |ps| == 1 then (assert ps[0] in ps; Some(ps[0])) else None
  }

  /** The order of preference: a line of the entry's binary labelled like the entry, then
      one labelled like its device, then the binary's only line, then its only line that is
      its own driver's. */
  ghost predicate Preferred(e: Entry, catalog: seq<Driver>, r: Option<Driver>) {
    var ds := Lines(e, catalog);
    if exists d :: d in ds && d.labelText == e.name then r.Some? && r.value in ds && r.value.labelText == e.name
    else if exists d :: d in ds && d.labelText == e.deviceName then
      r.Some? && r.value in ds && r.value.labelText == e.deviceName
    else if |ds| == 1 then r == Some(ds[0])
    else if |Primary(ds)| == 1 then r == Some(Primary(ds)[0])
    else r.None?
  }

  method FindNamed(ds: seq<Driver>, name: string) returns (r: Option<Driver>)
    ensures r == Named(ds, name)
  {
    for k := 0 to |ds|
      invariant Named(ds, name) == Named(ds[k..], name)
    {
      if name == ds[k].labelText {
        return Some(ds[k]);
      }
    }
    return None;
  }

  method FindPrimary(ds: seq<Driver>) returns (ps: seq<Driver>)
    ensures ps == Primary(ds)
  {
    ps := [];
    for k := 0 to |ds|
      invariant ps == Primary(ds[..k])
    {
      assert ds[..k + 1][..k] == ds[..k];
      if ds[k].name == ds[k].labelText {
        ps := ps + [ds[k]];
      }
    }
    assert ds[..|ds|] == ds;
  }

  method CatalogDevice(e: Entry, catalog: seq<Driver>) returns (r: Option<Driver>)
    ensures r == LineOf(e, catalog) && Preferred(e, catalog, r)
  {
    var ds: seq<Driver> := [];
    for k := 0 to |catalog|
      invariant ds == Lines(e, catalog[..k])
    {
      assert catalog[..k + 1][..k] == catalog[..k];
      if Runs(catalog[k], e) {
        ds := ds + [catalog[k]];
      }
    }
    assert catalog[..|catalog|] == catalog;
    r := FindNamed(ds, e.name);
    if r.Some? {
      return;
    }
    r := FindNamed(ds, e.deviceName);
    if r.Some? {
      return;
    }
    if |ds| == 1 {
      return Some(ds[0]);
    }
    var ps := FindPrimary(ds);
    return if |ps| == 1 then Some(ps[0]) else None;
  }

  // A profile as labels

  /** The label a profile's name goes by. */
  function LabelOf(devices: seq<Entry>, catalog: seq<Driver>, name: string): Result<string, Trouble> {
    var i := Find(devices, name);
    if i == |devices| then Failure(UnknownDevice(name))
    else
      match LineOf(devices[i], catalog)
      case None => Failure(NoUniqueLabel(name))
      case Some(d) => Success(d.labelText)
  }

  /** The labels of a profile after those in out, each once, in order of first use. */
  function Labels(
      devices: seq<Entry>, catalog: seq<Driver>, profile: seq<string>, out: seq<string>): Result<seq<string>, Trouble>
    decreases |profile|
  {
    if profile == [] then Success(out)
    else
      match LabelOf(devices, catalog, profile[0])
      case Failure(why) => Failure(why)
      case Success(l) => Labels(devices, catalog, profile[1..], if l in out then out else out + [l])
  }

  method FindLabel(devices: seq<Entry>, catalog: seq<Driver>, name: string) returns (r: Result<string, Trouble>)
    ensures r == LabelOf(devices, catalog, name)
  {
    var i := Find(devices, name);
    if i == |devices| {
      return Failure(UnknownDevice(name));
    }
    var d := CatalogDevice(devices[i], catalog);
    return if d.None? then Failure(NoUniqueLabel(name)) else Success(d.value.labelText);
  }

  method EkosProfile(devices: seq<Entry>, catalog: seq<Driver>, profile: seq<string>)
    returns (r: Result<seq<string>, Trouble>)
    ensures r == Labels(devices, catalog, profile, [])
  {
    hide LabelOf;
    var out: seq<string> := [];
    for k := 0 to |profile|
      invariant Labels(devices, catalog, profile, []) == Labels(devices, catalog, profile[k..], out)
    {
      assert profile[k..][1..] == profile[k + 1..];
      var l := FindLabel(devices, catalog, profile[k]);
      if l.Failure? {
        return Failure(l.error);
      }
      if l.value !in out {
        out := out + [l.value];
      }
    }
    return Success(out);
  }

  // Labels as instances

  /** Some catalog line of the label runs the entry's binary. */
  predicate Goes(e: Entry, catalog: seq<Driver>, labelText: string) {
    exists d :: d in catalog && d.labelText == labelText && Runs(d, e)
  }

  /** The configured names a label may mean, in order. */
  function Candidates(devices: seq<Entry>, catalog: seq<Driver>, labelText: string): seq<string> {
    if devices == [] then []
    else
      var n := |devices| - 1;
      Candidates(devices[..n], catalog, labelText)
      + if Goes(devices[n], catalog, labelText) then [devices[n].name] else []
  }

  function Kept(names: seq<string>, had: set<string>): (r: seq<string>)
    ensures forall name :: name in r <==> name in names && name in had
  {
    if names == [] then []
    else
      var n := |names| - 1;
      assert names == names[..n] + [names[n]];
      Kept(names[..n], had) + if names[n] in had then [names[n]] else []
  }

  /** The names taken for a label: its only candidate, or those the profile already had. */
  function Taken(
      devices: seq<Entry>, catalog: seq<Driver>, labelText: string, had: set<string>): Result<seq<string>, Trouble> {
    var names := Candidates(devices, catalog, labelText);
    if |names| > 1 && Kept(names, had) == [] then Failure(Ambiguous(labelText))
    else if names == [] then Failure(NoDevice(labelText))
    else Success(if |names| > 1 then Kept(names, had) else names)
  }

  /** Append names, none twice. */
  function Added(out: seq<string>, names: seq<string>): Result<seq<string>, Trouble>
    decreases |names|
  {
    if names == [] then Success(out)
    else if names[0] in out then Failure(Duplicate(names[0]))
    else Added(out + [names[0]], names[1..])
  }

  function Resolve(
      devices: seq<Entry>, catalog: seq<Driver>, ds: seq<Selection>, had: set<string>,
      out: seq<string>): Result<seq<string>, Trouble>
    decreases |ds|
  {
    if ds == [] then Success(out)
    else if ds[0].remote != "" then Failure(RemoteDriver)
    else
      match Taken(devices, catalog, ds[0].labelText, had)
      case Failure(why) => Failure(why)
      case Success(names) =>
        match Added(out, names)
        case Failure(why) => Failure(why)
        case Success(more) => Resolve(devices, catalog, ds[1..], had, more)
  }

  method FindCandidates(devices: seq<Entry>, catalog: seq<Driver>, labelText: string) returns (names: seq<string>)
    ensures names == Candidates(devices, catalog, labelText)
  {
    hide Runs;
    names := [];
    for k := 0 to |devices|
      invariant names == Candidates(devices[..k], catalog, labelText)
    {
      assert devices[..k + 1][..k] == devices[..k];
      var goes := false;
      var j := 0;
      while j < |catalog|
        invariant j <= |catalog|
        invariant !goes && forall i :: 0 <= i < j ==>
                  !(catalog[i].labelText == labelText && Runs(catalog[i], devices[k]))
      {
        if catalog[j].labelText == labelText && Runs(catalog[j], devices[k]) {
          goes := true;
          break;
        }
        j := j + 1;
      }
      assert goes <==> Goes(devices[k], catalog, labelText);
      if goes {
        names := names + [devices[k].name];
      }
    }
    assert devices[..|devices|] == devices;
  }

  method ConfiguredSelections(devices: seq<Entry>, catalog: seq<Driver>, ds: seq<Selection>, previous: seq<string>)
    returns (r: Result<seq<string>, Trouble>)
    ensures r == Resolve(devices, catalog, ds, set p | p in previous, [])
  {
    var had := set p | p in previous;
    var out: seq<string> := [];
    for k := 0 to |ds|
      invariant Resolve(devices, catalog, ds, had, []) == Resolve(devices, catalog, ds[k..], had, out)
    {
      assert ds[k..][1..] == ds[k + 1..];
      if ds[k].remote != "" {
        return Failure(RemoteDriver);
      }
      var names := FindCandidates(devices, catalog, ds[k].labelText);
      if |names| > 1 {
        var kept := Kept(names, had);
        if kept == [] {
          return Failure(Ambiguous(ds[k].labelText));
        }
        names := kept;
      }
      if names == [] {
        return Failure(NoDevice(ds[k].labelText));
      }
      var added := AddNames(out, names);
      if added.Failure? {
        return added;
      }
      out := added.value;
    }
    return Success(out);
  }

  method AddNames(was: seq<string>, names: seq<string>) returns (r: Result<seq<string>, Trouble>)
    ensures r == Added(was, names)
  {
    var out := was;
    for k := 0 to |names|
      invariant Added(was, names) == Added(out, names[k..])
    {
      assert names[k..][1..] == names[k + 1..];
      if names[k] in out {
        return Failure(Duplicate(names[k]));
      }
      out := out + [names[k]];
    }
    return Success(out);
  }

  // Round trip

  /** Every label of a profile comes from a name of it, and every name has its label there. */
  lemma {:induction false} LabelsFacts(
      devices: seq<Entry>, catalog: seq<Driver>, profile: seq<string>, out: seq<string>)
    requires Distinct(out) && Labels(devices, catalog, profile, out).Success?
    ensures var ls := Labels(devices, catalog, profile, out).value;
            && Distinct(ls)
            && (forall l :: l in out ==> l in ls)
            && (forall l :: l in ls && l !in out ==>
                exists p :: p in profile && LabelOf(devices, catalog, p) == Success(l))
            && (forall p :: p in profile ==>
                LabelOf(devices, catalog, p).Success? && LabelOf(devices, catalog, p).value in ls)
    decreases |profile|
  {
    hide LabelOf;
    if profile == [] {
    } else {
      var l := LabelOf(devices, catalog, profile[0]).value;
      var more := if l in out then out else out + [l];
      LabelsFacts(devices, catalog, profile[1..], more);
      assert l in more;
      assert profile[0] in profile;
    }
  }

  /** A longer profile has the same labels first, and then the new ones. */
  lemma {:induction false} LabelsExtend(
      devices: seq<Entry>, catalog: seq<Driver>, profile: seq<string>, name: string, out: seq<string>)
    requires Labels(devices, catalog, profile, out).Success? && LabelOf(devices, catalog, name).Success?
    ensures var ls, l := Labels(devices, catalog, profile, out).value, LabelOf(devices, catalog, name).value;
            Labels(devices, catalog, profile + [name], out) == Success(if l in ls then ls else ls + [l])
    decreases |profile|
  {
    hide LabelOf;
    var all := profile + [name];
    if profile == [] {
      assert all[1..] == [];
    } else {
      assert all[0] == profile[0] && all[1..] == profile[1..] + [name];
      var l := LabelOf(devices, catalog, profile[0]).value;
      LabelsExtend(devices, catalog, profile[1..], name, if l in out then out else out + [l]);
    }
  }

  lemma {:induction false} CandidateNames(devices: seq<Entry>, catalog: seq<Driver>, labelText: string)
    requires UniqueNames(devices)
    ensures Distinct(Candidates(devices, catalog, labelText))
    ensures forall n :: n in Candidates(devices, catalog, labelText)
              <==> exists i :: 0 <= i < |devices| && devices[i].name == n && Goes(devices[i], catalog, labelText)
    decreases |devices|
  {
    hide Goes;
    if devices == [] {
    } else {
      var k := |devices| - 1;
      CandidateNames(devices[..k], catalog, labelText);
      assert forall i :: 0 <= i < k ==> devices[..k][i] == devices[i];
      assert devices[k].name !in Candidates(devices[..k], catalog, labelText);
    }
  }

  /** A configured name is a candidate for its own label. */
  lemma OwnLabel(devices: seq<Entry>, catalog: seq<Driver>, name: string)
    requires UniqueNames(devices) && LabelOf(devices, catalog, name).Success?
    ensures name in Candidates(devices, catalog, LabelOf(devices, catalog, name).value)
  {
    var i := Find(devices, name);
    var d := LineOf(devices[i], catalog).value;
    CandidateNames(devices, catalog, d.labelText);
    assert d in catalog && Runs(d, devices[i]);
    assert Goes(devices[i], catalog, d.labelText);
  }

  lemma {:induction false} KeptOnce(names: seq<string>, had: set<string>)
    requires Distinct(names)
    ensures Distinct(Kept(names, had))
  {
    if names == [] {
    } else {
      KeptOnce(names[..|names| - 1], had);
    }
  }

  /** What is taken for a label that a name already had may mean: exactly those. */
  lemma TakenKnown(devices: seq<Entry>, catalog: seq<Driver>, labelText: string, had: set<string>, name: string)
    requires UniqueNames(devices) && name in had && name in Candidates(devices, catalog, labelText)
    ensures var r := Taken(devices, catalog, labelText, had);
            && r.Success? && Distinct(r.value)
            && forall n :: n in r.value <==> n in had && n in Candidates(devices, catalog, labelText)
  {
    CandidateNames(devices, catalog, labelText);
    var names := Candidates(devices, catalog, labelText);
    KeptOnce(names, had);
    assert name in Kept(names, had);
    if |names| <= 1 {
      assert names == [names[0]];
    }
  }

  lemma {:induction false} AddedFacts(out: seq<string>, names: seq<string>)
    requires Distinct(names)
    ensures var r := Added(out, names);
            if exists n :: n in names && n in out then r.Failure? && r.error.Duplicate? else r == Success(out + names)
    decreases |names|
  {
    if names == [] {
      assert out + names == out;
    } else if names[0] !in out {
      AddedFacts(out + [names[0]], names[1..]);
      assert out + [names[0]] + names[1..] == out + names;
      assert names[0] !in names[1..];
      assert names == [names[0]] + names[1..];
    } else {
      assert names[0] in names;
    }
  }

  /** Some name the profile had that a label may mean. */
  ghost predicate Known(devices: seq<Entry>, catalog: seq<Driver>, had: set<string>, labelText: string) {
    exists n :: n in had && n in Candidates(devices, catalog, labelText)
  }

  /** What of the profile a label may mean. */
  function Means(devices: seq<Entry>, catalog: seq<Driver>, had: set<string>, labelText: string): set<string> {
    set n | n in had && n in Candidates(devices, catalog, labelText)
  }

  /** Two labels, or a label and what was taken before, mean a common instance. */
  ghost predicate Clash(devices: seq<Entry>, catalog: seq<Driver>, had: set<string>, ls: seq<string>, out: set<string>)
    decreases |ls|
  {
    ls != [] &&
      var now := Means(devices, catalog, had, ls[0]);
      now * out != {} || Clash(devices, catalog, had, ls[1..], out + now)
  }

  function Selections(ls: seq<string>): (r: seq<Selection>)
    ensures |r| == |ls|
  {
    seq(|ls|, i requires 0 <= i < |ls| => Selection(ls[i], ""))
  }

  /** Exactly what was there before and what the labels mean. */
  ghost predicate Covers(
    devices: seq<Entry>, catalog: seq<Driver>, had: set<string>, ls: seq<string>, out: seq<string>, all: seq<string>)
  {
    forall n :: n in all <==> n in out || exists l :: l in ls && n in Means(devices, catalog, had, l)
  }

  lemma JoinOnce(a: seq<string>, b: seq<string>)
    requires Distinct(a) && Distinct(b) && forall n :: n in b ==> n !in a
    ensures Distinct(a + b)
  {
    forall i, j | 0 <= i < j < |a + b|
      ensures (a + b)[i] != (a + b)[j]
    {
      if i < |a| <= j {
        assert a[i] in a && b[j - |a|] in b;
      }
    }
  }

  lemma {:induction false} ResolveKnown(
    devices: seq<Entry>, catalog: seq<Driver>, ls: seq<string>, had: set<string>, out: seq<string>)
    requires UniqueNames(devices) && Distinct(out) && forall l :: l in ls ==> Known(devices, catalog, had, l)
    ensures var r := Resolve(devices, catalog, Selections(ls), had, out);
            && (r.Success? <==> !Clash(devices, catalog, had, ls, set n | n in out))
            && (r.Failure? ==> r.error.Duplicate?)
            && (r.Success? ==> Distinct(r.value) && Covers(devices, catalog, had, ls, out, r.value))
    decreases |ls|
  {
    hide Taken, Candidates;
    if ls == [] {
    } else {
      assert ls[0] in ls && Known(devices, catalog, had, ls[0]);
      var name :| name in had && name in Candidates(devices, catalog, ls[0]);
      TakenKnown(devices, catalog, ls[0], had, name);
      var names := Taken(devices, catalog, ls[0], had).value;
      AddedFacts(out, names);
      assert Selections(ls)[1..] == Selections(ls[1..]);
      var now := Means(devices, catalog, had, ls[0]);
      assert (exists n :: n in names && n in out) <==> now * (set n | n in out) != {} by {
        assert forall n :: n in names <==> n in now;
        assert forall n :: n in now * (set m | m in out) <==> n in names && n in out;
      }
      if now * (set n | n in out) == {} {
        ResolveStep(devices, catalog, ls, had, out, names);
      }
    }
  }

  lemma ResolveStep(
    devices: seq<Entry>, catalog: seq<Driver>, ls: seq<string>, had: set<string>, out: seq<string>, names: seq<string>)
    requires UniqueNames(devices) && Distinct(out) && forall l :: l in ls ==> Known(devices, catalog, had, l)
    requires ls != [] && Distinct(names) && forall n :: n in names <==> n in Means(devices, catalog, had, ls[0])
    requires forall n :: n in names ==> n !in out
    ensures var r := Resolve(devices, catalog, Selections(ls[1..]), had, out + names);
            && (r.Success? <==>
                !Clash(devices, catalog, had, ls[1..], (set n | n in out) + Means(devices, catalog, had, ls[0])))
            && (r.Failure? ==> r.error.Duplicate?)
            && (r.Success? ==> Distinct(r.value) && Covers(devices, catalog, had, ls, out, r.value))
    decreases |ls|, 0
  {
    hide Taken, Candidates, Means, Resolve, Clash;
    var more := out + names;
    assert (set n | n in more) == (set n | n in out) + Means(devices, catalog, had, ls[0]);
    JoinOnce(out, names);
    ResolveKnown(devices, catalog, ls[1..], had, more);
    assert ls == [ls[0]] + ls[1..];
  }

  /** Two different labels of a list mean a common instance of the profile. */
  ghost predicate Share(devices: seq<Entry>, catalog: seq<Driver>, had: set<string>, ls: seq<string>) {
    exists i, j :: 0 <= i < j < |ls|
      && Means(devices, catalog, had, ls[i]) * Means(devices, catalog, had, ls[j]) != {}
  }

  /** Some label means something of a set. */
  ghost predicate Hits(devices: seq<Entry>, catalog: seq<Driver>, had: set<string>, ls: seq<string>, out: set<string>) {
    exists i :: 0 <= i < |ls| && Means(devices, catalog, had, ls[i]) * out != {}
  }

  lemma {:induction false} ClashIsShare(
      devices: seq<Entry>, catalog: seq<Driver>, had: set<string>, ls: seq<string>, out: set<string>)
    ensures Clash(devices, catalog, had, ls, out) <==>
            Share(devices, catalog, had, ls) || Hits(devices, catalog, had, ls, out)
    decreases |ls|
  {
    hide Means;
    if ls == [] {
    } else {
      var now := Means(devices, catalog, had, ls[0]);
      ClashIsShare(devices, catalog, had, ls[1..], out + now);
      ShareUnfolds(devices, catalog, had, ls);
      HitsUnfolds(devices, catalog, had, ls, out);
      HitsUnion(devices, catalog, had, ls[1..], out, now);
    }
  }

  lemma ShareUnfolds(devices: seq<Entry>, catalog: seq<Driver>, had: set<string>, ls: seq<string>)
    requires ls != []
    ensures Share(devices, catalog, had, ls)
       <==> (Share(devices, catalog, had, ls[1..])
             || Hits(devices, catalog, had, ls[1..], Means(devices, catalog, had, ls[0])))
  {
    hide Means;
    var rest := ls[1..];
    if Share(devices, catalog, had, rest) {
      var i, j :| 0 <= i < j < |rest| &&
          Means(devices, catalog, had, rest[i]) * Means(devices, catalog, had, rest[j]) != {};
      assert ls[i + 1] == rest[i] && ls[j + 1] == rest[j];
    }
    if Hits(devices, catalog, had, rest, Means(devices, catalog, had, ls[0])) {
      var i :| 0 <= i < |rest| && Means(devices, catalog, had, rest[i]) * Means(devices, catalog, had, ls[0]) != {};
      assert ls[i + 1] == rest[i];
      assert Means(devices, catalog, had, ls[0]) * Means(devices, catalog, had, ls[i + 1])
          == Means(devices, catalog, had, ls[i + 1]) * Means(devices, catalog, had, ls[0]);
    }
    if Share(devices, catalog, had, ls) {
      var i, j :| 0 <= i < j < |ls| && Means(devices, catalog, had, ls[i]) * Means(devices, catalog, had, ls[j]) != {};
      assert ls[j] == rest[j - 1];
      if i > 0 {
        assert ls[i] == rest[i - 1];
      } else {
        assert Means(devices, catalog, had, ls[j]) * Means(devices, catalog, had, ls[i])
            == Means(devices, catalog, had, ls[i]) * Means(devices, catalog, had, ls[j]);
      }
    }
  }

  lemma HitsUnfolds(devices: seq<Entry>, catalog: seq<Driver>, had: set<string>, ls: seq<string>, out: set<string>)
    requires ls != []
    ensures Hits(devices, catalog, had, ls, out)
       <==> Means(devices, catalog, had, ls[0]) * out != {} || Hits(devices, catalog, had, ls[1..], out)
  {
    hide Means;
    assert forall i :: 0 <= i < |ls| - 1 ==> ls[1..][i] == ls[i + 1];
    if Hits(devices, catalog, had, ls[1..], out) {
      var i :| 0 <= i < |ls[1..]| && Means(devices, catalog, had, ls[1..][i]) * out != {};
      assert Means(devices, catalog, had, ls[i + 1]) * out != {};
    }
    if Hits(devices, catalog, had, ls, out) {
      var i :| 0 <= i < |ls| && Means(devices, catalog, had, ls[i]) * out != {};
      if i > 0 {
        assert ls[1..][i - 1] == ls[i];
      }
    }
  }

  lemma HitsUnion(
      devices: seq<Entry>, catalog: seq<Driver>, had: set<string>, ls: seq<string>, a: set<string>,
      b: set<string>)
    ensures Hits(devices, catalog, had, ls, a + b) <==>
            Hits(devices, catalog, had, ls, a) || Hits(devices, catalog, had, ls, b)
  {
    hide Means;
    forall i | 0 <= i < |ls|
      ensures Means(devices, catalog, had, ls[i]) * (a + b)
           == Means(devices, catalog, had, ls[i]) * a + Means(devices, catalog, had, ls[i]) * b
    {
    }
  }

  lemma AllKnown(devices: seq<Entry>, catalog: seq<Driver>, profile: seq<string>, had: set<string>, l: string)
    requires UniqueNames(devices) && had == set p | p in profile
    requires Labels(devices, catalog, profile, []).Success? && l in Labels(devices, catalog, profile, []).value
    ensures Known(devices, catalog, had, l)
  {
    hide Labels, LabelOf, Candidates, UniqueNames;
    LabelsFacts(devices, catalog, profile, []);
    var p :| p in profile && LabelOf(devices, catalog, p) == Success(l);
    OwnLabel(devices, catalog, p);
  }

  lemma NameMeant(devices: seq<Entry>, catalog: seq<Driver>, profile: seq<string>, had: set<string>, p: string)
    requires UniqueNames(devices) && had == (set q | q in profile) && p in profile
    requires Labels(devices, catalog, profile, []).Success?
    ensures exists l :: l in Labels(devices, catalog, profile, []).value && p in Means(devices, catalog, had, l)
  {
    hide Labels, LabelOf, Candidates, UniqueNames;
    LabelsFacts(devices, catalog, profile, []);
    OwnLabel(devices, catalog, p);
    assert p in Means(devices, catalog, had, LabelOf(devices, catalog, p).value);
  }

  /** A profile translated to labels and back, against itself, gives the same instances,
      each once; unless, and only unless, two of its labels share an instance, and then the
      duplicate is what it fails for. */
  lemma EkosRoundTrip(devices: seq<Entry>, catalog: seq<Driver>, profile: seq<string>)
    requires UniqueNames(devices) && Labels(devices, catalog, profile, []).Success?
    ensures var ls := Labels(devices, catalog, profile, []).value;
            var had := set p | p in profile;
            var r := Resolve(devices, catalog, Selections(ls), had, []);
            && (r.Success? <==> !Share(devices, catalog, had, ls))
            && (r.Failure? ==> r.error.Duplicate?)
            && (r.Success? ==> Distinct(r.value) && (set n | n in r.value) == had)
  {
    hide Resolve, Clash, Share, Hits, Labels, LabelOf, Candidates, Means, Known, UniqueNames;
    var ls := Labels(devices, catalog, profile, []).value;
    var had := set p | p in profile;
    forall l | l in ls
      ensures Known(devices, catalog, had, l)
    {
      AllKnown(devices, catalog, profile, had, l);
    }
    assert (set n: string | n in []) == {};
    ResolveKnown(devices, catalog, ls, had, []);
    ClashIsShare(devices, catalog, had, ls, {});
    NoHits(devices, catalog, had, ls);
    var r := Resolve(devices, catalog, Selections(ls), had, []);
    if r.Success? {
      forall n
        ensures n in r.value <==> n in had
      {
        if n in had {
          NameMeant(devices, catalog, profile, had, n);
        }
        MeansKnown(devices, catalog, had, ls);
      }
    }
  }

  lemma NoHits(devices: seq<Entry>, catalog: seq<Driver>, had: set<string>, ls: seq<string>)
    ensures !Hits(devices, catalog, had, ls, {})
  {
    hide Means;
  }

  lemma MeansKnown(devices: seq<Entry>, catalog: seq<Driver>, had: set<string>, ls: seq<string>)
    ensures forall l :: l in ls ==> Means(devices, catalog, had, l) <= had
  {
  }

  /** In general, whatever is returned was in the profile or is the only configured match
      of one of the labels asked for. */
  lemma {:induction false} NothingElseEnabled(
    devices: seq<Entry>, catalog: seq<Driver>, ds: seq<Selection>, had: set<string>, out: seq<string>)
    requires Resolve(devices, catalog, ds, had, out).Success?
    ensures forall n :: n in Resolve(devices, catalog, ds, had, out).value ==>
              n in out || n in had || exists d :: d in ds && Candidates(devices, catalog, d.labelText) == [n]
    decreases |ds|
  {
    hide Candidates;
    if ds == [] {
    } else {
      var names := Taken(devices, catalog, ds[0].labelText, had).value;
      var more := Added(out, names).value;
      AddedMembers(out, names);
      NothingElseEnabled(devices, catalog, ds[1..], had, more);
      TakenOnly(devices, catalog, ds[0].labelText, had);
      assert ds[0] in ds && forall d :: d in ds[1..] ==> d in ds;
    }
  }

  lemma TakenOnly(devices: seq<Entry>, catalog: seq<Driver>, labelText: string, had: set<string>)
    requires Taken(devices, catalog, labelText, had).Success?
    ensures forall n :: n in Taken(devices, catalog, labelText, had).value ==>
              n in had || Candidates(devices, catalog, labelText) == [n]
  {
    hide Candidates;
  }

  lemma {:induction false} AddedMembers(out: seq<string>, names: seq<string>)
    requires Added(out, names).Success?
    ensures forall n :: n in Added(out, names).value <==> n in out || n in names
    decreases |names|
  {
    if names == [] {
    } else {
      AddedMembers(out + [names[0]], names[1..]);
      assert names == [names[0]] + names[1..];
    }
  }
}
