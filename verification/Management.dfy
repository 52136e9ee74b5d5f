/** The host's configuration: saving it, and reconciling what runs with what it says. */
module Management {
  import opened Configuration
  import opened Wire

  // Profiles

  /** How many of the first n devices are selected. */
  function Selected(devices: seq<Entry>, selected: set<string>, n: nat): (names: set<string>)
    requires n <= |devices|
  {
    set i | 0 <= i < n && devices[i].name in selected :: devices[i].name
  }

  /** Count matches: the enabled names are exactly the selected ones. */
  method ProfileMatches(devices: seq<Entry>, selected: set<string>) returns (ok: bool)
    requires UniqueNames(devices)
    ensures ok <==> EnabledNames(devices) == selected
  {
    var seen := 0;
    for k := 0 to |devices|
      invariant seen == |Selected(devices, selected, k)|
      invariant forall i :: 0 <= i < k ==> (devices[i].Enabled() <==> devices[i].name in selected)
    {
      var e := devices[k];
      if e.Enabled() != (e.name in selected) {
        EnabledIs(devices, e.name);
        FindUnique(devices, k);
        return false;
      }
      if e.name in selected {
        assert Selected(devices, selected, k + 1) == Selected(devices, selected, k) + {e.name};
        assert e.name !in Selected(devices, selected, k);
        seen := seen + 1;
      } else {
        assert Selected(devices, selected, k + 1) == Selected(devices, selected, k);
      }
    }
    var all := Selected(devices, selected, |devices|);
    assert all == EnabledNames(devices);
    SameSize(all, selected);
    return seen == |selected|;
  }

  lemma SameSize(a: set<string>, b: set<string>)
    requires a <= b
    ensures |a| == |b| <==> a == b
  {
    assert b == a + (b - a);
  }

  // The host

  /** The text of configurations, and which drivers there are. */
  datatype Codec = Codec(
    decode: string -> Option<File>, encode: File -> string, hash: string -> string, known: set<string>) {
    /** What is written reads back the same. */
    ghost predicate Lawful() {
      forall f: File :: decode(encode(f)) == Some(f)
    }
  }

  datatype Disk = Absent | Unreadable | Holds(raw: string)

  /** What one call meets: the file, whether it can be replaced, which executables are
      there and not being inspected, which entries build, and which runtimes will not stop. */
  datatype World = World(
    disk: Disk, writable: bool, usable: string -> bool, builds: Entry -> bool, starts: Entry -> bool,
    stuck: set<string>, listening: bool)

  datatype Outcome = Done | Refused(why: string) | SavedBut(name: string)

  datatype Action = Enable | Disable | Delete | Restart

  /** A profile: a name, a port, and instance names with the host they are on. */
  datatype Profile = Profile(name: string, port: int, drivers: seq<(string, string)>)

  /** A running entry. What it runs was fixed when it was started. */
  class Runtime {
    const entry: Entry
    const built: bool

    constructor (entry: Entry, built: bool)
      ensures this.entry == entry && this.built == built
    {
      this.entry := entry;
      this.built := built;
    }
  }

  /** The INDI listener and the runtimes it exposes. */
  class Listener {
    const port: int
    const listen: string
    var children: seq<Runtime>

    constructor (port: int, listen: string)
      ensures this.port == port && this.listen == listen && children == []
    {
      this.port := port;
      this.listen := listen;
      children := [];
    }
  }

  /** Same flags, and the same name nowhere else: what saving a profile selects. */
  function WithEnable(e: Entry, on: bool): Entry {
    e.(enable := Some(on))
  }

  function Flagged(devices: seq<Entry>, selected: set<string>): (r: seq<Entry>)
    ensures |r| == |devices|
  {
    seq(|devices|, i requires 0 <= i < |devices| => WithEnable(devices[i], devices[i].name in selected))
  }

  function NamesOf(devices: seq<Entry>): set<string> {
    set e | e in devices :: e.name
  }

  lemma FlaggedEnables(devices: seq<Entry>, selected: set<string>)
    requires selected <= NamesOf(devices)
    ensures EnabledNames(Flagged(devices, selected)) == selected
  {
    var f := Flagged(devices, selected);
    forall n | n in selected
      ensures n in EnabledNames(f)
    {
      var e :| e in devices && e.name == n;
      var i :| 0 <= i < |devices| && devices[i] == e;
      assert f[i] in f && f[i].Enabled();
    }
  }

  /** The runtimes to expose, in configuration order. */
  function Routes(devices: seq<Entry>, active: map<string, Runtime>): seq<Runtime> {
    if devices == [] then []
    else
      var n := |devices| - 1;
      var name := devices[n].name;
      Routes(devices[..n], active) + if name in active && active[name].built then [active[name]] else []
  }

  /** Exactly the built runtimes of configured devices, each where its device stands. */
  lemma {:induction false} RoutesIff(devices: seq<Entry>, active: map<string, Runtime>, r: Runtime)
    ensures r in Routes(devices, active) <==>
            r.built && exists e :: e in devices && e.name in active && active[e.name] == r
    decreases |devices|
  {
    if devices == [] {
    } else {
      var n := |devices| - 1;
      RoutesIff(devices[..n], active, r);
      assert devices == devices[..n] + [devices[n]];
    }
  }

  lemma {:induction false} RoutesInTwo(front: seq<Entry>, back: seq<Entry>, active: map<string, Runtime>)
    ensures Routes(front + back, active) == Routes(front, active) + Routes(back, active)
    decreases |back|
  {
    if back == [] {
      assert front + back == front;
    } else {
      var n := |back| - 1;
      assert (front + back)[..|front + back| - 1] == front + back[..n];
      RoutesInTwo(front, back[..n], active);
    }
  }

  class Management {
    const codec: Codec
    var config: File
    var draft: string
    var revision: string
    var problem: string
    var disk: Disk
    var active: map<string, Runtime>
    var indi: Listener?
    var profile: string
    var selected: set<string>

    /** The configuration in force was validated, or is the empty one at the start. */
    ghost predicate Valid()
      reads this
    {
      && (config == NO_FILE || WellFormed(config, codec.known))
      && UniqueNames(config.devices)
    }

    /** The listener is the one the configuration asks for. */
    ghost predicate Listening()
      reads this
    {
      && (indi != null <==> config.indiPort > 0)
      && (indi != null ==> indi.port == config.indiPort && indi.listen == config.indiListen)
    }

    /** The active profile, if any, is what is enabled. */
    ghost predicate Labelled()
      reads this
    {
      profile != "" ==> EnabledNames(config.devices) == selected
    }

    /** What runs is what is enabled, and what is exposed is what runs. */
    ghost predicate Reconciled()
      reads this, indi
    {
      && active.Keys == EnabledNames(config.devices)
      && (indi != null ==> indi.children == Routes(config.devices, active))
    }

    constructor (codec: Codec)
      ensures Valid() && config == NO_FILE && active == map[] && profile == "" && indi == null && this.codec == codec
      ensures disk == Absent && revision == ""
    {
      this.codec := codec;
      config := NO_FILE;
      draft, revision, problem, profile := "", "", "", "";
      disk := Absent;
      active := map[];
      indi := null;
      selected := {};
    }

    /** Decode and check; then every enabled entry must be runnable here. */
    method Validate(raw: string, w: World) returns (f: Option<File>)
      ensures f.Some? <==> codec.decode(raw).Some? && WellFormed(codec.decode(raw).value, codec.known)
                           && Runnable(codec.decode(raw).value, w)
      ensures f.Some? ==> f == codec.decode(raw)
    {
      hide WellFormed;
      var d := codec.decode(raw);
      if d.None? {
        return None;
      }
      var ok := CheckFile(d.value, codec.known);
      if !ok {
        return None;
      }
      for k := 0 to |d.value.devices|
        invariant forall i :: 0 <= i < k ==> Runs(d.value.devices[i], w)
      {
        if !Runs(d.value.devices[k], w) {
          return None;
        }
      }
      return d;
    }

    static predicate Runs(e: Entry, w: World) {
      e.Enabled() ==> w.usable(e.exec) && w.builds(e)
    }

    static predicate Runnable(f: File, w: World) {
      forall i :: 0 <= i < |f.devices| ==> Runs(f.devices[i], w)
    }

    static lemma RunnableIff(f: File, w: World)
      ensures Runnable(f, w) <==>
              forall e :: e in f.devices && e.enable != Some(false) ==> w.usable(e.exec) && w.builds(e)
    {
      if Runnable(f, w) {
        forall e | e in f.devices && e.enable != Some(false)
          ensures w.usable(e.exec) && w.builds(e)
        {
          var i :| 0 <= i < |f.devices| && f.devices[i] == e;
          assert Runs(f.devices[i], w);
        }
      }
    }

    static predicate SameListener(f: File, g: File) {
      f.indiPort == g.indiPort && f.indiListen == g.indiListen
    }

    /** Whether a save goes ahead, from what is there before it. */
    ghost predicate Accepts(raw: string, expected: string, w: World)
      reads this
    {
      && !w.disk.Unreadable? && w.writable
      && (if w.disk.Holds? then codec.hash(w.disk.raw) else "") == expected
      && codec.decode(raw).Some?
      && var f := codec.decode(raw).value;
         && WellFormed(f, codec.known)
         && (forall e :: e in f.devices && e.enable != Some(false) ==> w.usable(e.exec) && w.builds(e))
         && (EnabledNames(f.devices) == {}
             || (f.indiPort == config.indiPort && f.indiListen == config.indiListen
                 && f.AlpacaEnabled() == config.AlpacaEnabled()))
    }

    method AnyEnabled(devices: seq<Entry>) returns (any: bool)
      ensures any <==> EnabledNames(devices) != {}
    {
      for k := 0 to |devices|
        invariant forall i :: 0 <= i < k ==> !devices[i].Enabled()
      {
        if devices[k].Enabled() {
          assert devices[k] in devices && devices[k].name in EnabledNames(devices);
          return true;
        }
      }
      return false;
    }

    /** Everything up to the write. */
    method Prepare(raw: string, expected: string, w: World) returns (f: Option<File>)
      ensures f.Some? <==> Accepts(raw, expected, w)
      ensures f.Some? ==> f == codec.decode(raw)
    {
      hide WellFormed, Runnable, EnabledNames;
      if w.disk.Unreadable? {
        return None;
      }
      var actual := if w.disk.Holds? then codec.hash(w.disk.raw) else "";
      if actual != expected {
        return None;
      }
      if codec.decode(raw).Some? {
        RunnableIff(codec.decode(raw).value, w);
      }
      var v := Validate(raw, w);
      if v.None? {
        return None;
      }
      if v.value.AlpacaEnabled() != config.AlpacaEnabled() || !SameListener(v.value, config) {
        var any := AnyEnabled(v.value.devices);
        if any {
          return None;
        }
      }
      if !w.writable {
        return None;
      }
      return v;
    }

    method Start(e: Entry, w: World)
      modifies this`active
      ensures active.Keys == old(active.Keys) + {e.name} && fresh(active[e.name]) && active[e.name].entry == e
      ensures active == old(active)[e.name := active[e.name]]
    {
      var r := new Runtime(e, w.starts(e));
      active := active[e.name := r];
    }

    /** A runtime that will not stop stays. */
    method Stop(name: string, w: World) returns (ok: bool)
      modifies this`active
      ensures ok <==> name !in old(active) || name !in w.stuck
      ensures active == if ok then old(active) - {name} else old(active)
    {
      if name !in active {
        return true;
      }
      if name in w.stuck {
        return false;
      }
      active := active - {name};
      return true;
    }

    /** Stop all that should no longer run, in no particular order. */
    method StopUnwanted(w: World) returns (stuck: Option<string>)
      requires UniqueNames(config.devices)
      modifies this`active
      ensures forall n :: n in active ==> n in old(active) && active[n] == old(active)[n]
      ensures forall n :: n in old(active) && n in EnabledNames(config.devices) ==> n in active
      ensures stuck.None? ==> active.Keys <= EnabledNames(config.devices)
      ensures stuck.None? ==> forall n :: n in old(active) && n !in EnabledNames(config.devices) ==> n !in w.stuck
      ensures stuck.Some? ==>
              stuck.value in active && stuck.value in w.stuck && stuck.value !in EnabledNames(config.devices)
    {
      hide EnabledNames, WellFormed;
      var names := active.Keys;
      while names != {}
        invariant names <= active.Keys
        invariant forall n :: n in active ==> n in old(active) && active[n] == old(active)[n]
        invariant forall n :: n in old(active) && n in EnabledNames(config.devices) ==> n in active
        invariant forall n :: n in active && n !in names ==> n in EnabledNames(config.devices)
        invariant forall n :: n in old(active) && n !in names && n !in EnabledNames(config.devices) ==> n !in w.stuck
        decreases |names|
      {
        var name :| name in names;
        names := names - {name};
        EnabledIs(config.devices, name);
        var i := Find(config.devices, name);
        if i == |config.devices| || !config.devices[i].Enabled() {
          var ok := Stop(name, w);
          if !ok {
            return Some(name);
          }
        }
      }
      return None;
    }

    /** Start all that should run and does not, in configuration order. */
    method StartMissing(w: World)
      requires active.Keys <= EnabledNames(config.devices)
      modifies this`active
      ensures active.Keys == EnabledNames(config.devices)
      ensures forall n :: n in old(active) ==> n in active && active[n] == old(active)[n]
      ensures forall n :: n in active && n !in old(active) ==> fresh(active[n]) && active[n].entry in config.devices
    {
      hide WellFormed;
      for k := 0 to |config.devices|
        invariant active.Keys <= EnabledNames(config.devices)
        invariant forall i :: 0 <= i < k && config.devices[i].Enabled() ==> config.devices[i].name in active
        invariant forall n :: n in old(active) ==> n in active && active[n] == old(active)[n]
        invariant forall n :: n in active && n !in old(active) ==> fresh(active[n]) && active[n].entry in config.devices
      {
        var e := config.devices[k];
        if e.Enabled() && e.name !in active {
          Start(e, w);
        }
      }
    }

    method ComputeRoutes() returns (children: seq<Runtime>)
      ensures children == Routes(config.devices, active)
    {
      children := [];
      for k := 0 to |config.devices|
        invariant children == Routes(config.devices[..k], active)
      {
        assert config.devices[..k + 1][..k] == config.devices[..k];
        var n := config.devices[k].name;
        if n in active && active[n].built {
          children := children + [active[n]];
        }
      }
      assert config.devices[..|config.devices|] == config.devices;
    }

    /** Expose what runs. */
    method SyncRoutes()
      modifies indi
      ensures indi != null ==> indi.children == Routes(config.devices, active)
    {
      var children := ComputeRoutes();
      if indi != null {
        indi.children := children;
      }
    }

    /** Forget the active profile; flags stay as they are. */
    method StopWebProfile()
      modifies this`profile, this`selected, indi
      ensures profile == "" && selected == {}
      ensures indi != null ==> indi.children == Routes(config.devices, active)
    {
      profile, selected := "", {};
      SyncRoutes();
    }

    /** Open the listener the configuration asks for. */
    method StartIndi()
      requires indi == null && config.indiPort >= 0
      modifies this`indi
      ensures indi != null <==> config.indiPort > 0
      ensures indi != null ==> fresh(indi) && indi.port == config.indiPort && indi.listen == config.indiListen
    {
      if config.indiPort > 0 {
        indi := new Listener(config.indiPort, config.indiListen);
      }
    }

    /** A configuration just put in force: close the old listener if it differs. */
    method Relisten(before: File)
      requires config.indiPort >= 0
      modifies this`indi, this`profile, this`selected, indi
      ensures if SameListener(before, config)
              then indi == old(indi) && profile == old(profile) && selected == old(selected)
              else Listening() && profile == "" && (indi == null || fresh(indi))
    {
      if !SameListener(before, config) {
        StopWebProfile();
        indi := null;
        StartIndi();
      }
    }

    /** A profile that no longer says what is enabled is no longer active. */
    method DropStaleProfile()
      requires UniqueNames(config.devices)
      modifies this`profile, this`selected
      ensures Labelled()
      ensures if old(profile) == "" || old(Labelled())
              then profile == old(profile) && selected == old(selected)
              else profile == ""
    {
      if profile != "" {
        var matches := ProfileMatches(config.devices, selected);
        if !matches {
          profile, selected := "", {};
        }
      }
    }

    /** Something runs that should not, and will not stop. */
    ghost predicate Obstructed(running: set<string>, w: World)
      reads this
    {
      exists n :: n in running && n !in EnabledNames(config.devices) && n in w.stuck
    }

    /** Bring what runs in line with a configuration just put in force. */
    method Reconcile(before: File, w: World) returns (r: Outcome)
      requires UniqueNames(config.devices) && config.indiPort >= 0 && problem == ""
      modifies this`problem, this`active, this`indi, this`profile, this`selected, indi
      ensures !r.Refused?
      ensures r.Done? ==>
                && Reconciled() && Labelled() && problem == ""
                && (forall n :: n in old(active) && n in active ==> active[n] == old(active)[n])
                && (forall n :: n in active && n !in old(active) ==>
                    fresh(active[n]) && active[n].entry in config.devices)
                && (if SameListener(before, config) then indi == old(indi) else Listening())
      ensures r.SavedBut? <==> Obstructed(old(active).Keys, w)
      ensures indi == old(indi) || indi == null || fresh(indi)
      ensures r.SavedBut? ==>
                && indi == old(indi) && profile == old(profile) && selected == old(selected)
                && problem != "" && r.name in w.stuck && r.name in active && r.name !in EnabledNames(config.devices)
                && (forall n :: n in active ==> n in old(active) && active[n] == old(active)[n])
    {
      hide EnabledNames, Routes;
      var stuck := StopUnwanted(w);
      if stuck.Some? {
        problem := stuck.value + " has not stopped yet; try again";
        return SavedBut(stuck.value);
      }
      Relisten(before);
      StartMissing(w);
      DropStaleProfile();
      SyncRoutes();
      return Done;
    }

    /** Save a configuration and reconcile. Refused, nothing changes. Done, what runs is
        exactly what is enabled; whatever ran and still should is the same runtime. When a
        runtime will not stop, the rest is left undone; the listener too, and saving the
        same settings again then does not bring it in line. */
    method Save(raw: string, expected: string, w: World) returns (r: Outcome)
      requires Valid()
      modifies this, indi
      ensures r.Refused? <==> !old(Accepts(raw, expected, w))
      ensures r.Refused? ==> unchanged(this) && (indi != null ==> unchanged(indi))
      ensures !r.Refused? ==>
                && Some(config) == codec.decode(raw) && WellFormed(config, codec.known)
                && disk == Holds(raw) && draft == raw && revision == codec.hash(raw)
      ensures !r.Refused? ==> (r.SavedBut? <==> Obstructed(old(active).Keys, w))
      ensures indi == old(indi) || indi == null || fresh(indi)
      ensures r.Done? ==>
                && Valid() && Reconciled() && Labelled() && problem == ""
                && (forall n :: n in old(active) && n in active ==> active[n] == old(active)[n])
                && (forall n :: n in active && n !in old(active) ==>
                    fresh(active[n]) && active[n].entry in config.devices)
                && (Listening() <==> old(Listening()) || !SameListener(old(config), config))
      ensures r.SavedBut? ==>
                && Valid() && indi == old(indi) && profile == old(profile) && selected == old(selected)
                && problem != "" && r.name in w.stuck && r.name in active && r.name !in EnabledNames(config.devices)
                && (forall n :: n in active ==> n in old(active) && active[n] == old(active)[n])
    {
      hide EnabledNames, Routes, Runnable, WellFormed;
      var f := Prepare(raw, expected, w);
      if f.None? {
        return Refused("");
      }
      NamesUnique(f.value, codec.known);
      var before := config;
      config, draft, revision, problem := f.value, raw, codec.hash(raw), "";
      disk := Holds(raw);
      r := Reconcile(before, w);
    }

    // What the callers of Save save

    /** The configuration with other devices. */
    static function WithDevices(f: File, devices: seq<Entry>): File {
      f.(devices := devices)
    }

    /** Names of a profile, none twice, all configured here. */
    method SelectedNames(p: Profile) returns (names: Option<set<string>>)
      ensures names.Some? <==> Selectable(p)
      ensures names.Some? ==> names.value == (set d | d in p.drivers :: d.0)
    {
      var all: set<string> := {};
      for k := 0 to |p.drivers|
        invariant all == set i | 0 <= i < k :: p.drivers[i].0
        invariant forall i :: 0 <= i < k ==> p.drivers[i].1 == "" && p.drivers[i].0 in NamesOf(config.devices)
        invariant forall i, j :: 0 <= i < j < k ==> p.drivers[i].0 != p.drivers[j].0
      {
        var (name, remote) := p.drivers[k];
        if remote != "" || name !in NamesOf(config.devices) || name in all {
          return None;
        }
        all := all + {name};
      }
      return Some(all);
    }

    predicate Selectable(p: Profile)
      reads this
    {
      && (forall i :: 0 <= i < |p.drivers| ==> p.drivers[i].1 == "" && p.drivers[i].0 in NamesOf(config.devices))
      && (forall i, j :: 0 <= i < j < |p.drivers| ==> p.drivers[i].0 != p.drivers[j].0)
    }

    /** Enable exactly a profile's instances, and make it the active one: if it is for the
        listener there is, and local, and names configured instances and none twice, and the
        save is accepted. */
    method StartWebProfile(p: Profile, w: World) returns (r: Outcome)
      requires Valid() && codec.Lawful()
      modifies this, indi
      ensures !r.Refused? <==>
              && p.port == old(config).indiPort > 0 && w.listening && p.drivers != []
              && (forall d :: d in p.drivers ==> d.1 == "" && exists e :: e in old(config).devices && e.name == d.0)
              && (forall i, j :: 0 <= i < j < |p.drivers| ==> p.drivers[i].0 != p.drivers[j].0)
              && var names := set d | d in p.drivers :: d.0;
                 old(Accepts(codec.encode(WithDevices(config, Flagged(config.devices, names))), revision, w))
      ensures r.Refused? ==> unchanged(this) && (indi != null ==> unchanged(indi))
      ensures r.Done? ==>
                && Valid() && Reconciled() && Labelled()
                && profile == p.name && selected == (set d | d in p.drivers :: d.0)
                && active.Keys == selected
      ensures r.Done? ==> config == WithDevices(old(config), Flagged(old(config).devices, selected))
      ensures r.Done? ==> forall n :: n in old(active) && n in active ==> active[n] == old(active)[n]
    {
      hide EnabledNames, WellFormed, Routes, Runnable;
      if config.indiPort <= 0 || p.port != config.indiPort || !w.listening || p.drivers == [] {
        return Refused("");
      }
      var names := SelectedNames(p);
      if names.None? {
        return Refused("");
      }
      var f := WithDevices(config, Flagged(config.devices, names.value));
      FlaggedEnables(config.devices, names.value);
      r := Save(codec.encode(f), revision, w);
      if r.Done? {
        profile, selected := p.name, names.value;
      }
    }

    /** The devices after an action on the i-th. */
    static function Changed(devices: seq<Entry>, i: nat, action: Action): seq<Entry>
      requires i < |devices|
    {
      match action
      case Enable => devices[i := WithEnable(devices[i], true)]
      case Disable => devices[i := WithEnable(devices[i], false)]
      case Delete => devices[..i] + devices[i + 1..]
      case Restart => devices
    }

    /** Enable, disable, delete or restart one device. Refused, nothing changes; otherwise the
        configuration is the old one with that change to the entry of that name. */
    method Mutate(name: string, action: Action, w: World) returns (r: Outcome)
      requires Valid() && codec.Lawful()
      modifies this, indi
      ensures r.Refused? ==> unchanged(this) && (indi != null ==> unchanged(indi))
      ensures !action.Restart? ==>
              (!r.Refused? <==>
               && var i := old(Find(config.devices, name));
                  && i < |old(config).devices| && (action.Delete? ==> !old(config).devices[i].Enabled())
                  && var f := WithDevices(old(config), Changed(old(config).devices, i, action));
                     old(Accepts(codec.encode(f), revision, w)))
      ensures !r.Refused? ==>
                var i := Find(old(config).devices, name);
                i < |old(config).devices| && config == WithDevices(old(config), Changed(old(config).devices, i, action))
      ensures r.Done? && !action.Restart? ==>
                && Valid() && Reconciled() && Labelled()
                && (forall n :: n in old(active) && n in active ==> active[n] == old(active)[n])
      ensures r.Done? ==> (name in active.Keys <==> action.Enable? || action.Restart?)
      ensures r.Done? && action.Restart? ==>
                && active.Keys == old(active.Keys) + {name} && fresh(active[name])
                && (forall n :: n in old(active) && n != name ==> active[n] == old(active)[n])
      ensures r.SavedBut? ==>
              Valid() && r.name in w.stuck && r.name in active && r.name !in EnabledNames(config.devices)
    {
      hide EnabledNames, WellFormed, Routes, Runnable;
      var i := Find(config.devices, name);
      if i == |config.devices| {
        return Refused("");
      }
      var e := config.devices[i];
      EnabledIs(config.devices, name);
      match action {
        case Restart =>
          assert config == WithDevices(config, config.devices);
          r := RestartEntry(e, w);
        case Enable =>
          var f := WithDevices(config, config.devices[i := WithEnable(e, true)]);
          FlagSet(config.devices, i, true);
          r := Save(codec.encode(f), revision, w);
        case Disable =>
          var f := WithDevices(config, config.devices[i := WithEnable(e, false)]);
          FlagSet(config.devices, i, false);
          r := Save(codec.encode(f), revision, w);
        case Delete =>
          if e.Enabled() {
            return Refused("");
          }
          var f := WithDevices(config, config.devices[..i] + config.devices[i + 1..]);
          Deleted(config.devices, i);
          r := Save(codec.encode(f), revision, w);
      }
    }

    method RestartEntry(e: Entry, w: World) returns (r: Outcome)
      requires Valid()
      modifies this`active, indi
      ensures !r.Done? ==> r.Refused? && active == old(active) && (indi != null ==> unchanged(indi))
      ensures r.Done? ==> active.Keys == old(active.Keys) + {e.name} && fresh(active[e.name])
      ensures r.Done? ==> forall n :: n in old(active) && n != e.name ==> active[n] == old(active)[n]
      ensures r.Done? && indi != null ==> indi.children == Routes(config.devices, active)
    {
      hide WellFormed, Routes;
      if !e.Enabled() {
        return Refused("");
      }
      var v := Validate(codec.encode(config), w);
      if v.None? {
        return Refused("");
      }
      var ok := Stop(e.name, w);
      if !ok {
        return Refused("");
      }
      Start(e, w);
      SyncRoutes();
      return Done;
    }

    /** A listener left behind. A device runs; a save that removes it and moves the listener
        is obstructed, and the listener stays where it was. The same save, obstructed no
        longer, is done, and the listener is still not where the configuration says. */
    static method StaleListener(codec: Codec) returns (m: Management, first: Outcome, again: Outcome)
      requires codec.Lawful() && "simulator" in codec.known
      ensures fresh(m) && m.codec == codec && m.Valid() && m.Reconciled()
      ensures first == SavedBut("Simulator") && again == Done && m.problem == "" && !m.Listening()
    {
      hide Routes, WellFormed, EnabledNames, Runnable, UniqueNames;
      m := new Management(codec);
      StaleFiles(codec);
      var r := m.SaveAgreeably(File([], 7624, "", None), {});
      r := m.SaveAgreeably(File([SIMULATOR], 7624, "", None), {});
      assert "Simulator" in m.active;
      first := m.SaveAgreeably(File([], 7625, "", None), {"Simulator"});
      again := m.SaveAgreeably(File([], 7625, "", None), {});
    }

    /** A save by an editor that has seen the file, in a world where everything goes well but
        for the runtimes that are stuck. */
    method SaveAgreeably(f: File, stuck: set<string>) returns (r: Outcome)
      requires Valid() && codec.Lawful() && WellFormed(f, codec.known)
      requires (SameListener(f, config) && f.AlpacaEnabled() == config.AlpacaEnabled()) || EnabledNames(f.devices) == {}
      requires if disk.Holds? then revision == codec.hash(disk.raw) else disk.Absent? && revision == ""
      modifies this, indi
      ensures Valid() && config == f && disk.Holds? && revision == codec.hash(disk.raw)
      ensures indi == old(indi) || indi == null || fresh(indi)
      ensures if Obstructed(old(active).Keys, Agreeable(old(disk), stuck))
              then r.SavedBut? && r.name in stuck && r.name in active && active.Keys <= old(active).Keys &&
                  indi == old(indi)
              else
                && r == Done && Reconciled() && problem == ""
                && (Listening() <==> old(Listening()) || !SameListener(old(config), config))
    {
      hide Routes, WellFormed, EnabledNames, Runnable, UniqueNames;
      AllRun(f, disk, stuck);
      assert codec.decode(codec.encode(f)) == Some(f);
      r := Save(codec.encode(f), revision, Agreeable(disk, stuck));
    }

    static lemma AllRun(f: File, disk: Disk, stuck: set<string>)
      ensures Runnable(f, Agreeable(disk, stuck))
    {
    }

    /** Everything goes well, but for these runtimes. */
    static function Agreeable(disk: Disk, stuck: set<string>): World {
      World(disk, true, (_: string) => true, (_: Entry) => true, (_: Entry) => true, stuck, true)
    }

    static lemma StaleFiles(codec: Codec)
      requires "simulator" in codec.known
      ensures WellFormed(File([], 7624, "", None), codec.known) && WellFormed(File([], 7625, "", None), codec.known)
      ensures WellFormed(File([SIMULATOR], 7624, "", None), codec.known)
      ensures EnabledNames([]) == {} && EnabledNames([SIMULATOR]) == {"Simulator"}
    {
      assert SIMULATOR in [SIMULATOR];
    }
  }

  const SIMULATOR := Entry("simulator", "simulator", "Simulator", 11111, Some([]), None, [], "", "")

  lemma NamesUnique(f: File, known: set<string>)
    requires WellFormed(f, known)
    ensures UniqueNames(f.devices) && f.indiPort >= 0
  {
  }

  lemma FlagSet(devices: seq<Entry>, i: nat, on: bool)
    requires UniqueNames(devices) && i < |devices|
    ensures var f := devices[i := WithEnable(devices[i], on)];
            UniqueNames(f) && (devices[i].name in EnabledNames(f) <==> on)
  {
    var f := devices[i := WithEnable(devices[i], on)];
    FindUnique(f, i);
    EnabledIs(f, devices[i].name);
  }

  lemma Deleted(devices: seq<Entry>, i: nat)
    requires UniqueNames(devices) && i < |devices|
    ensures devices[i].name !in EnabledNames(devices[..i] + devices[i + 1..])
  {
  }
}
