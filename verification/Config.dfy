/** The host's configuration file: its device entries, and when it is well formed. */
module Configuration {
  import opened Wire

  /** One device entry. pins is None when its device numbers cannot be read. */
  datatype Entry = Entry(
    driver: string, exec: string, name: string, port: int,
    pins: Option<seq<int>>, enable: Option<bool>, presetKeys: seq<string>, deviceName: string, rest: string)
  {
    predicate Enabled(): (r: bool)
      ensures enable.None? ==> r
      ensures enable.Some? ==> r == enable.value
    {
      enable != Some(false)
    }
  }

  datatype File = File(devices: seq<Entry>, indiPort: int, indiListen: string, alpaca: Option<bool>) {
    predicate AlpacaEnabled(): (r: bool)
      ensures alpaca.None? ==> r
      ensures alpaca.Some? ==> r == alpaca.value
    {
      alpaca != Some(false)
    }
  }

  const NO_FILE := File([], 0, "", None)

  // Validation

  predicate HasDot(s: string) {
    exists i :: 0 <= i < |s| && s[i] == '.'
  }

  predicate EntryOk(f: File, e: Entry, known: set<string>) {
    && e.driver != "" && e.exec != "" && e.name != "" && 0 <= e.port <= 65535 && e.driver in known
    && (e.Enabled() ==>
          && (f.AlpacaEnabled() ==> e.port > 0)
          && e.pins.Some? && (forall n :: n in e.pins.value ==> n >= 0)
          && (forall k :: k in e.presetKeys ==> HasDot(k)))
  }

  predicate UniqueNames(devices: seq<Entry>) {
    forall i, j :: 0 <= i < j < |devices| ==> devices[i].name != devices[j].name
  }

  /** No two entries, disabled ones included, share an explicit port. */
  predicate UniquePorts(devices: seq<Entry>) {
    forall i, j :: 0 <= i < j < |devices| ==> devices[i].port > 0 ==> devices[i].port != devices[j].port
  }

  predicate WellFormed(f: File, known: set<string>) {
    && 0 <= f.indiPort <= 65535
    && (forall i :: 0 <= i < |f.devices| ==> EntryOk(f, f.devices[i], known))
    && UniqueNames(f.devices)
    && (f.AlpacaEnabled() ==> UniquePorts(f.devices))
    && (f.AlpacaEnabled() || f.indiPort > 0)
  }

  method CheckEntry(f: File, e: Entry, known: set<string>, names: set<string>, ports: set<int>) returns (ok: bool)
    ensures ok <==> EntryOk(f, e, known) && e.name !in names && !(f.AlpacaEnabled() && e.port > 0 && e.port in ports)
  {
    if e.driver == "" || e.exec == "" || e.name == "" || e.name in names {
      return false;
    }
    if e.port < 0 || e.port > 65535 || e.driver !in known {
      return false;
    }
    if f.AlpacaEnabled() && e.port > 0 && e.port in ports {
      return false;
    }
    if !e.Enabled() {
      return true;
    }
    if f.AlpacaEnabled() && e.port <= 0 {
      return false;
    }
    if e.pins.None? {
      return false;
    }
    for k := 0 to |e.pins.value|
      invariant forall i :: 0 <= i < k ==> e.pins.value[i] >= 0
    {
      if e.pins.value[k] < 0 {
        assert e.pins.value[k] in e.pins.value;
        return false;
      }
    }
    for k := 0 to |e.presetKeys|
      invariant forall i :: 0 <= i < k ==> HasDot(e.presetKeys[i])
    {
      if !HasDot(e.presetKeys[k]) {
        assert e.presetKeys[k] in e.presetKeys;
        return false;
      }
    }
    return true;
  }

  /** Entries one by one, keeping the names and ports seen. */
  method CheckFile(f: File, known: set<string>) returns (ok: bool)
    ensures ok <==> WellFormed(f, known)
  {
    hide EntryOk;
    if f.indiPort < 0 || f.indiPort > 65535 {
      return false;
    }
    var names: set<string>, ports: set<int> := {}, {};
    for i := 0 to |f.devices|
      invariant names == set j | 0 <= j < i :: f.devices[j].name
      invariant f.AlpacaEnabled() ==> ports == set j | 0 <= j < i && f.devices[j].port > 0 :: f.devices[j].port
      invariant forall j :: 0 <= j < i ==> EntryOk(f, f.devices[j], known)
      invariant forall j, k :: 0 <= j < k < i ==> f.devices[j].name != f.devices[k].name
      invariant f.AlpacaEnabled() ==>
                  forall j, k :: 0 <= j < k < i ==> f.devices[j].port > 0 ==> f.devices[j].port != f.devices[k].port
    {
      var e := f.devices[i];
      var fine := CheckEntry(f, e, known, names, ports);
      if !fine {
        return false;
      }
      names := names + {e.name};
      if f.AlpacaEnabled() && e.port > 0 {
        ports := ports + {e.port};
      }
    }
    return f.AlpacaEnabled() || f.indiPort > 0;
  }

  // Names

  function EnabledNames(devices: seq<Entry>): set<string> {
    set e | e in devices && e.Enabled() :: e.name
  }

  /** The entry of a name, if any. */
  function Find(devices: seq<Entry>, name: string): (i: nat)
    ensures i <= |devices| && (i < |devices| ==> devices[i].name == name)
    ensures forall k :: 0 <= k < i ==> devices[k].name != name
  {
    if devices == [] || devices[0].name == name then 0 else 1 + Find(devices[1..], name)
  }

  lemma FindUnique(devices: seq<Entry>, i: nat)
    requires UniqueNames(devices) && i < |devices|
    ensures Find(devices, devices[i].name) == i
  {
  }

  lemma EnabledIs(devices: seq<Entry>, name: string)
    requires UniqueNames(devices)
    ensures name in EnabledNames(devices)
       <==> Find(devices, name) < |devices| && devices[Find(devices, name)].Enabled()
  {
    var i := Find(devices, name);
    if i < |devices| {
      assert devices[i] in devices;
    }
    if name in EnabledNames(devices) {
      var e :| e in devices && e.Enabled() && e.name == name;
      var k :| 0 <= k < |devices| && devices[k] == e;
      FindUnique(devices, k);
    }
  }
}
