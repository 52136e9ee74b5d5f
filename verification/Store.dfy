/** The snapshot store: one writer publishing copy-on-write snapshots that share
    what did not change. Maps and member slices are objects here, so that sharing,
    and never writing to what is shared, is what gets proved. */
module Snapshots {
  import opened Lists
  import opened Wire
  import opened Views

  class Vector {
    var head: Head
    var members: array<MemberVal>
    var byName: map<string, nat>

    ghost function Val(): Vec
      reads this, members
    {
      Vec(head, members[..], byName)
    }

    constructor (head: Head, members: array<MemberVal>, byName: map<string, nat>)
      ensures this.head == head && this.members == members && this.byName == byName
    {
      this.head := head;
      this.members := members;
      this.byName := byName;
    }

    /** The named member. */
    method Member(name: string) returns (r: Option<MemberVal>)
      requires Indexed(Val())
      ensures r.Some? <==> name in byName
      ensures r.Some? ==>
              byName[name] < members.Length && r.value == members[byName[name]] && r.value.member.name == name
      ensures r.None? ==> forall mv :: mv in members[..] ==> mv.member.name != name
    {
      if name !in byName {
        assert forall i :: 0 <= i < members.Length ==> Val().members[i].member.name in byName;
        return None;
      }
      assert Val().members[byName[name]].member.name == name;
      return Some(members[byName[name]]);
    }
  }

  class PropMap {
    var vectors: map<string, Vector>

    constructor (vectors: map<string, Vector>)
      ensures this.vectors == vectors
    {
      this.vectors := vectors;
    }
  }

  class Snapshot {
    var gen: nat
    var valid: bool
    var devices: map<string, PropMap>

    constructor (gen: nat, valid: bool, devices: map<string, PropMap>)
      ensures this.gen == gen && this.valid == valid && this.devices == devices
    {
      this.gen := gen;
      this.valid := valid;
      this.devices := devices;
    }

    ghost function Maps(): set<PropMap>
      reads this
    {
      set d | d in devices :: devices[d]
    }

    ghost function Vectors(): set<Vector>
      reads this, Maps()
    {
      set d, p | d in devices && p in devices[d].vectors :: devices[d].vectors[p]
    }

    ghost function Slices(): set<array<MemberVal>>
      reads this, Maps(), Vectors()
    {
      set v | v in Vectors() :: v.members
    }

    ghost function PropsView(device: string): Props
      reads this, Maps(), Vectors(), Slices()
      requires device in devices
    {
      map p | p in devices[device].vectors :: devices[device].vectors[p].Val()
    }

    ghost function View(): View
      reads this, Maps(), Vectors(), Slices()
    {
      map d | d in devices :: PropsView(d)
    }

    /** The device names, each once, in no particular order. */
    method Devices() returns (names: seq<string>)
      ensures Distinct(names)
      ensures forall d :: d in names <==> d in devices
    {
      names := [];
      var rest := devices.Keys;
      while rest != {}
        invariant rest <= devices.Keys
        invariant Distinct(names)
        invariant forall d :: d in names <==> d in devices.Keys - rest
        decreases |rest|
      {
        var d :| d in rest;
        assert d !in names;
        rest := rest - {d};
        names := names + [d];
      }
    }
  }

  /** A snapshot says the same as long as none of its objects is written. */
  twostate lemma ViewKept(s: Snapshot)
    requires Untouched(s)
    ensures s.View() == old(s.View())
  {
    assert s.Maps() == old(s.Maps());
    assert s.Vectors() == old(s.Vectors());
    assert s.Slices() == old(s.Slices());
  }

  /** None of a snapshot's objects has been written. */
  twostate predicate Untouched(s: Snapshot)
    reads s, s.Maps(), s.Vectors(), s.Slices()
  {
    && unchanged(s)
    && (forall m :: m in old(s.Maps()) ==> unchanged(m))
    && (forall v :: v in old(s.Vectors()) ==> unchanged(v))
    && (forall a :: a in old(s.Slices()) ==> unchanged(a))
  }

  function VectorsOf(s: Snapshot, device: string): map<string, Vector>
    reads s, s.Maps()
  {
    if device in s.devices then s.devices[device].vectors else map[]
  }

  /** A device's map and its view have the same properties. */
  lemma CountProps(s: Snapshot, device: string)
    ensures PropsOf(s.View(), device).Keys == VectorsOf(s, device).Keys
    ensures |PropsOf(s.View(), device)| == |VectorsOf(s, device)|
  {
    var a, b := PropsOf(s.View(), device), VectorsOf(s, device);
    assert a.Keys == b.Keys;
    assert |a.Keys| == |a| && |b.Keys| == |b|;
  }

  lemma NewVecIs(v: Vector, el: Element, now: int)
    requires v.head == NewHead(el, now) && v.members[..] == StoredAll(el.members, now) &&
             v.byName == IndexOf(el.members)
    ensures v.Val() == NewVec(el, now)
  {
  }

  lemma KnownDevices(s: Snapshot)
    ensures s.View().Keys == s.devices.Keys
  {
  }

  lemma HasView(s: Snapshot, device: string, name: string)
    ensures Has(s.View(), device, name) <==> name in VectorsOf(s, device)
    ensures name in VectorsOf(s, device) ==> s.View()[device][name] == VectorsOf(s, device)[name].Val()
  {
  }

  /** Dropping a device, or one vector from the copy of its map. */
  lemma WithoutView(cur: Snapshot, next: Snapshot, device: string, name: string)
    requires device in cur.devices
    requires if name == "" then next.devices == cur.devices - {device}
             else && device in next.devices && next.devices == cur.devices[device := next.devices[device]]
                  && next.devices[device].vectors == cur.devices[device].vectors - {name}
    ensures next.View() == Without(cur.View(), device, name)
  {
    if name == "" {
    } else {
      assert next.PropsView(device) == cur.PropsView(device) - {name};
    }
    forall d | d in next.devices && d != device
      ensures next.PropsView(d) == cur.PropsView(d)
    {
    }
  }

  /** Replacing one device's map by a copy with one vector put in. */
  lemma PutView(cur: Snapshot, next: Snapshot, device: string, name: string, v: Vector)
    requires device in next.devices && next.devices == cur.devices[device := next.devices[device]]
    requires next.devices[device].vectors == VectorsOf(cur, device)[name := v]
    ensures next.View() == Put(cur.View(), device, name, v.Val())
  {
    assert next.PropsView(device) == PropsOf(cur.View(), device)[name := v.Val()];
    forall d | d in next.devices && d != device
      ensures next.PropsView(d) == cur.PropsView(d)
    {
    }
  }

  /** What was published, and what it said when it was. */
  datatype Published = Published(snap: Snapshot, gen: nat, valid: bool, view: View)

  ghost predicate Increasing(log: seq<Published>) {
    forall i, j :: 0 <= i < j < |log| ==> log[i].gen < log[j].gen
  }

  lemma IncreasingAppend(log: seq<Published>, p: Published)
    requires Increasing(log) && |log| > 0 && log[|log| - 1].gen < p.gen
    ensures Increasing(log + [p])
  {
  }

  class Store {
    var cur: Snapshot
    var ignored: nat
    ghost var log: seq<Published>

    /** Every snapshot published so far still says what it said, generations have
        strictly increased, and the last one is current. */
    ghost predicate Valid()
      reads *
    {
      && |log| > 0 && log[|log| - 1].snap == cur
      && (forall p :: p in log ==> Unchanged(p))
      && Increasing(log)
      && ViewOk(cur.View())
    }

    static ghost predicate Unchanged(p: Published)
      reads p.snap, p.snap.Maps(), p.snap.Vectors(), p.snap.Slices()
    {
      p.snap.gen == p.gen && p.snap.valid == p.valid && p.snap.View() == p.view
    }

    constructor ()
      ensures Valid() && cur.View() == map[] && cur.valid && cur.gen == 1 && ignored == 0
    {
      cur := new Snapshot(1, true, map[]);
      ignored := 0;
      new;
      log := [Published(cur, 1, true, map[])];
    }

    /** Publish a snapshot built aside. Earlier ones are not touched. */
    method Publish(next: Snapshot)
      requires Valid() && next.gen > cur.gen && ViewOk(next.View())
      modifies this`cur, this`log
      ensures Valid() && cur == next && ignored == old(ignored)
      ensures log == old(log) + [Published(next, next.gen, next.valid, next.View())]
      ensures next.View() == old(next.View())
    {
      ghost var entry := Published(next, next.gen, next.valid, next.View());
      assert Unchanged(log[|log| - 1]);
      IncreasingAppend(log, entry);
      cur := next;
      log := log + [entry];
      hide Snapshot.View, ViewOk, Increasing;
      ViewKept(next);
      forall p | p in log
        ensures Unchanged(p)
      {
        assert p != entry ==> p in old(log) && old(Unchanged(p));
        ViewKept(p.snap);
      }
    }

    method Replace(valid: bool)
      requires Valid()
      modifies this
      ensures Valid() && fresh(cur) && cur.View() == map[] && cur.valid == valid
      ensures old(log) < log && |log| == |old(log)| + 1 && ignored == old(ignored)
    {
      var next := new Snapshot(cur.gen + 1, valid, map[]);
      Publish(next);
    }

    /** An empty, invalid snapshot. */
    method Invalidate()
      requires Valid()
      modifies this
      ensures Valid() && fresh(cur) && cur.View() == map[] && !cur.valid
      ensures old(log) < log && |log| == |old(log)| + 1 && ignored == old(ignored)
    {
      Replace(false);
    }

    /** An empty valid snapshot for a fresh acquire. */
    method Reset()
      requires Valid()
      modifies this
      ensures Valid() && fresh(cur) && cur.View() == map[] && cur.valid
      ensures old(log) < log && |log| == |old(log)| + 1 && ignored == old(ignored)
    {
      Replace(true);
    }

    /** Nothing published has been written since: the invariant still holds. */
    twostate lemma ValidKept()
      requires old(Valid()) && cur == old(cur) && log == old(log)
      requires forall p :: p in log ==> Untouched(p.snap)
      ensures Valid() && cur.View() == old(cur.View())
    {
      hide Snapshot.View, ViewOk, Increasing;
      forall p | p in log
        ensures Unchanged(p) && p.snap.View() == old(p.snap.View())
      {
        assert old(Unchanged(p));
        ViewKept(p.snap);
      }
      assert log[|log| - 1] in log;
    }

    /** Two readings of equal generation saw the same snapshot, saying the same. */
    lemma SameGeneration(p: Published, q: Published)
      requires Valid() && p in log && q in log && p.snap.gen == q.snap.gen
      ensures p == q && p.snap.View() == q.view
    {
      hide Snapshot.View, ViewOk;
      var i :| 0 <= i < |log| && log[i] == p;
      var j :| 0 <= j < |log| && log[j] == q;
      assert Unchanged(p) && Unchanged(q);
    }

    method CountIgnored(n: nat)
      requires Valid()
      modifies this`ignored
      ensures Valid() && ignored == old(ignored) + n && cur.View() == old(cur.View())
    {
      ignored := ignored + n;
      ValidKept();
    }

    /** Copy the device map, and the map of one device deeply enough to write to;
        vectors are shared across generations. */
    method Cow(device: string) returns (next: Snapshot, props: PropMap)
      requires Valid()
      ensures Valid() && fresh(next) && fresh(props)
      ensures next.gen == cur.gen + 1 && next.valid == cur.valid
      ensures next.devices == cur.devices[device := props]
      ensures props.vectors == VectorsOf(cur, device)
    {
      props := new PropMap(if device in cur.devices then cur.devices[device].vectors else map[]);
      next := new Snapshot(cur.gen + 1, cur.valid, cur.devices[device := props]);
      ValidKept();
    }

    /** Publish the current snapshot with one vector put in. */
    method PublishVector(device: string, name: string, v: Vector)
      requires Valid() && ViewOk(Put(cur.View(), device, name, v.Val()))
      modifies this`cur, this`log
      ensures Valid() && fresh(cur) && cur.valid == old(cur.valid) && old(log) < log && |log| == |old(log)| + 1
      ensures cur.View() == Put(old(cur.View()), device, name, old(v.Val()))
    {
      hide Snapshot.View, ViewOk, Increasing, Put, Store.Unchanged;
      var next, props := Cow(device);
      props.vectors := props.vectors[name := v];
      ValidKept();
      PutView(cur, next, device, name, v);
      Publish(next);
    }

    /** The stored form of a definition's members and their index. */
    static method StoreMembers(ms: seq<Member>, now: int) returns (members: array<MemberVal>, byName: map<string, nat>)
      ensures fresh(members) && members[..] == StoredAll(ms, now) && byName == IndexOf(ms)
    {
      members := new MemberVal[|ms|](i => MemberVal(NO_MEMBER, now));
      byName := map[];
      for i := 0 to |ms|
        invariant forall k :: 0 <= k < i ==> members[k] == Stored(ms[k], now)
        invariant byName == IndexOf(ms[..i])
      {
        members[i] := Stored(ms[i], now);
        byName := byName[ms[i].name := i];
        assert ms[..i + 1][..i] == ms[..i];
      }
      assert ms[..|ms|] == ms;
    }

    method ApplyDef(el: Element, now: int) returns (changed: bool)
      requires Valid() && el.kind == KindDef
      modifies this`cur, this`log, this`ignored
      ensures Valid() && Applied(old(cur.View()), el, now, changed)
      ensures Logged(old(cur), old(log), old(ignored), old(cur.View()), el, changed)
    {
      hide Snapshot.View, ViewOk, NewVec, Put, Increasing, Unchanged, NewHead, StoredAll, IndexOf, VecOk;
      CountProps(cur, el.device);
      var have := VectorsOf(cur, el.device);
      if |have| >= MAX_PROPERTIES && el.name !in have {
        CountIgnored(1);
        return false;
      }
      var members, byName := StoreMembers(el.members, now);
      var v := new Vector(NewHead(el, now), members, byName);
      NewVecIs(v, el, now);
      ValidKept();
      NewVecOk(el, now);
      PutOk(cur.View(), el.device, el.name, v.Val());
      PublishVector(el.device, el.name, v);
      return true;
    }

    /** What Apply leaves current, and what it reports. */
    ghost predicate Applied(before: View, el: Element, now: int, changed: bool)
      reads *
      requires ViewOk(before)
    {
      cur.View() == Fold(before, el, now) && changed == Changes(before, el)
    }

    /** A publication adds one log entry and keeps validity of the child; otherwise
        the current snapshot is the same object. Ignored parts are counted. */
    ghost predicate Logged(
        cur0: Snapshot, log0: seq<Published>, ignored0: nat, before: View, el: Element, changed: bool)
      reads *
    {
      && (changed ==> log0 < log && |log| == |log0| + 1 && cur.valid == cur0.valid)
      && (!changed ==> log == log0 && cur == cur0)
      && ignored == ignored0 + IgnoredBy(before, el)
    }

    /** Write the named members' new values into a fresh slice; count the strangers. */
    static method SetInto(
        members: array<MemberVal>, byName: map<string, nat>, ms: seq<Member>, now: int) returns (strangers: nat)
      requires forall k :: k in byName ==> byName[k] < members.Length
      modifies members
      ensures members[..] == SetMembers(old(members[..]), byName, ms, now)
      ensures strangers == Strangers(byName, ms)
    {
      hide SetMember;
      strangers := 0;
      for n := 0 to |ms|
        invariant SetMembers(members[..], byName, ms[n..], now) == SetMembers(old(members[..]), byName, ms, now)
        invariant strangers + Strangers(byName, ms[n..]) == Strangers(byName, ms)
      {
        var m := ms[n];
        assert ms[n..][1..] == ms[n + 1..];
        if m.name !in byName {
          strangers := strangers + 1;
        } else {
          var i := byName[m.name];
          ghost var before := members[..];
          members[i] := SetMember(members[i], m, now);
          assert members[..] == before[i := SetMember(before[i], m, now)];
        }
      }
    }

    /** A copy of a vector with its own members, state and stamps updated. */
    static method Updated(was: Vector, el: Element, now: int) returns (v: Vector, strangers: nat)
      requires Indexed(was.Val())
      ensures fresh(v) && fresh(v.members) && v.Val() == SetVec(was.Val(), el, now)
      ensures strangers == Strangers(was.byName, el.members)
    {
      var members := new MemberVal[was.members.Length](i requires 0 <= i < was.members.Length reads was,
          was.members => was.members[i]);
      assert members[..] == was.members[..];
      v := new Vector(SetHead(was.head, el, now), members, was.byName);
      strangers := SetInto(members, was.byName, el.members, now);
    }

    method ApplySet(el: Element, now: int) returns (changed: bool)
      requires Valid() && el.kind == KindSet
      modifies this`cur, this`log, this`ignored
      ensures Valid() && Applied(old(cur.View()), el, now, changed)
      ensures Logged(old(cur), old(log), old(ignored), old(cur.View()), el, changed)
    {
      hide Snapshot.View, ViewOk, SetVec, Put, Increasing, Unchanged, VecOk, Indexed, Strangers;
      CountProps(cur, el.device);
      HasView(cur, el.device, el.name);
      var have := VectorsOf(cur, el.device);
      if el.name !in have {
        CountIgnored(1);
        return false;
      }
      ghost var view := cur.View();
      HasOk(view, el.device, el.name);
      VecIndexed(el.device, el.name, view[el.device][el.name]);
      var v, strangers := Updated(have[el.name], el, now);
      ValidKept();
      CountIgnored(strangers);
      SetVecOk(el.device, el.name, view[el.device][el.name], el, now);
      PutOk(view, el.device, el.name, v.Val());
      PublishVector(el.device, el.name, v);
      return true;
    }

    /** Publish the current snapshot without one vector, or without a whole device. */
    method PublishWithout(device: string, name: string)
      requires Valid() && device in cur.devices && ViewOk(Without(cur.View(), device, name))
      modifies this`cur, this`log
      ensures Valid() && fresh(cur) && cur.valid == old(cur.valid) && old(log) < log && |log| == |old(log)| + 1
      ensures cur.View() == Without(old(cur.View()), device, name)
    {
      hide Snapshot.View, ViewOk, Increasing, Without, Store.Unchanged;
      var next, props := Cow(device);
      if name == "" {
        next.devices := next.devices - {device};
      } else {
        props.vectors := props.vectors - {name};
      }
      ValidKept();
      WithoutView(cur, next, device, name);
      Publish(next);
    }

    method ApplyDel(el: Element, now: int) returns (changed: bool)
      requires Valid() && el.kind == KindDel
      modifies this`cur, this`log, this`ignored
      ensures Valid() && Applied(old(cur.View()), el, now, changed)
      ensures Logged(old(cur), old(log), old(ignored), old(cur.View()), el, changed)
    {
      hide Snapshot.View, ViewOk, Increasing, Unchanged, Without;
      CountProps(cur, el.device);
      KnownDevices(cur);
      if el.device !in cur.devices || (el.name != "" && el.name !in cur.devices[el.device].vectors) {
        CountIgnored(1);
        return false;
      }
      FoldKeepsOk(cur.View(), el, now);
      PublishWithout(el.device, el.name);
      return true;
    }

    /** Fold one element into a new snapshot; true exactly when one was published. */
    method Apply(el: Element, now: int) returns (changed: bool)
      requires Valid()
      modifies this`cur, this`log, this`ignored
      ensures Valid() && Applied(old(cur.View()), el, now, changed)
      ensures Logged(old(cur), old(log), old(ignored), old(cur.View()), el, changed)
    {
      match el.kind {
        case KindDef => changed := ApplyDef(el, now);
        case KindSet => changed := ApplySet(el, now);
        case KindDel => changed := ApplyDel(el, now);
        case _ => changed := false;
      }
    }
  }
}
