/** The replay: what a client that asks for properties is sent, from every child. */
module Replaying {
  import opened Lists
  import opened Wire
  import opened Grammar
  import opened Encoding
  import opened RoundTrip
  import opened Views
  import opened Mirror
  import opened LateJoiner
  import NatOrder
  import opened Subscriptions

  /** A child's snapshot. */
  datatype Child = Child(valid: bool, view: View)

  /** A request's scope: empty names match everything. */
  predicate Asked(device: string, name: string, key: Key) {
    (device == "" || key.0 == device) && (name == "" || key.1 == name)
  }

  /** What of a snapshot a request brings a client. */
  predicate Due(view: View, device: string, name: string, policy: map<string, Policy>, key: Key) {
    In(view, key) && Asked(device, name, key) && Wanted(policy, VectorToElement(At(view, key)))
  }

  /** A device's properties come in byte order. */
  predicate InOrder(keys: seq<Key>) {
    forall i, j :: 0 <= i < j < |keys| && keys[i].0 == keys[j].0 ==> NatOrder.BytesLess(keys[i].1, keys[j].1)
  }

  predicate Least(names: set<string>, p: string) {
    p in names && forall q :: q in names ==> !NatOrder.BytesLess(q, p)
  }

  /** Some name comes before all the others. */
  lemma {:induction false} LeastName(names: set<string>)
    requires names != {}
    ensures exists p :: Least(names, p)
  {
    hide NatOrder.BytesLess;
    var p :| p in names;
    var rest := names - {p};
    if rest == {} {
      NatOrder.BytesTotal(p, p);
      assert names == {p} && Least(names, p);
    } else {
      LeastName(rest);
      var least :| Least(rest, least);
      LeastMore(rest, least, p);
      assert rest + {p} == names;
    }
  }

  lemma LeastMore(rest: set<string>, least: string, p: string)
    requires Least(rest, least)
    ensures Least(rest + {p}, if NatOrder.BytesLess(p, least) then p else least)
  {
    hide NatOrder.BytesLess;
    NatOrder.BytesTotal(p, p);
    if NatOrder.BytesLess(p, least) {
      forall q | q in rest
        ensures !NatOrder.BytesLess(q, p)
      {
        if NatOrder.BytesLess(q, p) {
          NatOrder.BytesTransitive(q, p, least);
        }
      }
    }
  }

  lemma AppendInOrder(keys: seq<Key>, key: Key)
    requires InOrder(keys) && forall k :: k in keys && k.0 == key.0 ==> NatOrder.BytesLess(k.1, key.1)
    ensures InOrder(keys + [key])
  {
    assert forall i :: 0 <= i < |keys| ==> keys[i] in keys;
  }

  /** Exactly what is due, once each, each device's properties in byte order. */
  ghost predicate Exactly(keys: seq<Key>, view: View, device: string, name: string, policy: map<string, Policy>) {
    && AllIn(view, keys) && Distinct(keys) && InOrder(keys)
    && (forall d, p :: (d, p) in keys <==> Due(view, device, name, policy, (d, p)))
  }

  lemma AppendOnce(keys: seq<Key>, key: Key)
    requires Distinct(keys) && key !in keys
    ensures Distinct(keys + [key])
  {
    assert forall i :: 0 <= i < |keys| ==> keys[i] in keys;
  }

  /** The due properties of one device, appended in byte order. */
  method ReplayDevice(
      view: View, device: string, name: string, client: Client, d: string, before: seq<Key>)
    returns (keys: seq<Key>)
    requires d in view && (device == "" || d == device)
    requires AllIn(view, before) && Distinct(before) && InOrder(before) && forall p :: (d, p) !in before
    ensures AllIn(view, keys) && Distinct(keys) && InOrder(keys)
    ensures forall e, p :: (e, p) in keys <==>
            (e, p) in before || (e == d && Due(view, device, name, client.policy, (d, p)))
  {
    hide Wanted, VectorToElement, NatOrder.BytesLess, InOrder;
    keys := before;
    var props := view[d].Keys;
    while props != {}
      invariant props <= view[d].Keys
      invariant AllIn(view, keys) && Distinct(keys) && InOrder(keys)
      invariant forall e, p :: (e, p) in keys <==>
                  (e, p) in before || (e == d && p !in props && Due(view, device, name, client.policy, (d, p)))
      invariant forall k, p :: k in keys && k.0 == d && p in props ==> NatOrder.BytesLess(k.1, p)
      decreases |props|
    {
      LeastName(props);
      var p :| Least(props, p);
      props := props - {p};
      forall q | q in props
        ensures NatOrder.BytesLess(p, q)
      {
        NatOrder.BytesTotal(p, q);
      }
      if name == "" || p == name {
        var wants := client.Wants(VectorToElement(view[d][p]));
        if wants {
          AppendOnce(keys, (d, p));
          AppendInOrder(keys, (d, p));
          keys := keys + [(d, p)];
        }
      }
    }
  }

  /** One child's due properties, device by device, in no particular order. */
  method ReplayChild(view: View, device: string, name: string, client: Client) returns (keys: seq<Key>)
    ensures Exactly(keys, view, device, name, client.policy)
    ensures forall d, p :: (d, p) in keys <==>
            && d in view && p in view[d] && (device == "" || d == device) && (name == "" || p == name)
            && Wanted(client.policy, VectorToElement(view[d][p]))
  {
    hide Wanted, VectorToElement;
    keys := [];
    var devices := view.Keys;
    while devices != {}
      invariant devices <= view.Keys
      invariant AllIn(view, keys) && Distinct(keys) && InOrder(keys)
      invariant forall d, p :: (d, p) in keys <==> d !in devices && Due(view, device, name, client.policy, (d, p))
      decreases |devices|
    {
      var d :| d in devices;
      devices := devices - {d};
      if device == "" || d == device {
        keys := ReplayDevice(view, device, name, client, d, keys);
      }
    }
  }

  /** Each child's list is right; an invalid child has none. */
  ghost predicate AllExact(
    children: seq<Child>, lists: seq<seq<Key>>, device: string, name: string, policy: map<string, Policy>)
  {
    && |lists| == |children|
    && forall k :: 0 <= k < |children| ==>
         if children[k].valid then Exactly(lists[k], children[k].view, device, name, policy) else lists[k] == []
  }

  /** The messages of some lists, child after child. */
  function Messages(children: seq<Child>, lists: seq<seq<Key>>): (out: seq<Outgoing>)
    requires |lists| == |children| && forall k :: 0 <= k < |lists| ==> AllIn(children[k].view, lists[k])
    ensures AllServerKinds(out)
  {
    if lists == [] then []
    else
      var n := |lists| - 1;
      Messages(children[..n], lists[..n]) + Replay(children[n].view, lists[n])
  }

  predicate Listed(children: seq<Child>, lists: seq<seq<Key>>) {
    |lists| == |children| && forall k :: 0 <= k < |lists| ==> AllIn(children[k].view, lists[k])
  }

  lemma ExactListed(
      children: seq<Child>, lists: seq<seq<Key>>, device: string, name: string, policy: map<string, Policy>)
    requires AllExact(children, lists, device, name, policy)
    ensures Listed(children, lists)
  {
    forall k | 0 <= k < |lists|
      ensures AllIn(children[k].view, lists[k])
    {
      assert if children[k].valid then Exactly(lists[k], children[k].view, device, name, policy) else lists[k] == [];
    }
  }

  lemma ExactSays(
      children: seq<Child>, lists: seq<seq<Key>>, device: string, name: string, policy: map<string, Policy>)
    requires AllExact(children, lists, device, name, policy)
    ensures forall k, d, p :: 0 <= k < |children| ==>
              ((d, p) in lists[k] <==>
               && children[k].valid && d in children[k].view && p in children[k].view[d]
               && (device == "" || d == device) && (name == "" || p == name)
               && Wanted(policy, VectorToElement(children[k].view[d][p])))
  {
    hide Wanted, VectorToElement, InOrder, Distinct;
    forall k, d, p | 0 <= k < |children|
      ensures (d, p) in lists[k] <==>
              && children[k].valid && d in children[k].view && p in children[k].view[d]
              && (device == "" || d == device) && (name == "" || p == name)
              && Wanted(policy, VectorToElement(children[k].view[d][p]))
    {
      assert if children[k].valid then Exactly(lists[k], children[k].view, device, name, policy) else lists[k] == [];
    }
  }

  /** Send a client what it asked for, from every valid child in turn. */
  method ReplayAll(children: seq<Child>, device: string, name: string, client: Client)
    returns (out: seq<Outgoing>, lists: seq<seq<Key>>)
    ensures AllExact(children, lists, device, name, client.policy) && Listed(children, lists)
    ensures forall k, d, p :: 0 <= k < |children| ==>
              ((d, p) in lists[k] <==>
               && children[k].valid && d in children[k].view && p in children[k].view[d]
               && (device == "" || d == device) && (name == "" || p == name)
               && Wanted(client.policy, VectorToElement(children[k].view[d][p])))
    ensures out == Messages(children, lists)
  {
    hide Exactly, Replay;
    out, lists := [], [];
    for k := 0 to |children|
      invariant AllExact(children[..k], lists, device, name, client.policy) && Listed(children[..k], lists)
      invariant out == Messages(children[..k], lists)
    {
      ghost var before := lists;
      var keys: seq<Key> := [];
      if children[k].valid {
        keys := ReplayChild(children[k].view, device, name, client);
      }
      lists := lists + [keys];
      assert children[..k + 1][..k] == children[..k] && lists[..k] == before;
      assert AllExact(children[..k + 1], lists, device, name, client.policy);
      ExactListed(children[..k + 1], lists, device, name, client.policy);
      out := out + Replay(children[k].view, keys);
    }
    assert children[..|children|] == children;
    ExactSays(children, lists, device, name, client.policy);
  }

  // Children with different devices, as one server

  /** No two valid children have a device in common. */
  predicate Disjoint(children: seq<Child>) {
    forall i, j :: 0 <= i < j < |children| && children[i].valid && children[j].valid
      ==> children[i].view.Keys !! children[j].view.Keys
  }

  /** What the children show together. */
  function Merged(children: seq<Child>): View {
    if children == [] then map[]
    else
      var n := |children| - 1;
      Merged(children[..n]) + if children[n].valid then children[n].view else map[]
  }

  function Joined(lists: seq<seq<Key>>): seq<Key> {
    if lists == [] then [] else Joined(lists[..|lists| - 1]) + lists[|lists| - 1]
  }

  lemma {:induction false} MergedHas(children: seq<Child>, d: string)
    requires Disjoint(children)
    ensures d in Merged(children) <==> exists k :: 0 <= k < |children| && children[k].valid && d in children[k].view
    ensures forall k :: 0 <= k < |children| && children[k].valid && d in children[k].view ==>
              d in Merged(children) && Merged(children)[d] == children[k].view[d]
    decreases |children|
  {
    if children == [] {
    } else {
      var n := |children| - 1;
      MergedHas(children[..n], d);
      assert forall k :: 0 <= k < n ==> children[..n][k] == children[k];
    }
  }

  /** Replaying child after child is replaying what they show together. */
  lemma {:induction false} JoinedReplay(children: seq<Child>, lists: seq<seq<Key>>, policy: map<string, Policy>)
    requires Disjoint(children) && AllExact(children, lists, "", "", policy) && Listed(children, lists) &&
             NoOnly(policy)
    ensures Enumerates(Joined(lists), Merged(children))
    ensures Messages(children, lists) == Replay(Merged(children), Joined(lists))
    decreases |children|
  {
    hide Enumerates, Messages, Merged, Joined, Replay, AllExact, Exactly, Disjoint;
    Unfolded(children, lists, policy);
    if children == [] {
    } else {
      var n := |children| - 1;
      JoinedReplay(children[..n], lists[..n], policy);
      if children[n].valid {
        OneMore(Merged(children[..n]), children[n].view, Joined(lists[..n]), lists[n]);
      } else {
        assert Merged(children[..n]) + map[] == Merged(children[..n]);
        assert Joined(lists[..n]) + [] == Joined(lists[..n]);
        assert Messages(children[..n], lists[..n]) + [] == Messages(children[..n], lists[..n]);
      }
    }
  }

  /** One child apart, as the definitions unfold. */
  lemma Unfolded(children: seq<Child>, lists: seq<seq<Key>>, policy: map<string, Policy>)
    requires Disjoint(children) && AllExact(children, lists, "", "", policy) && Listed(children, lists) &&
             NoOnly(policy)
    ensures children == [] ==>
              Enumerates(Joined(lists), Merged(children)) &&
              Messages(children, lists) == Replay(Merged(children), Joined(lists))
    ensures children != [] ==>
              var n := |children| - 1;
              && Disjoint(children[..n]) && AllExact(children[..n], lists[..n], "", "", policy) &&
                  Listed(children[..n], lists[..n])
              && Joined(lists) == Joined(lists[..n]) + lists[n]
              && Messages(children, lists) == Messages(children[..n], lists[..n]) + Replay(children[n].view, lists[n])
              && Merged(children) == Merged(children[..n]) + (if children[n].valid then children[n].view else map[])
              && (if children[n].valid then
                    Enumerates(lists[n], children[n].view) && Merged(children[..n]).Keys !! children[n].view.Keys
                  else lists[n] == [] && Replay(children[n].view, lists[n]) == [])
  {
    hide Exactly, Wanted;
    if children == [] {
    } else {
      var n := |children| - 1;
      forall i, j | 0 <= i < j < n && children[..n][i].valid && children[..n][j].valid
        ensures children[..n][i].view.Keys !! children[..n][j].view.Keys
      {
        assert children[..n][i] == children[i] && children[..n][j] == children[j];
      }
      forall k | 0 <= k < n
        ensures AllIn(children[..n][k].view, lists[..n][k])
        ensures if children[..n][k].valid then Exactly(lists[..n][k], children[..n][k].view, "", "", policy)
                else lists[..n][k] == []
      {
        assert children[..n][k] == children[k] && lists[..n][k] == lists[k];
      }
      if children[n].valid {
        ExactEnumerates(lists[n], children[n].view, policy);
        forall d | d in children[n].view
          ensures d !in Merged(children[..n])
        {
          MergedHas(children[..n], d);
        }
      }
    }
  }

  lemma ExactEnumerates(keys: seq<Key>, view: View, policy: map<string, Policy>)
    requires Exactly(keys, view, "", "", policy) && NoOnly(policy)
    ensures Enumerates(keys, view)
  {
    hide Wanted, VectorToElement;
    forall d, p | Has(view, d, p)
      ensures (d, p) in keys
    {
      NoOnlyReplays(policy, view[d][p]);
      assert Due(view, "", "", policy, (d, p));
    }
  }

  lemma OneMore(a: View, b: View, keys: seq<Key>, more: seq<Key>)
    requires Enumerates(keys, a) && Enumerates(more, b) && a.Keys !! b.Keys
    ensures Enumerates(keys + more, a + b)
    ensures Replay(a + b, keys + more) == Replay(a, keys) + Replay(b, more)
  {
    hide VectorToElement;
    forall i | 0 <= i < |keys|
      ensures In(a + b, keys[i]) && At(a + b, keys[i]) == At(a, keys[i])
    {
      assert In(a, keys[i]);
    }
    forall i | 0 <= i < |more|
      ensures In(a + b, more[i]) && At(a + b, more[i]) == At(b, more[i])
    {
      assert In(b, more[i]);
    }
    forall i, j | 0 <= i < |keys| && 0 <= j < |more|
      ensures keys[i] != more[j]
    {
      assert In(a, keys[i]) && In(b, more[j]);
    }
    forall d, p | Has(a + b, d, p)
      ensures (d, p) in keys + more
    {
      assert if d in b then Has(b, d, p) else Has(a, d, p);
    }
  }

  /** What the children show together can be replayed if each child's can. */
  lemma {:induction false} MergedOk(children: seq<Child>)
    requires Disjoint(children)
    requires forall k :: 0 <= k < |children| ==> ViewOk(children[k].view) && Replayable(children[k].view)
    ensures ViewOk(Merged(children)) && Replayable(Merged(children))
  {
    forall d | d in Merged(children)
      ensures PropsOk(d, Merged(children)[d])
      ensures forall p :: p in Merged(children)[d] ==> Resendable(VectorToElement(Merged(children)[d][p]))
    {
      hide Resendable, VectorToElement, PropsOk;
      MergedHas(children, d);
      var k :| 0 <= k < |children| && children[k].valid && d in children[k].view;
      assert ViewOk(children[k].view) && Replayable(children[k].view);
      assert forall p :: p in children[k].view[d] ==> Has(children[k].view, d, p);
    }
  }

  // Live updates, each folded into its own child

  /** One child's event. */
  datatype Owned = Owned(owner: nat, event: Event)

  function Events(owned: seq<Owned>): (events: seq<Event>)
    ensures |events| == |owned|
  {
    seq(|owned|, i requires 0 <= i < |owned| => owned[i].event)
  }

  ghost predicate AllViewsOk(children: seq<Child>) {
    forall k :: 0 <= k < |children| ==> ViewOk(children[k].view)
  }

  /** The event is of a valid child, and no other valid child has its device. */
  predicate OwnDevice(children: seq<Child>, o: Owned) {
    && o.owner < |children| && children[o.owner].valid
    && forall k :: 0 <= k < |children| && k != o.owner && children[k].valid ==> o.event.el.device !in children[k].view
  }

  function StepChild(children: seq<Child>, o: Owned, now: int): (r: seq<Child>)
    requires o.owner < |children| && AllViewsOk(children)
    ensures |r| == |children| && AllViewsOk(r)
  {
    var c := children[o.owner];
    FoldKeepsOk(c.view, o.event.el, now);
    children[o.owner := c.(view := Fold(c.view, o.event.el, now))]
  }

  /** Every event comes from the one child that has, or then gets, its device. */
  ghost predicate DevicesKept(children: seq<Child>, owned: seq<Owned>, clock: nat -> int)
    requires AllViewsOk(children)
    decreases |owned|, 0
  {
    owned == [] ||
      var k := |owned| - 1;
      && DevicesKept(children, owned[..k], clock)
      && OwnDevice(RunChildren(children, owned[..k], clock), owned[k])
  }

  /** The children's own snapshots after some events. */
  ghost function RunChildren(children: seq<Child>, owned: seq<Owned>, clock: nat -> int): (r: seq<Child>)
    requires AllViewsOk(children) && DevicesKept(children, owned, clock)
    ensures |r| == |children| && AllViewsOk(r)
    decreases |owned|, 1
  {
    if owned == [] then children
    else
      var k := |owned| - 1;
      StepChild(RunChildren(children, owned[..k], clock), owned[k], clock(k))
  }

  /** Two views that agree on a device agree on it after an element of it; nothing else
      changes in either. */
  lemma FoldLocal(a: View, b: View, el: Element, now: int)
    requires ViewOk(a) && ViewOk(b)
    requires el.device in a <==> el.device in b
    requires el.device in a ==> a[el.device] == b[el.device]
    ensures el.device in Fold(a, el, now) <==> el.device in Fold(b, el, now)
    ensures el.device in Fold(a, el, now) ==> Fold(a, el, now)[el.device] == Fold(b, el, now)[el.device]
    ensures forall d :: d != el.device ==>
              (d in Fold(a, el, now) <==> d in a) && (d in a ==> Fold(a, el, now)[d] == a[d])
  {
    hide NewVec, SetVec, ViewOk, VecOk;
    assert PropsOf(a, el.device) == PropsOf(b, el.device);
  }

  /** Folding an event into its own child is folding it into what they show together. */
  lemma StepMerged(children: seq<Child>, o: Owned, now: int)
    requires AllViewsOk(children) && Disjoint(children) && ViewOk(Merged(children)) && OwnDevice(children, o)
    ensures Disjoint(StepChild(children, o, now))
    ensures Merged(StepChild(children, o, now)) == Fold(Merged(children), o.event.el, now)
  {
    hide Fold, ViewOk, Merged;
    var el := o.event.el;
    var next := StepChild(children, o, now);
    var all := Merged(children);
    var was, own := children[o.owner].view, next[o.owner].view;
    MergedHas(children, el.device);
    assert el.device in all <==> el.device in was;
    FoldLocal(all, was, el, now);
    FoldLocal(was, all, el, now);
    forall i, j | 0 <= i < j < |next| && next[i].valid && next[j].valid
      ensures next[i].view.Keys !! next[j].view.Keys
    {
      assert children[i].view.Keys !! children[j].view.Keys;
    }
    forall d
      ensures d in Merged(next) <==> d in Fold(all, el, now)
      ensures d in Merged(next) ==> Merged(next)[d] == Fold(all, el, now)[d]
    {
      MergedAt(children, next, o.owner, all, d);
      if d == el.device {
        assert d in Merged(next) <==> d in own;
      } else {
        assert d in own <==> d in was;
      }
    }
  }

  /** Where a device is in the merged view, before and after one child changes. */
  lemma MergedAt(children: seq<Child>, next: seq<Child>, owner: nat, all: View, d: string)
    requires Disjoint(children) && Disjoint(next) && |next| == |children| && owner < |children| &&
             all == Merged(children)
    requires children[owner].valid && next[owner].valid
    requires forall k :: 0 <= k < |children| && k != owner ==> next[k] == children[k]
    ensures d in Merged(next) <==>
              d in next[owner].view
              || exists k :: 0 <= k < |children| && k != owner && children[k].valid && d in children[k].view
    ensures d in all <==>
              d in children[owner].view
              || exists k :: 0 <= k < |children| && k != owner && children[k].valid && d in children[k].view
    ensures d in next[owner].view ==> d in Merged(next) && Merged(next)[d] == next[owner].view[d]
    ensures d in children[owner].view ==> d in all && all[d] == children[owner].view[d]
    ensures forall k :: 0 <= k < |children| && k != owner && children[k].valid && d in children[k].view ==>
              d in all && d in Merged(next) && Merged(next)[d] == children[k].view[d] == all[d]
  {
    hide Merged;
    MergedHas(children, d);
    MergedHas(next, d);
  }

  lemma {:induction false} RunMerged(children: seq<Child>, owned: seq<Owned>, clock: nat -> int)
    requires AllViewsOk(children) && Disjoint(children) && ViewOk(Merged(children)) &&
             DevicesKept(children, owned, clock)
    ensures Disjoint(RunChildren(children, owned, clock))
    ensures Merged(RunChildren(children, owned, clock)) == FoldAll(Merged(children), Applied(Events(owned)), clock)
    decreases |owned|
  {
    hide Fold, ViewOk, Merged, Disjoint, OwnDevice, FoldAll, StepChild;
    if owned == [] {
      assert Applied(Events(owned)) == [];
      NoElements(Merged(children), clock);
    } else {
      var k := |owned| - 1;
      RunMerged(children, owned[..k], clock);
      StepMerged(RunChildren(children, owned[..k], clock), owned[k], clock(k));
      assert Applied(Events(owned)) == Applied(Events(owned[..k])) + [owned[k].event.el];
      FoldOneMore(Merged(children), Applied(Events(owned[..k])), owned[k].event.el, clock);
    }
  }

  lemma NoElements(view: View, clock: nat -> int)
    requires ViewOk(view)
    ensures FoldAll(view, [], clock) == view
  {
  }

  /** A client with no Only policy asks for everything, and then receives the live
      messages, each folded by the server into the snapshot of the child it came from:
      reading the bytes and folding them shows at every moment what the children show
      together. */
  lemma JoinerMirrorsChildren(
      full: bool, cfg: Config, children: seq<Child>, lists: seq<seq<Key>>, policy: map<string, Policy>,
      owned: seq<Owned>, clock: nat -> int, remote: nat -> int)
    requires cfg.numbers.Lawful() && NoOnly(policy)
    requires Disjoint(children) && AllExact(children, lists, "", "", policy) && Listed(children, lists)
    requires AllViewsOk(children) && forall k :: 0 <= k < |children| ==> Replayable(children[k].view)
    requires AllOk(full, Events(owned)) && ViewOk(Merged(children)) && DevicesKept(children, owned, clock)
    requires TypesKept(Merged(children), Events(owned), clock)
    ensures var bytes := StreamText(cfg.numbers, Messages(children, lists) + Delivered(full, Events(owned)));
            var read := ReadAll(cfg, bytes, 0, []);
            && read.1 == ReadError
            && Same(full, Merged(RunChildren(children, owned, clock)), FoldAll(EMPTY, Elements(read.0), remote))
  {
    hide Enumerates, Messages, Merged, Joined, Replay, AllExact, Exactly, Disjoint, ViewOk, Replayable, DevicesKept;
    hide Same, EventOk, TypesKept, FoldAll, Delivered, StreamText, ReadAll, RunChildren;
    JoinedReplay(children, lists, policy);
    MergedOk(children);
    RunMerged(children, owned, clock);
    JoinerMirrorsServer(full, cfg, Merged(children), Joined(lists), Events(owned), clock, remote);
  }
}
