/** The capstone: a client that connects at any moment, reads the replayed
    definitions and then the live updates as bytes, and folds them into an empty
    store, shows at every later moment the properties the server's own snapshot shows. */
module LateJoiner {
  import opened Lists
  import opened Wire
  import opened Grammar
  import opened Encoding
  import opened RoundTrip
  import opened Views
  import opened Mirror

  /** A stored vector as a definition to replay; its message is not repeated. */
  function VectorToElement(v: Vec): (r: Element)
    ensures r.kind == KindDef && r.message == ""
  {
    var h := v.head;
    Element(KindDef, h.vtype, h.rule, h.perm, h.state, h.device, h.name, h.labelText, h.group, h.timestamp, "",
            seq(|v.members|, i requires 0 <= i < |v.members| => v.members[i].member))
  }

  /** Everything stored could be sent again as it is. */
  ghost predicate Replayable(view: View) {
    forall d, p :: Has(view, d, p) ==> Resendable(VectorToElement(view[d][p]))
  }

  // The server's snapshot stays replayable

  predicate Storable(mv: MemberVal) {
    Trimmed(mv.member) && MemberFits(mv.member, map[])
  }

  lemma SetMemberStorable(mv: MemberVal, m: Member, now: int)
    requires Storable(mv) && Trimmed(m) && MemberFits(m, map[])
    ensures Storable(SetMember(mv, m, now))
  {
    hide TrimSpace;
  }

  lemma {:induction false} SetMembersStorable(mvs: seq<MemberVal>, byName: map<string, nat>, ms: seq<Member>, now: int)
    requires forall k :: k in byName ==> byName[k] < |mvs|
    requires forall i :: 0 <= i < |mvs| ==> Storable(mvs[i])
    requires forall i :: 0 <= i < |ms| ==> Trimmed(ms[i]) && MemberFits(ms[i], map[])
    ensures forall i :: 0 <= i < |mvs| ==> Storable(SetMembers(mvs, byName, ms, now)[i])
    decreases |ms|
  {
    hide Storable, Trimmed, MemberFits, SetMember;
    if ms == [] {
    } else {
      if ms[0].name in byName {
        var i := byName[ms[0].name];
        SetMemberStorable(mvs[i], ms[0], now);
        SetMembersStorable(mvs[i := SetMember(mvs[i], ms[0], now)], byName, ms[1..], now);
      } else {
        SetMembersStorable(mvs, byName, ms[1..], now);
      }
    }
  }

  lemma ReplayableMembers(v: Vec)
    requires Resendable(VectorToElement(v))
    ensures forall i :: 0 <= i < |v.members| ==> Storable(v.members[i])
  {
    hide Trimmed, MemberFits;
    var el := VectorToElement(v);
    forall i | 0 <= i < |v.members|
      ensures Storable(v.members[i])
    {
      assert el.members[i] == v.members[i].member;
      assert Trimmed(el.members[i]) && MemberFits(el.members[i], map[]);
    }
  }

  lemma SetVecReplayable(v: Vec, el: Element, now: int)
    requires Resendable(VectorToElement(v)) && Resendable(el) && Indexed(v)
    ensures Resendable(VectorToElement(SetVec(v, el, now)))
  {
    hide Trimmed, MemberFits, Indexed, SetMembers;
    ReplayableMembers(v);
    IndexBound(v);
    SetMembersStorable(v.members, v.byName, el.members, now);
    var u := SetVec(v, el, now);
    assert forall i :: 0 <= i < |u.members| ==> Storable(u.members[i]);
    assert |VectorToElement(u).members| == |VectorToElement(v).members|;
  }

  lemma NewVecReplayable(el: Element, now: int)
    requires Resendable(el)
    ensures Resendable(VectorToElement(NewVec(el, now)))
  {
    hide TrimSpace;
    var r := VectorToElement(NewVec(el, now));
    forall i | 0 <= i < |r.members|
      ensures MemberFits(r.members[i], map[]) && Trimmed(r.members[i])
    {
      assert r.members[i] == el.members[i].(data := []);
      assert MemberFits(el.members[i], map[]) && Trimmed(el.members[i]);
    }
  }

  lemma PutReplayable(view: View, device: string, name: string, v: Vec)
    requires Replayable(view) && Resendable(VectorToElement(v))
    ensures Replayable(Put(view, device, name, v))
  {
    hide Resendable, VectorToElement;
    var next := Put(view, device, name, v);
    forall d, p | Has(next, d, p)
      ensures Resendable(VectorToElement(next[d][p]))
    {
      if d != device || p != name {
        assert Has(view, d, p) && next[d][p] == view[d][p];
      }
    }
  }

  lemma WithoutReplayable(view: View, device: string, name: string)
    requires Replayable(view) && device in view
    ensures Replayable(Without(view, device, name))
  {
    hide Resendable, VectorToElement;
    var next := Without(view, device, name);
    forall d, p | Has(next, d, p)
      ensures Resendable(VectorToElement(next[d][p]))
    {
      assert Has(view, d, p) && next[d][p] == view[d][p];
    }
  }

  /** Parsed elements keep the snapshot replayable. */
  lemma FoldReplayable(view: View, el: Element, now: int)
    requires ViewOk(view) && Replayable(view) && Resendable(el)
    ensures Replayable(Fold(view, el, now))
  {
    hide Replayable, ViewOk, Put, Without, NewVec, SetVec, Resendable, VectorToElement, VecOk, Indexed;
    if Changes(view, el) {
      match el.kind
      case KindDef =>
        NewVecReplayable(el, now);
        PutReplayable(view, el.device, el.name, NewVec(el, now));
      case KindSet =>
        var v := view[el.device][el.name];
        HasOk(view, el.device, el.name);
        VecIndexed(el.device, el.name, v);
        ReplayableHas(view, el.device, el.name);
        SetVecReplayable(v, el, now);
        PutReplayable(view, el.device, el.name, SetVec(v, el, now));
      case KindDel =>
        WithoutReplayable(view, el.device, el.name);
      case _ =>
    }
  }

  lemma ReplayableHas(view: View, device: string, name: string)
    requires Replayable(view) && Has(view, device, name)
    ensures Resendable(VectorToElement(view[device][name]))
  {
  }

  // What a client has received

  /** The canonical forms of some messages: what a client's parser makes of them. */
  function Canons(cfg: Config, out: seq<Outgoing>): (els: seq<Element>)
    requires AllServerKinds(out)
    ensures |els| == |out|
  {
    seq(|out|, i requires 0 <= i < |out| => Canon(cfg, out[i].el, out[i].blobs, 0, []).el)
  }

  /** The client's store after some messages. */
  function Received(cfg: Config, out: seq<Outgoing>, clock: nat -> int): (view: View)
    requires AllServerKinds(out)
    ensures ViewOk(view)
  {
    FoldAll(EMPTY, Canons(cfg, out), clock)
  }

  lemma ReceivedOne(cfg: Config, out: seq<Outgoing>, o: Outgoing, clock: nat -> int)
    requires AllServerKinds(out) && IsServerKind(o.el.kind)
    ensures AllServerKinds(out + [o])
    ensures Received(cfg, out + [o], clock)
         == Fold(Received(cfg, out, clock), Canon(cfg, o.el, o.blobs, 0, []).el, clock(|out|))
  {
    hide Canon, Fold, FoldAll;
    var c := Canon(cfg, o.el, o.blobs, 0, []).el;
    assert Canons(cfg, out + [o]) == Canons(cfg, out) + [c];
    FoldOneMore(EMPTY, Canons(cfg, out), c, clock);
  }

  // Replay

  type Key = (string, string)

  predicate In(view: View, key: Key) { Has(view, key.0, key.1) }

  function At(view: View, key: Key): Vec
    requires In(view, key)
  {
    view[key.0][key.1]
  }

  predicate AllIn(view: View, keys: seq<Key>) {
    forall i :: 0 <= i < |keys| ==> In(view, keys[i])
  }

  /** The definitions replayed for some properties, in the order enumerated. */
  function Replay(view: View, keys: seq<Key>): (out: seq<Outgoing>)
    requires AllIn(view, keys)
    ensures |out| == |keys| && AllServerKinds(out)
  {
    seq(|keys|, i requires 0 <= i < |keys| =>
      Outgoing(VectorToElement(At(view, keys[i])), map[]))
  }

  /** keys lists every property of the view once, in any order. */
  ghost predicate Enumerates(keys: seq<Key>, view: View) {
    && AllIn(view, keys)
    && (forall d, p :: Has(view, d, p) ==> (d, p) in keys)
    && Distinct(keys)
  }

  /** Exactly the listed properties, each looking like the server's. */
  ghost predicate Shows(w: View, view: View, keys: seq<Key>)
    requires AllIn(view, keys)
  {
    && (forall d, p :: Has(w, d, p) <==> (d, p) in keys)
    && (forall i :: 0 <= i < |keys| ==>
        In(w, keys[i]) && FaceOf(true, At(w, keys[i])) == FaceOf(true, At(view, keys[i])))
  }

  lemma ShowsPut(w: View, view: View, keys: seq<Key>, key: Key, v: Vec)
    requires In(view, key) && AllIn(view, keys)
    requires Shows(w, view, keys) && FaceOf(true, v) == FaceOf(true, At(view, key)) && key !in keys
    ensures Shows(Put(w, key.0, key.1, v), view, keys + [key])
  {
    hide FaceOf;
    var next := Put(w, key.0, key.1, v);
    forall d, p
      ensures Has(next, d, p) <==> Has(w, d, p) || (d, p) == key
      ensures Has(next, d, p) && (d, p) != key ==> next[d][p] == w[d][p]
    {
    }
    forall i | 0 <= i < |keys + [key]|
      ensures In(next, (keys + [key])[i]) &&
              FaceOf(true, At(next, (keys + [key])[i])) == FaceOf(true, At(view, (keys + [key])[i]))
    {
      if i < |keys| {
        assert keys[i] in keys;
      }
    }
  }

  /** The property limit never bites during replay: the client has strictly fewer of
      the device's properties than the server. */
  lemma RoomLeft(w: View, view: View, keys: seq<Key>, key: Key)
    requires ViewOk(view) && In(view, key) && key !in keys
    requires AllIn(view, keys)
    requires Shows(w, view, keys)
    ensures |PropsOf(w, key.0)| < MAX_PROPERTIES
  {
    hide FaceOf, VecOk;
    var have, all := PropsOf(w, key.0), view[key.0];
    assert PropsOk(key.0, all);
    forall p | p in have
      ensures p in all && p != key.1
    {
      assert Has(w, key.0, p);
      var i :| 0 <= i < |keys| && keys[i] == (key.0, p);
    }
    assert !Has(w, key.0, key.1);
    assert have.Keys <= all.Keys - {key.1};
    SubsetSmaller(have.Keys, all.Keys - {key.1});
    assert |have.Keys| == |have| && |all.Keys| == |all|;
  }

  /** A stored vector, sent and defined again, looks the same. */
  lemma VectorReplays(cfg: Config, v: Vec, c: Element, now: int)
    requires Resendable(VectorToElement(v)) && c == Canon(cfg, VectorToElement(v), map[], 0, []).el
    ensures FaceOf(true, NewVec(c, now)) == FaceOf(true, v)
    ensures c.kind == KindDef && c.device == v.head.device && c.name == v.head.name
  {
    hide Canon, Resendable, FaceOfMember;
    var el := VectorToElement(v);
    CanonKeys(cfg, el, map[]);
    DefFace(true, cfg, el, map[], c, now, now);
    StoredFaces(v, now);
  }

  lemma StoredFaces(v: Vec, now: int)
    ensures FaceOf(true, NewVec(VectorToElement(v), now)) == FaceOf(true, v)
  {
    var u := NewVec(VectorToElement(v), now);
    assert forall i :: 0 <= i < |v.members| ==> u.members[i].member == v.members[i].member.(data := []);
    assert FacesOf(v.head.vtype, u.members) == FacesOf(v.head.vtype, v.members);
  }

  /** Folding the replayed definitions into an empty store rebuilds what they came from. */
  lemma {:induction false} ReplayBuilds(cfg: Config, view: View, keys: seq<Key>, clock: nat -> int)
    requires ViewOk(view) && Replayable(view) && AllIn(view, keys)
    requires Distinct(keys)
    ensures Shows(Received(cfg, Replay(view, keys), clock), view, keys)
    decreases |keys|
  {
    hide Shows, FaceOf, VectorToElement, Canon, ViewOk, Replayable, NewVec, Put, Received, Fold;
    if keys == [] {
      NothingShown(cfg, view, clock);
    } else {
      var n := |keys| - 1;
      var front, key := keys[..n], keys[n];
      ReplayBuilds(cfg, view, front, clock);
      var o := Outgoing(VectorToElement(At(view, key)), map[]);
      assert Replay(view, keys) == Replay(view, front) + [o];
      ReceivedOne(cfg, Replay(view, front), o, clock);
      assert keys == front + [key];
      ReplayStep(cfg, Received(cfg, Replay(view, front), clock), view, front, key, clock(n));
    }
  }

  lemma NothingShown(cfg: Config, view: View, clock: nat -> int)
    ensures Shows(Received(cfg, Replay(view, []), clock), view, [])
  {
    assert Canons(cfg, Replay(view, [])) == [];
  }

  lemma ReplayStep(cfg: Config, w: View, view: View, keys: seq<Key>, key: Key, now: int)
    requires ViewOk(view) && Replayable(view) && AllIn(view, keys) && In(view, key) && key !in keys
    requires ViewOk(w) && Shows(w, view, keys)
    ensures Shows(Fold(w, Canon(cfg, VectorToElement(At(view, key)), map[], 0, []).el, now), view, keys + [key])
  {
    hide Shows, FaceOf, VectorToElement, Canon, ViewOk, NewVec, Put, VecOk, Resendable;
    var v := At(view, key);
    var c := Canon(cfg, VectorToElement(v), map[], 0, []).el;
    ReplayableHas(view, key.0, key.1);
    VectorReplays(cfg, v, c, now);
    HasOk(view, key.0, key.1);
    KeyOf(key.0, key.1, v);
    RoomLeft(w, view, keys, key);
    ShowsPut(w, view, keys, key, NewVec(c, now));
  }

  lemma KeyOf(device: string, name: string, v: Vec)
    requires VecOk(device, name, v)
    ensures v.head.device == device && v.head.name == name
  {
  }

  /** All of a view, and nothing else, shown. */
  lemma ShowsAll(w: View, view: View, keys: seq<Key>)
    requires Enumerates(keys, view) && Shows(w, view, keys)
    ensures Same(true, view, w)
  {
    hide FaceOf;
    forall d, p
      ensures Has(w, d, p) <==> Has(view, d, p)
      ensures Has(view, d, p) ==> FaceOf(true, view[d][p]) == FaceOf(true, w[d][p])
    {
      if Has(view, d, p) {
        ShownAt(w, view, keys, (d, p));
      }
      if Has(w, d, p) {
        ListedIn(view, keys, (d, p));
      }
    }
  }

  lemma ShownAt(w: View, view: View, keys: seq<Key>, key: Key)
    requires AllIn(view, keys) && Shows(w, view, keys) && key in keys
    ensures In(view, key) && In(w, key) && FaceOf(true, At(w, key)) == FaceOf(true, At(view, key))
  {
    hide FaceOf;
    var i :| 0 <= i < |keys| && keys[i] == key;
    assert In(view, keys[i]);
  }

  lemma ListedIn(view: View, keys: seq<Key>, key: Key)
    requires AllIn(view, keys) && key in keys
    ensures In(view, key)
  {
    var i :| 0 <= i < |keys| && keys[i] == key;
    assert In(view, keys[i]);
  }

  /** After the whole replay the client's view is the same as the server's. */
  lemma ReplayRebuilds(cfg: Config, view: View, keys: seq<Key>, clock: nat -> int)
    requires ViewOk(view) && Replayable(view) && Enumerates(keys, view)
    ensures Same(true, view, Received(cfg, Replay(view, keys), clock))
  {
    hide FaceOf, ViewOk, Replayable, Received, Replay, Shows, Same;
    ReplayBuilds(cfg, view, keys, clock);
    ShowsAll(Received(cfg, Replay(view, keys), clock), view, keys);
  }

  // Live updates after the replay

  /** One element from the driver, and whether this client is sent it. */
  datatype Event = Event(el: Element, blobs: Payloads, delivered: bool)

  /** Everything the wire can carry is delivered; but a BLOB update only to those who
      subscribe, and a full subscriber to everything. */
  predicate EventOk(full: bool, e: Event) {
    && Parsed(e.el)
    && (e.delivered ==> Sendable(Outgoing(e.el, e.blobs)))
    && (!e.delivered ==> !IsServerKind(e.el.kind) || (!full && e.el.kind == KindSet && e.el.vtype == Blob))
  }

  predicate AllOk(full: bool, events: seq<Event>) {
    forall i :: 0 <= i < |events| ==> EventOk(full, events[i])
  }

  /** What the client is sent of some events. */
  function Delivered(full: bool, events: seq<Event>): (out: seq<Outgoing>)
    requires AllOk(full, events)
    ensures AllServerKinds(out) && AllSendable(out)
  {
    if events == [] then []
    else
      var k := |events| - 1;
      var e := events[k];
      assert EventOk(full, e);
      Delivered(full, events[..k]) + if e.delivered then [Outgoing(e.el, e.blobs)] else []
  }

  /** What the server's own store is given of them: everything. */
  function Applied(events: seq<Event>): (els: seq<Element>)
    ensures |els| == |events|
  {
    seq(|events|, i requires 0 <= i < |events| => events[i].el)
  }

  /** The driver never updates a property with a type unsafe for it. */
  ghost predicate TypesKept(view: View, events: seq<Event>, clock: nat -> int)
    requires ViewOk(view)
  {
    forall k :: 0 <= k < |events| ==>
      TypeKept(FoldAll(view, Applied(events[..k]), clock), events[k].el, events[k].delivered)
  }

  lemma NoChange(view: View, el: Element, now: int)
    requires ViewOk(view) && !IsServerKind(el.kind)
    ensures Fold(view, el, now) == view
  {
  }

  /** Once the views agree they agree after every further event. */
  lemma {:induction false} LiveUpdatesMirrored(
      full: bool, cfg: Config, view: View, sent: seq<Outgoing>, events: seq<Event>, clock: nat -> int,
      remote: nat -> int)
    requires ViewOk(view) && AllServerKinds(sent) && Same(full, view, Received(cfg, sent, remote))
    requires AllOk(full, events)
    requires TypesKept(view, events, clock)
    ensures Same(full, FoldAll(view, Applied(events), clock), Received(cfg, sent + Delivered(full, events), remote))
    decreases |events|
  {
    hide Same, ViewOk, EventOk, TypesKept, Canon, Fold, FoldAll, Received, Delivered;
    if events == [] {
      NoEvents(full, view, sent, clock);
    } else {
      var k := |events| - 1;
      LastEvent(full, view, events, clock);
      LiveUpdatesMirrored(full, cfg, view, sent, events[..k], clock, remote);
      AppliedUnfolds(view, events, clock);
      DeliveredUnfolds(full, sent, events);
      EventStep(full, cfg, FoldAll(view, Applied(events[..k]), clock), sent + Delivered(full, events[..k]), events[k],
                clock(k), remote);
    }
  }

  lemma NoEvents(full: bool, view: View, sent: seq<Outgoing>, clock: nat -> int)
    requires ViewOk(view)
    ensures FoldAll(view, Applied([]), clock) == view
    ensures sent + Delivered(full, []) == sent
  {
  }

  lemma AppliedUnfolds(view: View, events: seq<Event>, clock: nat -> int)
    requires ViewOk(view) && events != []
    ensures var k := |events| - 1;
            FoldAll(view, Applied(events), clock)
            == Fold(FoldAll(view, Applied(events[..k]), clock), events[k].el, clock(k))
  {
    hide ViewOk, Fold, FoldAll;
    var k := |events| - 1;
    assert Applied(events) == Applied(events[..k]) + [events[k].el];
    FoldOneMore(view, Applied(events[..k]), events[k].el, clock);
  }

  lemma DeliveredUnfolds(full: bool, sent: seq<Outgoing>, events: seq<Event>)
    requires AllOk(full, events) && events != []
    ensures var k := |events| - 1;
            && AllOk(full, events[..k])
            && sent + Delivered(full, events)
               == if events[k].delivered
                  then sent + Delivered(full, events[..k]) + [Outgoing(events[k].el, events[k].blobs)]
                  else sent + Delivered(full, events[..k])
  {
    hide EventOk;
    var k := |events| - 1;
    assert forall j :: 0 <= j < k ==> events[..k][j] == events[j];
    Assoc(sent, Delivered(full, events[..k]), [Outgoing(events[k].el, events[k].blobs)]);
    assert Delivered(full, events[..k]) + [] == Delivered(full, events[..k]);
  }

  lemma LastEvent(full: bool, view: View, events: seq<Event>, clock: nat -> int)
    requires ViewOk(view) && events != [] && AllOk(full, events) && TypesKept(view, events, clock)
    ensures var k := |events| - 1;
            && EventOk(full, events[k])
            && TypeKept(FoldAll(view, Applied(events[..k]), clock), events[k].el, events[k].delivered)
            && AllOk(full, events[..k]) && TypesKept(view, events[..k], clock)
  {
    hide ViewOk, EventOk, TypeKept, FoldAll;
    var k := |events| - 1;
    assert forall j :: 0 <= j < k ==> events[..k][j] == events[j] && events[..k][..j] == events[..j];
  }

  lemma EventStep(full: bool, cfg: Config, a: View, out: seq<Outgoing>, e: Event, now: int, remote: nat -> int)
    requires ViewOk(a) && AllServerKinds(out) && Same(full, a, Received(cfg, out, remote))
    requires EventOk(full, e) && TypeKept(a, e.el, e.delivered)
    ensures e.delivered ==> AllServerKinds(out + [Outgoing(e.el, e.blobs)])
    ensures Same(full, Fold(a, e.el, now),
                 Received(cfg, if e.delivered then out + [Outgoing(e.el, e.blobs)] else out, remote))
  {
    hide Same, ViewOk, Parsed, TypeKept, Canon, Fold, Received, Fits;
    if e.delivered {
      var o := Outgoing(e.el, e.blobs);
      ReceivedOne(cfg, out, o, remote);
      StepMirrored(full, cfg, a, Received(cfg, out, remote), e.el, e.blobs, now, remote(|out|));
    } else if IsServerKind(e.el.kind) {
      UnseenBlobUpdate(a, Received(cfg, out, remote), e.el, now);
    } else {
      NoChange(a, e.el, now);
    }
  }

  // In bytes

  lemma {:induction false} CanonMembersCountFree(
      cfg: Config, v: Progress, w: Progress, def: bool, ms: seq<Member>, blobs: Payloads)
    requires v.el == w.el
    ensures CanonMembers(cfg, v, def, ms, blobs).el == CanonMembers(cfg, w, def, ms, blobs).el
    decreases |ms|
  {
    hide CanonMember;
    if ms == [] {
    } else {
      CanonMembersCountFree(cfg, CanonAdd(cfg, v, def, ms[0], blobs), CanonAdd(cfg, w, def, ms[0], blobs), def,
          ms[1..], blobs);
    }
  }

  lemma CanonCountFree(cfg: Config, el: Element, blobs: Payloads, unknown: nat, sunk: seq<Delivery>)
    requires IsServerKind(el.kind)
    ensures Canon(cfg, el, blobs, unknown, sunk).el == Canon(cfg, el, blobs, 0, []).el
  {
    var def := el.kind == KindDef;
    CanonMembersCountFree(cfg, Progress(CanonHead(el, def), unknown, sunk), Progress(CanonHead(el, def), 0, []), def,
        el.members, blobs);
  }

  /** The elements a parser yields. */
  function Elements(ps: seq<Progress>): (els: seq<Element>)
    ensures |els| == |ps|
  {
    seq(|ps|, i requires 0 <= i < |ps| => ps[i].el)
  }

  lemma {:induction false} CanonAllEls(cfg: Config, out: seq<Outgoing>, unknown: nat, sunk: seq<Delivery>)
    requires AllServerKinds(out)
    ensures Elements(CanonAll(cfg, out, unknown, sunk)) == Canons(cfg, out)
    decreases |out|
  {
    hide Canon;
    if out == [] {
    } else {
      CanonCountFree(cfg, out[0].el, out[0].blobs, unknown, sunk);
      var v := Canon(cfg, out[0].el, out[0].blobs, unknown, sunk);
      CanonAllEls(cfg, out[1..], v.unknown, v.sunk);
      var rest := CanonAll(cfg, out[1..], v.unknown, v.sunk);
      assert Elements([v] + rest) == [v.el] + Elements(rest);
      assert Canons(cfg, out) == [Canon(cfg, out[0].el, out[0].blobs, 0, []).el] + Canons(cfg, out[1..]);
    }
  }

  lemma ReplaySendable(view: View, keys: seq<Key>)
    requires Replayable(view) && AllIn(view, keys)
    ensures AllSendable(Replay(view, keys))
  {
    hide Fits;
    forall i | 0 <= i < |keys|
      ensures Sendable(Replay(view, keys)[i])
    {
      assert In(view, keys[i]);
      ReplayableHas(view, keys[i].0, keys[i].1);
    }
  }

  /** A full subscriber's store looks the same to one that is not. */
  lemma SameForAll(full: bool, a: View, b: View)
    requires Same(true, a, b)
    ensures Same(full, a, b)
  {
    forall d, p | Has(a, d, p)
      ensures FaceOf(full, a[d][p]) == FaceOf(full, b[d][p])
    {
      assert FaceOf(true, a[d][p]) == FaceOf(true, b[d][p]);
    }
  }

  /** A client that joins when the server's snapshot is `view`, with its properties
      replayed in any order, and then receives the live messages: reading the bytes
      and folding every element gives, after any number of events, a view that shows
      exactly the server's properties. */
  lemma JoinerMirrorsServer(
      full: bool, cfg: Config, view: View, keys: seq<Key>, events: seq<Event>, clock: nat -> int, remote: nat -> int)
    requires cfg.numbers.Lawful()
    requires ViewOk(view) && Replayable(view) && Enumerates(keys, view)
    requires AllOk(full, events)
    requires TypesKept(view, events, clock)
    ensures var bytes := StreamText(cfg.numbers, Replay(view, keys) + Delivered(full, events));
            var read := ReadAll(cfg, bytes, 0, []);
            && read.1 == ReadError
            && Same(full, FoldAll(view, Applied(events), clock), FoldAll(EMPTY, Elements(read.0), remote))
  {
    hide Same, ViewOk, Replayable, EventOk, TypesKept, Replay, FoldAll, Delivered, CanonAll, StreamText, ReadAll;
    var out := Replay(view, keys) + Delivered(full, events);
    ReplayRebuilds(cfg, view, keys, remote);
    SameForAll(full, view, Received(cfg, Replay(view, keys), remote));
    LiveUpdatesMirrored(full, cfg, view, Replay(view, keys), events, clock, remote);
    ReplaySendable(view, keys);
    StreamReads(cfg, out);
    CanonAllEls(cfg, out, 0, []);
  }
}
