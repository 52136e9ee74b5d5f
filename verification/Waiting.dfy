/** Waiters for a property's next update: one-shot channels, signalled under a lock. */
module Waiting {
  import opened Lists
  import opened Wire

  /** What a waiter is told: an update came, or why none will. */
  datatype Outcome = Updated | Failed(why: string)

  /** The map key of a property. */
  function MapKey(device: string, prop: string): string {
    device + [0 as char] + prop
  }

  predicate NoNul(s: string) {
    forall i :: 0 <= i < |s| ==> s[i] != 0 as char
  }

  /** Equal keys of a shorter and a longer device: the longer one holds the separator, and
      so does the property of the shorter. */
  lemma ShorterNul(d: string, p: string, e: string, q: string)
    requires |d| < |e| && MapKey(d, p) == MapKey(e, q)
    ensures !NoNul(e) && !NoNul(p)
  {
    assert e[|d|] == MapKey(e, q)[|d|] == MapKey(d, p)[|d|] == 0 as char;
    assert p[|e| - |d| - 1] == MapKey(d, p)[|e|] == MapKey(e, q)[|e|] == 0 as char;
  }

  /** Keys tell properties apart unless names hold NUL bytes. */
  lemma KeyInjective(d: string, p: string, e: string, q: string)
    requires NoNul(d) && NoNul(e) && MapKey(d, p) == MapKey(e, q)
    ensures d == e && p == q
  {
    var k := MapKey(d, p);
    if |d| < |e| {
      ShorterNul(d, p, e, q);
      assert false;
    }
    if |e| < |d| {
      ShorterNul(e, q, d, p);
      assert false;
    }
    assert d == k[..|d|] == e;
    assert p == k[|d| + 1..] == q;
  }

  /** A property has its key to itself exactly if its names hold no NUL byte. */
  lemma KeyIdentifiesIff(d: string, p: string)
    ensures (forall e, q :: MapKey(e, q) == MapKey(d, p) ==> e == d && q == p) <==> NoNul(d) && NoNul(p)
  {
    if NoNul(d) && NoNul(p) {
      forall e, q | MapKey(e, q) == MapKey(d, p)
        ensures e == d && q == p
      {
        OwnKey(d, p, e, q);
      }
    } else if !NoNul(d) {
      var i :| 0 <= i < |d| && d[i] == 0 as char;
      var e, q := d[..i], d[i + 1..] + [0 as char] + p;
      assert d == e + [0 as char] + d[i + 1..];
      assert MapKey(e, q) == MapKey(d, p);
    } else {
      var i :| 0 <= i < |p| && p[i] == 0 as char;
      var e, q := d + [0 as char] + p[..i], p[i + 1..];
      assert p == p[..i] + [0 as char] + q;
      assert MapKey(e, q) == MapKey(d, p);
    }
  }

  lemma OwnKey(d: string, p: string, e: string, q: string)
    requires NoNul(d) && NoNul(p) && MapKey(e, q) == MapKey(d, p)
    ensures e == d && q == p
  {
    var k := MapKey(d, p);
    if |e| < |d| {
      ShorterNul(e, q, d, p);
      assert false;
    }
    if |e| > |d| {
      ShorterNul(d, p, e, q);
      assert false;
    }
    assert e == k[..|d|] == d;
    assert q == k[|d| + 1..] == p;
  }

  /** A channel with room for one value. */
  class Chan {
    const key: string
    var sent: seq<Outcome>

    constructor (key: string)
      ensures this.key == key && sent == []
    {
      this.key := key;
      sent := [];
    }

    /** Would block, the lock held, if a value had been sent before. */
    method Send(v: Outcome)
      requires sent == []
      modifies this
      ensures sent == [v]
    {
      sent := sent + [v];
    }
  }

  class Waiters {
    var m: map<string, seq<Chan>>
    /** Every channel ever handed out. */
    ghost var issued: set<Chan>

    /** A channel is in the map, once and under its own key, exactly until its one value. */
    ghost predicate Valid()
      reads this, issued
    {
      && (forall k :: k in m ==> Distinct(m[k]) && forall c :: c in m[k] ==> c in issued && c.key == k && c.sent == [])
      && (forall c :: c in issued ==> |c.sent| <= 1 && (c.sent == [] <==> c.key in m && c in m[c.key]))
    }

    constructor ()
      ensures Valid() && issued == {}
    {
      m := map[];
      issued := {};
    }

    method Register(device: string, prop: string) returns (ch: Chan)
      requires Valid()
      modifies this
      ensures Valid() && fresh(ch) && ch.key == MapKey(device, prop) && ch.sent == []
      ensures issued == old(issued) + {ch}
    {
      var k := MapKey(device, prop);
      ch := new Chan(k);
      m := m[k := (if k in m then m[k] else []) + [ch]];
      issued := issued + {ch};
    }

    /** Send one value to each channel of a key and forget the key. */
    method Signal(k: string, v: Outcome)
      requires Valid()
      modifies this`m, issued
      ensures Valid() && issued == old(issued) && m == old(m) - {k}
      ensures forall c :: c in issued ==>
                c.sent == if c.key == k && old(c.sent) == [] then [v] else old(c.sent)
    {
      if k in m {
        var chans := m[k];
        for i := 0 to |chans|
          invariant m == old(m) && issued == old(issued)
          invariant forall j :: 0 <= j < |chans| ==> chans[j] in issued && chans[j].sent == if j < i then [v] else []
          invariant forall c :: c in issued && c !in chans ==> c.sent == old(c.sent)
        {
          chans[i].Send(v);
        }
        m := m - {k};
      }
    }

    /** Exactly the waiters of this property that have not had their value get it. */
    method Notify(device: string, prop: string)
      requires Valid()
      modifies this`m, issued
      ensures Valid() && issued == old(issued)
      ensures forall c :: c in issued ==>
                c.sent == if c.key == MapKey(device, prop) && old(c.sent) == [] then [Updated] else old(c.sent)
    {
      Signal(MapKey(device, prop), Updated);
    }

    /** Every waiter there is gets its value now, if it has not had it. */
    method FailAll(why: string)
      requires Valid()
      modifies this`m, issued
      ensures Valid() && issued == old(issued) && m == map[]
      ensures forall c :: c in issued ==> c.sent == if old(c.sent) == [] then [Failed(why)] else old(c.sent)
      ensures forall c :: c in issued ==> |c.sent| == 1
    {
      while m != map[]
        invariant Valid() && issued == old(issued)
        invariant forall c :: c in issued ==>
                    c.sent == if old(c.sent) == [] && c.key !in m then [Failed(why)] else old(c.sent)
        decreases |m|
      {
        var k :| k in m;
        ghost var before := m;
        Signal(k, Failed(why));
        assert m.Keys == before.Keys - {k};
        assert |m.Keys| == |m| && |before.Keys| == |before|;
      }
    }
  }
}
