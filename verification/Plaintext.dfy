/** A text for configuration files that loses nothing: what Management.Codec.Lawful asks
    for can be had. */
module Plaintext {
  import opened Configuration
  import opened Management
  import opened Wire

  // Lists of texts as one text

  /** Every character marked, then a stop. */
  function Part(p: string): string {
    if p == "" then "." else "+" + [p[0]] + Part(p[1..])
  }

  function Join(parts: seq<string>): string {
    if parts == [] then "" else Part(parts[0]) + Join(parts[1..])
  }

  lemma {:induction false} PartUnique(p: string, q: string, r: string, s: string)
    requires Part(p) + r == Part(q) + s
    ensures p == q && r == s
    decreases |p|
  {
    var a, b := Part(p) + r, Part(q) + s;
    assert a[0] == b[0];
    if p == "" {
      assert a[1..] == r && b[1..] == s;
    } else {
      assert a[1] == p[0] && b[1] == q[0];
      assert a[2..] == Part(p[1..]) + r && b[2..] == Part(q[1..]) + s;
      PartUnique(p[1..], q[1..], r, s);
      assert p == [p[0]] + p[1..] && q == [q[0]] + q[1..];
    }
  }

  lemma {:induction false} JoinUnique(a: seq<string>, b: seq<string>)
    requires Join(a) == Join(b)
    ensures a == b
    decreases |a|
  {
    hide Part;
    if a == [] || b == [] {
      Stops(a);
      Stops(b);
    } else {
      PartUnique(a[0], b[0], Join(a[1..]), Join(b[1..]));
      JoinUnique(a[1..], b[1..]);
      assert a == [a[0]] + a[1..] && b == [b[0]] + b[1..];
    }
  }

  lemma Stops(parts: seq<string>)
    ensures Join(parts) == "" <==> parts == []
  {
  }

  // A configuration file as a list of texts

  lemma DecUnique(m: int, n: int)
    requires Dec(m) == Dec(n)
    ensures m == n
  {
    var a, b := if m < 0 then -m else m, if n < 0 then -n else n;
    assert m < 0 ==> Dec(m)[1..] == DecNat(a);
    assert n < 0 ==> Dec(n)[1..] == DecNat(b);
    assert (m < 0 <==> Dec(m)[0] == '-') && (n < 0 <==> Dec(n)[0] == '-');
    DigitsOfDec(a);
    DigitsOfDec(b);
  }

  function FlagText(flag: Option<bool>): string {
    match flag
    case None => ""
    case Some(on) => if on then "+" else "-"
  }

  function Numbers(ns: seq<int>): (r: seq<string>)
    ensures |r| == |ns|
  {
    seq(|ns|, i requires 0 <= i < |ns| => Dec(ns[i]))
  }

  function PinsText(pins: Option<seq<int>>): string {
    match pins
    case None => ""
    case Some(ns) => Join(["+"] + Numbers(ns))
  }

  lemma PinsUnique(a: Option<seq<int>>, b: Option<seq<int>>)
    requires PinsText(a) == PinsText(b)
    ensures a == b
  {
    hide Join;
    JoinEmpty();
    JoinUnique(if a.None? then [] else ["+"] + Numbers(a.value), if b.None? then [] else ["+"] + Numbers(b.value));
    if a.Some? && b.Some? {
      assert |Numbers(a.value)| == |Numbers(b.value)|;
      assert (["+"] + Numbers(a.value))[1..] == Numbers(a.value) && (["+"] + Numbers(b.value))[1..] == Numbers(b.value);
      forall i | 0 <= i < |a.value|
        ensures a.value[i] == b.value[i]
      {
        assert Numbers(a.value)[i] == Numbers(b.value)[i];
        DecUnique(a.value[i], b.value[i]);
      }
      assert a.value == b.value;
    }
  }

  lemma JoinEmpty()
    ensures Join([]) == ""
  {
  }

  function EntryParts(e: Entry): seq<string> {
    [e.driver, e.exec, e.name, Dec(e.port), PinsText(e.pins), FlagText(e.enable), Join(e.presetKeys), e.deviceName,
     e.rest]
  }

  lemma EntryUnique(d: Entry, e: Entry)
    requires Join(EntryParts(d)) == Join(EntryParts(e))
    ensures d == e
  {
    hide Join, PinsText, Dec;
    JoinUnique(EntryParts(d), EntryParts(e));
    assert forall i :: 0 <= i < 9 ==> EntryParts(d)[i] == EntryParts(e)[i];
    DecUnique(d.port, e.port);
    PinsUnique(d.pins, e.pins);
    JoinUnique(d.presetKeys, e.presetKeys);
  }

  function Entries(devices: seq<Entry>): (r: seq<string>)
    ensures |r| == |devices|
  {
    seq(|devices|, i requires 0 <= i < |devices| => Join(EntryParts(devices[i])))
  }

  function FileParts(f: File): seq<string> {
    [Join(Entries(f.devices)), Dec(f.indiPort), f.indiListen, FlagText(f.alpaca)]
  }

  function Encode(f: File): string {
    Join(FileParts(f))
  }

  lemma FileUnique(f: File, g: File)
    requires Encode(f) == Encode(g)
    ensures f == g
  {
    hide Join, Dec, EntryParts;
    JoinUnique(FileParts(f), FileParts(g));
    assert forall i :: 0 <= i < 4 ==> FileParts(f)[i] == FileParts(g)[i];
    DecUnique(f.indiPort, g.indiPort);
    JoinUnique(Entries(f.devices), Entries(g.devices));
    assert |f.devices| == |Entries(f.devices)| == |g.devices|;
    forall i | 0 <= i < |f.devices|
      ensures f.devices[i] == g.devices[i]
    {
      assert Entries(f.devices)[i] == Entries(g.devices)[i];
      EntryUnique(f.devices[i], g.devices[i]);
    }
  }

  /** The file a text stands for, if any. */
  ghost function Decode(raw: string): Option<File> {
    if exists f: File :: Encode(f) == raw then
      var f: File :| Encode(f) == raw;
      Some(f)
    else None
  }

  /** With it, every file reads back as it was, for any hash and any set of drivers. */
  lemma LawfulCodec(hash: string -> string, known: set<string>)
    ensures exists codec: Codec :: codec.Lawful() && codec.hash == hash && codec.known == known
  {
    hide Encode;
    var codec := Codec((raw: string) => Decode(raw), (f: File) => Encode(f), hash, known);
    forall f: File
      ensures codec.decode(codec.encode(f)) == Some(f)
    {
      var g :| Encode(g) == Encode(f) && Decode(Encode(f)) == Some(g);
      FileUnique(f, g);
    }
    assert codec.Lawful();
  }
}
