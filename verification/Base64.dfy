/** Base64 quanta (section 4 of RFC 4648) as the parser decodes them. */
module Base64 {
  import opened Wire

  /** The reverse table b64rev: None stands for -1. */
  function Sextet(c: char): Option<bv8> {
    if 'A' <= c <= 'Z' then Some((c as int - 'A' as int) as bv8)
    else if 'a' <= c <= 'z' then Some((c as int - 'a' as int + 26) as bv8)
    else if '0' <= c <= '9' then Some((c as int - '0' as int + 52) as bv8)
    else if c == '+' then Some(62)
    else if c == '/' then Some(63)
    else None
  }

  /** The letter of a six-bit value. */
  function Letter(v: bv8): (c: char)
    requires v < 64
    ensures Sextet(c) == Some(v) && c != '=' && c != '<' && !AsciiSpace(c) && PlainChar(c)
  {
    var n := v as int;
    if n < 26 then 'A' + n as char
    else if n < 52 then 'a' + (n - 26) as char
    else if n < 62 then '0' + (n - 52) as char
    else if n == 62 then '+'
    else '/'
  }

  datatype Quantum = Bytes(bytes: seq<bv8>) | Bad(error: Error)

  /** decodeQuad: one quantum of four characters, padding validated. */
  function DecodeQuad(q: string): (r: Quantum)
    requires |q| == 4
    ensures r.Bytes? ==> 1 <= |r.bytes| <= 3
  {
    if q[0] == '=' || q[1] == '=' then Bad(BadPadding)
    else if q[2] == '=' && q[3] != '=' then Bad(BadPadding)
    else if Sextet(q[0]).None? then Bad(BadBase64(q[0]))
    else if Sextet(q[1]).None? then Bad(BadBase64(q[1]))
    else
      var v0, v1 := Sextet(q[0]).value, Sextet(q[1]).value;
      var out0 := (v0 << 2) | (v1 >> 4);
      if q[2] == '=' then Bytes([out0])
      else if Sextet(q[2]).None? then Bad(BadBase64(q[2]))
      else
        var v2 := Sextet(q[2]).value;
        var out1 := (v1 << 4) | (v2 >> 2);
        if q[3] == '=' then Bytes([out0, out1])
        else if Sextet(q[3]).None? then Bad(BadBase64(q[3]))
        else
          var v3 := Sextet(q[3]).value;
          var out2 := (v2 << 6) | v3;
          Bytes([out0, out1, out2])
  }

  /** The standard encoding of one group of one to three bytes. */
  function Quad(x: seq<bv8>): (q: string)
    requires 1 <= |x| <= 3
    ensures |q| == 4
  {
    var b1 := if |x| > 1 then x[1] else 0;
    var b2 := if |x| > 2 then x[2] else 0;
    var c0 := Letter(x[0] >> 2);
    var c1 := Letter(((x[0] & 3) << 4) | (b1 >> 4));
    var c2 := if |x| > 1 then Letter(((b1 & 15) << 2) | (b2 >> 6)) else '=';
    var c3 := if |x| > 2 then Letter(b2 & 63) else '=';
    [c0, c1, c2, c3]
  }

  /** base64.StdEncoding of a payload. */
  function Quanta(x: seq<bv8>): string {
    if x == [] then ""
    else if |x| <= 3 then Quad(x)
    else Quad(x[..3]) + Quanta(x[3..])
  }

  /** Sextets of one to three bytes go back to the same bytes. */
  lemma SextetsJoin(x: bv8, y: bv8, z: bv8)
    ensures x >> 2 < 64 && ((x & 3) << 4) | (y >> 4) < 64 && ((y & 15) << 2) | (z >> 6) < 64 && z & 63 < 64
    ensures ((x >> 2) << 2) | ((((x & 3) << 4) | (y >> 4)) >> 4) == x
    ensures ((((x & 3) << 4) | (y >> 4)) << 4) | ((((y & 15) << 2) | (z >> 6)) >> 2) == y
    ensures ((((y & 15) << 2) | (z >> 6)) << 6) | (z & 63) == z
  {
  }

  lemma QuadDecodes(x: seq<bv8>)
    requires 1 <= |x| <= 3
    ensures DecodeQuad(Quad(x)) == Bytes(x)
  {
    hide Sextet, Letter;
    SextetsJoin(x[0], if |x| > 1 then x[1] else 0, if |x| > 2 then x[2] else 0);
  }

  predicate InAlphabet(c: char) {
    'A' <= c <= 'Z' || 'a' <= c <= 'z' || '0' <= c <= '9' || c == '+' || c == '/'
  }

  /** What a quantum is: four of the alphabet, or three or two and padding, which says how
      many bytes it holds; everything else is an error. */
  lemma QuadAccepted(q: string)
    requires |q| == 4
    ensures DecodeQuad(q).Bytes? <==>
            && InAlphabet(q[0]) && InAlphabet(q[1])
            && (q[2..] == "==" || (InAlphabet(q[2]) && (q[3] == '=' || InAlphabet(q[3]))))
    ensures DecodeQuad(q).Bytes? ==>
            |DecodeQuad(q).bytes| == if q[2] == '=' then 1 else if q[3] == '=' then 2 else 3
  {
    forall c: char
      ensures Sextet(c).Some? <==> InAlphabet(c)
    {
    }
    hide Sextet;
    assert q[2..] == [q[2], q[3]];
  }

  lemma QuadLetters(x: seq<bv8>, i: nat)
    requires 1 <= |x| <= 3 && i < 4
    ensures Quad(x)[i] != '<' && !AsciiSpace(Quad(x)[i])
  {
  }
}
