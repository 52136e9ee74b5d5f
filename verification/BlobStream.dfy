/** In-stream BLOBs: whatever white space a driver breaks the base64 with, the
    parser yields the bytes that were encoded. */
module BlobStream {
  import opened Wire
  import opened Base64
  import opened Grammar

  /** The characters that are not white space. */
  function Strip(w: string): string {
    if w == "" then "" else if Blank?(w[0]) then Strip(w[1..]) else [w[0]] + Strip(w[1..])
  }

  /** Quantum by quantum decoding of a whole text without white space. */
  function DecodeAll(s: string): Quantum {
    if s == "" then Bytes([])
    else if |s| < 4 then Bad(TruncatedBase64(|s|))
    else match DecodeQuad(s[..4])
         case Bad(e) => Bad(e)
         case Bytes(head) =>
           match DecodeAll(s[4..])
           case Bad(e) => Bad(e)
           case Bytes(tail) => Bytes(head + tail)
  }

  /** Decoding undoes encoding. */
  lemma {:induction false} QuantaDecode(x: seq<bv8>)
    ensures DecodeAll(Quanta(x)) == Bytes(x)
  {
    hide Quad, DecodeQuad;
    if x == [] {
    } else {
      var group := if |x| <= 3 then x else x[..3];
      QuadDecodes(group);
      assert x == group + x[|group|..];
      QuantaDecode(x[|group|..]);
      assert Quanta(x) == Quad(group) + Quanta(x[|group|..]);
      assert Quanta(x)[..4] == Quad(group) && Quanta(x)[4..] == Quanta(x[|group|..]);
    }
  }

  predicate QuadAt(s: string, k: nat) {
    4 * k + 4 <= |s| && DecodeQuad(s[4 * k..4 * k + 4]).Bytes?
  }

  /** A text decodes exactly when it is whole quanta, each decodable by itself. */
  lemma {:induction false} DecodesIff(s: string)
    ensures DecodeAll(s).Bytes? <==> |s| % 4 == 0 && forall k :: 0 <= k < |s| / 4 ==> QuadAt(s, k)
  {
    hide DecodeQuad;
    if |s| >= 4 {
      var t := s[4..];
      DecodesIff(t);
      assert QuadAt(s, 0) == DecodeQuad(s[..4]).Bytes?;
      forall k: nat
        ensures QuadAt(t, k) == QuadAt(s, k + 1)
      {
        if 4 * k + 4 <= |t| {
          assert t[4 * k..4 * k + 4] == s[4 * (k + 1)..4 * (k + 1) + 4];
        }
      }
      assert forall k :: 1 <= k < |s| / 4 ==> QuadAt(s, k) == QuadAt(t, k - 1);
    }
  }

  /** What the parser makes of content w, a partial quantum and decoded bytes
      already in hand, when the right close tag follows. */
  function Outcome(d: Quantum, acc: seq<bv8>, rest: string): Scan<seq<bv8>> {
    match d
    case Bad(e) => Fail(e)
    case Bytes(bs) => Done(acc + bs, rest)
  }

  /** Streaming decode, one byte at a time, equals decoding the stripped text whole:
      exactly its bytes, or the error of its first bad quantum. */
  lemma {:induction false} StreamDecodes(tag: string, w: string, quad: string, acc: seq<bv8>, rest: string)
    requires |quad| < 4 && forall i :: 0 <= i < |w| ==> w[i] != '<'
    requires CloseTag("</" + rest).Done? && CloseTag("</" + rest).value == tag
    ensures BlobContent(tag, w + ("</" + rest), quad, acc)
         == Outcome(DecodeAll(quad + Strip(w)), acc, CloseTag("</" + rest).rest)
  {
    hide DecodeQuad, CloseTag;
    var s := w + ("</" + rest);
    if w == "" {
      assert s == "</" + rest;
      assert quad + Strip(w) == quad;
      assert acc + [] == acc;
    } else {
      assert s[1..] == w[1..] + ("</" + rest);
      if Blank?(w[0]) {
        StreamDecodes(tag, w[1..], quad, acc, rest);
      } else {
        var quad' := quad + [w[0]];
        assert quad + Strip(w) == quad' + Strip(w[1..]);
        if |quad'| < 4 {
          StreamDecodes(tag, w[1..], quad', acc, rest);
        } else {
          var all := quad' + Strip(w[1..]);
          assert all[..4] == quad' && all[4..] == Strip(w[1..]) == "" + Strip(w[1..]);
          if DecodeQuad(quad').Bytes? {
            var head := DecodeQuad(quad').bytes;
            StreamDecodes(tag, w[1..], "", acc + head, rest);
            if DecodeAll(Strip(w[1..])).Bytes? {
              var tail := DecodeAll(Strip(w[1..])).bytes;
              assert acc + head + tail == acc + (head + tail);
            }
          }
        }
      }
    }
  }

  /** Every insertion of white space into the encoding of x yields exactly x. */
  lemma BlobRoundTrip(tag: string, x: seq<bv8>, w: string, rest: string)
    requires forall i :: 0 <= i < |w| ==> w[i] != '<'
    requires Strip(w) == Quanta(x)
    requires CloseTag("</" + rest).Done? && CloseTag("</" + rest).value == tag
    ensures BlobContent(tag, w + ("</" + rest), "", []) == Done(x, CloseTag("</" + rest).rest)
  {
    hide CloseTag, Quanta, BlobContent;
    StreamDecodes(tag, w, "", [], rest);
    QuantaDecode(x);
    assert "" + Strip(w) == Strip(w);
    assert [] + x == x;
  }

  /** Content whose stripped length is not a multiple of four is never accepted. */
  lemma PartialQuantumRejected(tag: string, w: string, rest: string)
    requires forall i :: 0 <= i < |w| ==> w[i] != '<'
    requires |Strip(w)| % 4 != 0
    requires CloseTag("</" + rest).Done? && CloseTag("</" + rest).value == tag
    ensures BlobContent(tag, w + ("</" + rest), "", []).Fail?
  {
    hide CloseTag, BlobContent;
    StreamDecodes(tag, w, "", [], rest);
    DecodesIff(Strip(w));
    assert "" + Strip(w) == Strip(w);
  }

  /** The encoding itself holds no white space and no markup. */
  lemma {:induction false} QuantaClean(x: seq<bv8>)
    ensures Strip(Quanta(x)) == Quanta(x)
    ensures forall i :: 0 <= i < |Quanta(x)| ==> Quanta(x)[i] != '<'
  {
    hide Quad;
    if x == [] {
    } else {
      var group := if |x| <= 3 then x else x[..3];
      QuantaClean(x[|group|..]);
      var q, tail := Quad(group), Quanta(x[|group|..]);
      assert Quanta(x) == q + tail;
      QuadLetters(group, 0);
      QuadLetters(group, 1);
      QuadLetters(group, 2);
      QuadLetters(group, 3);
      StripQuad(q, tail);
    }
  }

  lemma StripQuad(q: string, tail: string)
    requires |q| == 4 && forall i :: 0 <= i < 4 ==> !Blank?(q[i])
    ensures Strip(q + tail) == q + Strip(tail)
  {
    var s := q + tail;
    assert s[1..] == [q[1], q[2], q[3]] + tail;
    assert s[1..][1..] == [q[2], q[3]] + tail;
    assert s[1..][1..][1..] == [q[3]] + tail;
    assert s[1..][1..][1..][1..] == tail;
    assert [q[3]] + Strip(tail) == Strip([q[3]] + tail);
    assert Strip([q[2], q[3]] + tail) == [q[2]] + ([q[3]] + Strip(tail));
    assert Strip([q[1], q[2], q[3]] + tail) == [q[1]] + ([q[2]] + ([q[3]] + Strip(tail)));
  }
}
