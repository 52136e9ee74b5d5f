/** Natural ordering of property names: digit runs compare as numbers. */
module NatOrder {
  import opened Wire

  // Chunks

  /** The length of the leading run of digits, or of non-digits. */
  function Run(s: string, digits: bool): (n: nat)
    ensures n <= |s|
    ensures forall i :: 0 <= i < n ==> IsDigit(s[i]) == digits
    ensures n < |s| ==> IsDigit(s[n]) != digits
  {
    if s == "" || IsDigit(s[0]) != digits then 0 else 1 + Run(s[1..], digits)
  }

  /** The first chunk of a name, a run of one kind. */
  function Head(s: string): (h: string)
    requires s != ""
    ensures h != "" && h <= s
  {
    s[..Run(s, IsDigit(s[0]))]
  }

  function Rest(s: string): (r: string)
    requires s != ""
    ensures |r| < |s| && s == Head(s) + r
  {
    s[|Head(s)|..]
  }

  /** strconv.Atoi of a chunk: chunks of other bytes, and numbers beyond int64, fail. */
  function Atoi(s: string): Option<nat> {
    match Digits(s)
    case None => None
    case Some(n) => if n <= MAX_INT64 then Some(n) else None
  }

  /** Byte order. */
  predicate BytesLess(a: string, b: string) {
    b != "" && (a == "" || a[0] < b[0] || (a[0] == b[0] && BytesLess(a[1..], b[1..])))
  }

  // natLess

  predicate Less(a: string, b: string)
    decreases |a|
  {
    if a == "" || b == "" then |a| < |b|
    else
      var ca, cb := Head(a), Head(b);
      if ca == cb then Less(Rest(a), Rest(b))
      else
        match (Atoi(ca), Atoi(cb))
        case (Some(na), Some(nb)) => if na != nb then na < nb else Less(Rest(a), Rest(b))
        case _ => BytesLess(ca, cb)
  }

  /** The leading run of one kind, byte by byte. */
  method Chunk(s: string) returns (head: string, rest: string)
    requires s != ""
    ensures head == Head(s) && rest == Rest(s)
  {
    var digit := IsDigit(s[0]);
    var i := 0;
    while i < |s| && IsDigit(s[i]) == digit
      invariant i <= |s|
      invariant Run(s, digit) == i + Run(s[i..], digit)
    {
      i := i + 1;
    }
    return s[..i], s[i..];
  }

  method NatLess(x: string, y: string) returns (less: bool)
    ensures less == Less(x, y)
  {
    var a, b := x, y;
    while a != "" && b != ""
      invariant Less(a, b) == Less(x, y)
      decreases |a|
    {
      var ca, ra := Chunk(a);
      var cb, rb := Chunk(b);
      if ca != cb {
        var na, nb := Atoi(ca), Atoi(cb);
        if na.Some? && nb.Some? {
          if na.value != nb.value {
            return na.value < nb.value;
          }
        } else {
          return BytesLess(ca, cb);
        }
      }
      a, b := ra, rb;
    }
    return |a| < |b|;
  }

  // What a name is to the order

  /** A chunk: a number, or text as it stands. */
  datatype Tok = Num(n: nat) | Txt(s: string)

  function TokOf(c: string): Tok {
    if Atoi(c).Some? then Num(Atoi(c).value) else Txt(c)
  }

  function Key(s: string): seq<Tok>
    decreases |s|
  {
    if s == "" then [] else [TokOf(Head(s))] + Key(Rest(s))
  }

  /** Every digit run fits in an int64. */
  predicate Fits(s: string)
    decreases |s|
  {
    s != "" ==> (IsDigit(s[0]) ==> Atoi(Head(s)).Some?) && Fits(Rest(s))
  }

  /** Text tokens are not empty and start with no digit. */
  predicate Proper(t: Tok) {
    t.Txt? ==> t.s != "" && !IsDigit(t.s[0])
  }

  predicate AllProper(k: seq<Tok>) {
    forall i :: 0 <= i < |k| ==> Proper(k[i])
  }

  /** Numbers by value, text by bytes; a number stands where a digit would. */
  predicate TokLess(x: Tok, y: Tok)
    requires Proper(x) && Proper(y)
  {
    match (x, y)
    case (Num(m), Num(n)) => m < n
    case (Txt(s), Txt(t)) => BytesLess(s, t)
    case (Num(_), Txt(t)) => t[0] > '9'
    case (Txt(s), Num(_)) => s[0] < '0'
  }

  predicate KeyLess(x: seq<Tok>, y: seq<Tok>)
    requires AllProper(x) && AllProper(y)
  {
    y != [] && (x == [] || TokLess(x[0], y[0]) || (x[0] == y[0] && KeyLess(x[1..], y[1..])))
  }

  lemma {:induction false} DigitsDigits(s: string)
    ensures Digits(s).Some? <==> s != "" && forall i :: 0 <= i < |s| ==> IsDigit(s[i])
  {
    if |s| > 1 {
      DigitsDigits(s[..|s| - 1]);
    }
  }

  /** A chunk's token: a number exactly if the chunk is digits. */
  lemma HeadTok(s: string)
    requires s != "" && (IsDigit(s[0]) ==> Atoi(Head(s)).Some?)
    ensures TokOf(Head(s)).Num? <==> IsDigit(s[0])
    ensures Proper(TokOf(Head(s)))
  {
    DigitsDigits(Head(s));
    assert Head(s)[0] == s[0];
  }

  lemma {:induction false} KeyProper(s: string)
    requires Fits(s)
    ensures AllProper(Key(s))
    decreases |s|
  {
    if s == "" {
    } else {
      HeadTok(s);
      KeyProper(Rest(s));
    }
  }

  lemma BytesLessFirst(a: string, b: string)
    requires a != "" && b != "" && a[0] != b[0]
    ensures BytesLess(a, b) <==> a[0] < b[0]
  {
  }

  lemma {:induction false} BytesTotal(a: string, b: string)
    ensures !BytesLess(a, a)
    ensures BytesLess(a, b) || a == b || BytesLess(b, a)
    ensures !(BytesLess(a, b) && BytesLess(b, a))
    decreases |a|
  {
    if a == "" {
    } else {
      BytesTotal(a[1..], if b == "" then b else b[1..]);
      if b != "" && a[0] == b[0] && a[1..] == b[1..] {
        assert a == [a[0]] + a[1..] && b == [b[0]] + b[1..];
      }
    }
  }

  lemma {:induction false} BytesTransitive(a: string, b: string, c: string)
    requires BytesLess(a, b) && BytesLess(b, c)
    ensures BytesLess(a, c)
    decreases |a|
  {
    if a != "" && a[0] == b[0] == c[0] {
      BytesTransitive(a[1..], b[1..], c[1..]);
    }
  }

  /** Where digit runs fit, the loop compares keys. */
  lemma {:induction false} LessIsKeyLess(a: string, b: string)
    requires Fits(a) && Fits(b)
    ensures AllProper(Key(a)) && AllProper(Key(b))
    ensures Less(a, b) <==> KeyLess(Key(a), Key(b))
    decreases |a|
  {
    KeyProper(a);
    KeyProper(b);
    if a != "" && b != "" {
      HeadTok(a);
      HeadTok(b);
      LessIsKeyLess(Rest(a), Rest(b));
      HeadsCompare(a, b);
      assert Key(a)[1..] == Key(Rest(a)) && Key(b)[1..] == Key(Rest(b));
    }
  }

  /** Two chunks: equal tokens, or the token order is what the loop decides by. */
  lemma HeadsCompare(a: string, b: string)
    requires a != "" && b != "" && Fits(a) && Fits(b)
    ensures Proper(TokOf(Head(a))) && Proper(TokOf(Head(b)))
    ensures TokOf(Head(a)) == TokOf(Head(b)) ==> Less(a, b) == Less(Rest(a), Rest(b))
    ensures TokOf(Head(a)) != TokOf(Head(b)) ==> Less(a, b) == TokLess(TokOf(Head(a)), TokOf(Head(b)))
    ensures TokOf(Head(a)) == TokOf(Head(b)) ==> !TokLess(TokOf(Head(a)), TokOf(Head(b)))
  {
    HeadTok(a);
    HeadTok(b);
    var ca, cb := Head(a), Head(b);
    BytesTotal(ca, cb);
    assert ca[0] == a[0] && cb[0] == b[0];
    if IsDigit(a[0]) != IsDigit(b[0]) {
      BytesLessFirst(ca, cb);
    }
  }

  // A strict weak order

  lemma TokTotal(x: Tok, y: Tok)
    requires Proper(x) && Proper(y)
    ensures !TokLess(x, x)
    ensures TokLess(x, y) || x == y || TokLess(y, x)
    ensures !(TokLess(x, y) && TokLess(y, x))
  {
    if x.Txt? && y.Txt? {
      BytesTotal(x.s, y.s);
    }
    if x.Txt? {
      BytesTotal(x.s, x.s);
    }
  }

  lemma TokTransitive(x: Tok, y: Tok, z: Tok)
    requires Proper(x) && Proper(y) && Proper(z) && TokLess(x, y) && TokLess(y, z)
    ensures TokLess(x, z)
  {
    if x.Txt? && y.Txt? && z.Txt? {
      BytesTransitive(x.s, y.s, z.s);
    }
  }

  lemma {:induction false} KeyTotal(x: seq<Tok>, y: seq<Tok>)
    requires AllProper(x) && AllProper(y)
    ensures !KeyLess(x, x)
    ensures KeyLess(x, y) || x == y || KeyLess(y, x)
    ensures !(KeyLess(x, y) && KeyLess(y, x))
    decreases |x|
  {
    if x == [] {
    } else {
      TokTotal(x[0], x[0]);
      KeyTotal(x[1..], if y == [] then y else y[1..]);
      if y == [] {
      } else {
        TokTotal(x[0], y[0]);
        if x[0] == y[0] && x[1..] == y[1..] {
          assert x == [x[0]] + x[1..] && y == [y[0]] + y[1..];
        }
      }
    }
  }

  lemma {:induction false} KeyTransitive(x: seq<Tok>, y: seq<Tok>, z: seq<Tok>)
    requires AllProper(x) && AllProper(y) && AllProper(z) && KeyLess(x, y) && KeyLess(y, z)
    ensures KeyLess(x, z)
    decreases |x|
  {
    if x == [] {
    } else {
      if x[0] == y[0] && y[0] == z[0] && !TokLess(x[0], y[0]) && !TokLess(y[0], z[0]) {
        KeyTransitive(x[1..], y[1..], z[1..]);
      } else if TokLess(x[0], y[0]) && TokLess(y[0], z[0]) {
        TokTransitive(x[0], y[0], z[0]);
      }
    }
  }

  /** On names whose digit runs fit, natLess is a strict weak order: irreflexive,
      transitive, and names it cannot tell apart are those with the same key. */
  lemma StrictWeak(a: string, b: string, c: string)
    requires Fits(a) && Fits(b) && Fits(c)
    ensures !Less(a, a)
    ensures Less(a, b) && Less(b, c) ==> Less(a, c)
    ensures !Less(a, b) && !Less(b, a) <==> Key(a) == Key(b)
  {
    hide Less, KeyLess;
    LessIsKeyLess(a, a);
    LessIsKeyLess(a, b);
    LessIsKeyLess(b, a);
    LessIsKeyLess(b, c);
    LessIsKeyLess(a, c);
    KeyTotal(Key(a), Key(b));
    KeyTotal(Key(a), Key(a));
    if Less(a, b) && Less(b, c) {
      KeyTransitive(Key(a), Key(b), Key(c));
    }
  }

  // Leading zeros

  /** No digit run has leading zeros. */
  predicate NoLeadingZeros(s: string)
    decreases |s|
  {
    s != "" ==> (s[0] == '0' ==> |Head(s)| == 1) && NoLeadingZeros(Rest(s))
  }

  /** A number is its own decimal spelling. */
  lemma {:induction false} DigitsSpell(s: string)
    requires Digits(s).Some? && (s[0] == '0' ==> |s| == 1)
    ensures DecNatRaw(Digits(s).value) == s
    ensures s[0] != '0' ==> Digits(s).value > 0
    decreases |s|
  {
    var k := |s| - 1;
    if k > 0 {
      DigitsDigits(s);
      DigitsSpell(s[..k]);
      assert s == s[..k] + [s[k]];
    }
  }

  /** Names without leading zeros are told apart by their keys. */
  lemma {:induction false} KeyInjective(a: string, b: string)
    requires Fits(a) && Fits(b) && NoLeadingZeros(a) && NoLeadingZeros(b) && Key(a) == Key(b)
    ensures a == b
    decreases |a|
  {
    if a != "" && b != "" {
      HeadTok(a);
      HeadTok(b);
      assert Key(a)[0] == Key(b)[0];
      assert Key(a)[1..] == Key(Rest(a)) && Key(b)[1..] == Key(Rest(b));
      KeyInjective(Rest(a), Rest(b));
      if IsDigit(a[0]) {
        DigitsSpell(Head(a));
        DigitsSpell(Head(b));
      }
      assert Head(a) == Head(b);
    }
  }

  /** On such names the order is total. */
  lemma TotalWithoutZeros(a: string, b: string)
    requires Fits(a) && Fits(b) && NoLeadingZeros(a) && NoLeadingZeros(b)
    ensures Less(a, b) || a == b || Less(b, a)
  {
    StrictWeak(a, b, a);
    if Key(a) == Key(b) {
      KeyInjective(a, b);
    }
  }

  // Beyond int64

  /** One followed by zeros. */
  function PowerOfTen(k: nat): (s: string)
    ensures |s| == k + 1 && s[0] == '1'
  {
    if k == 0 then "1" else PowerOfTen(k - 1) + "0"
  }

  lemma {:induction false} PowerOfTenValue(k: nat)
    ensures Digits(PowerOfTen(k)) == Some(Pow10(k))
    ensures Run(PowerOfTen(k), true) == k + 1
  {
    if k > 0 {
      PowerOfTenValue(k - 1);
      var s := PowerOfTen(k);
      assert s[..|s| - 1] == PowerOfTen(k - 1);
    }
    DigitsDigits(PowerOfTen(k));
  }

  lemma TenTo19()
    ensures Pow10(19) == 10000000000000000000
  {
    assert Pow10(5) == 100000;
    assert Pow10(10) == 10000000000;
    assert Pow10(15) == 1000000000000000;
  }

  lemma BigChunk()
    ensures Head(PowerOfTen(19)) == PowerOfTen(19) && Atoi(PowerOfTen(19)) == None
  {
    hide PowerOfTen, Pow10, Run, Digits;
    var big := PowerOfTen(19);
    PowerOfTenValue(19);
    TenTo19();
    assert IsDigit(big[0]) && big[..20] == big;
  }

  lemma SmallChunks()
    ensures Head("2") == "2" && Atoi("2") == Some(2) && Head("10") == "10" && Atoi("10") == Some(10)
  {
    assert Run("2", true) == 1 && Digits("2") == Some(2);
    assert "10"[1..] == "0" && "10"[..1] == "1";
    assert Run("0", true) == 1 && Run("10", true) == 2;
    assert Digits("1") == Some(1) && Digits("10") == Some(10);
  }

  lemma BigFirst()
    ensures BytesLess("10", PowerOfTen(19)) && BytesLess(PowerOfTen(19), "2")
  {
    hide PowerOfTen;
    var big := PowerOfTen(19);
    TenSecond(19);
    assert "10"[0] == big[0] == '1' && "10"[1..] == "0" && "0"[1..] == "";
    assert big[1..][0] == '0' && big[1..][1..] != "";
    assert BytesLess("0", big[1..]);
  }

  /** Numbers beyond int64 compare as text, and then the order has a cycle. */
  lemma CycleBeyondInt64()
    ensures Less("2", "10") && Less("10", PowerOfTen(19)) && Less(PowerOfTen(19), "2")
  {
    hide PowerOfTen, Atoi, Head, BytesLess;
    BigChunk();
    SmallChunks();
    BigFirst();
    assert |PowerOfTen(19)| == 20;
  }

  lemma {:induction false} TenSecond(k: nat)
    requires k > 0
    ensures PowerOfTen(k)[1] == '0'
  {
    if k > 1 {
      TenSecond(k - 1);
    }
  }
}
