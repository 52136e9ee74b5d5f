/** FITS frames: the header scan, and pixels to little-endian, top-down. */
module Fits {
  import opened Results
  import opened Wire

  const BLOCK: nat := 2880
  const CARD: nat := 80

  type Bytes = seq<bv8>

  datatype Trouble =
    | NotFits | NoEnd | BadNaxis | BadDimensions | BadScale | BadBitpix | Truncated | BadZero

  /** The reading of a number, if the text is one: strconv.ParseFloat. */
  type Reading = string -> Option<real>

  datatype Header = Header(
    bitpix: int, naxis: int, width: int, height: int, planes: int,
    bzero: real, bscale: real, rowOrder: string, bayer: string, dataOffset: nat)

  const BLANK := Header(0, 0, 0, 0, 0, 0.0, 1.0, "", "", 0)

  // Cards

  function Text(b: Bytes): (s: string)
    ensures |s| == |b|
  {
    seq(|b|, i requires 0 <= i < |b| => b[i] as char)
  }

  function TrimSpaces(s: string): (r: string)
    ensures r <= s
  {
    if s != "" && s[|s| - 1] == ' ' then TrimSpaces(s[..|s| - 1]) else s
  }

  function Find(s: string, c: char): (i: nat)
    ensures i <= |s| && (i < |s| ==> s[i] == c) && forall k :: 0 <= k < i ==> s[k] != c
  {
    if s == "" || s[0] == c then 0 else 1 + Find(s[1..], c)
  }

  /** ASCII strings.ToUpper. */
  function Upper(s: string): string {
    seq(|s|, i requires 0 <= i < |s| => if 'a' <= s[i] <= 'z' then s[i] - 'a' + 'A' else s[i])
  }

  function Quoted(s: string): string {
    var t := TrimSpace(s);
    if |t| < 2 || t[0] != '\'' then t
    else TrimSpaces(t[1..][..Find(t[1..], '\'')])
  }

  /** int(f): toward zero. */
  function Truncated(x: real): int {
    if x >= 0.0 then x.Floor else 0 - (0.0 - x).Floor
  }

  function Atoi(read: Reading, s: string): int {
    match read(s)
    case None => 0
    case Some(x) => Truncated(x)
  }

  function Float(read: Reading, s: string): real {
    match read(s)
    case None => 0.0
    case Some(x) => x
  }

  function CardAt(fits: Bytes, k: nat): (card: string)
    requires CARD * k + CARD <= |fits|
    ensures |card| == CARD
  {
    Text(fits[CARD * k..CARD * k + CARD])
  }

  function KeyOf(card: string): string
    requires |card| == CARD
  {
    TrimSpaces(card[..8])
  }

  predicate IsEnd(card: string)
    requires |card| == CARD
  {
    KeyOf(card) == "END"
  }

  /** A card's value: up to a comment, unless it is a string. */
  function ValueOf(card: string): string
    requires |card| == CARD
  {
    var val := card[10..];
    var trimmed := TrimSpace(val);
    TrimSpace(if Find(val, '/') < |val| && !(trimmed != "" && trimmed[0] == '\'') then val[..Find(val, '/')] else val)
  }

  /** What one card says. */
  function Read(read: Reading, h: Header, card: string): Header
    requires |card| == CARD
  {
    if card[8] != '=' then h
    else
      var v := ValueOf(card);
      match KeyOf(card)
      case "BITPIX" => h.(bitpix := Atoi(read, v))
      case "NAXIS" => h.(naxis := Atoi(read, v))
      case "NAXIS1" => h.(width := Atoi(read, v))
      case "NAXIS2" => h.(height := Atoi(read, v))
      case "NAXIS3" => h.(planes := Atoi(read, v))
      case "BZERO" => h.(bzero := Float(read, v))
      case "BSCALE" => h.(bscale := Float(read, v))
      case "ROWORDER" => h.(rowOrder := Upper(Quoted(v)))
      case "BAYERPAT" => h.(bayer := Upper(Quoted(v)))
      case _ => h
  }

  /** What the first k cards say, later ones over earlier ones. */
  function Cards(read: Reading, fits: Bytes, k: nat): Header
    requires CARD * k <= |fits|
  {
    if k == 0 then BLANK else Read(read, Cards(read, fits, k - 1), CardAt(fits, k - 1))
  }

  // What the cards decide, key by key

  /** A card that gives a key a value. */
  predicate Gives(card: string, key: string)
    requires |card| == CARD
  {
    KeyOf(card) == key && card[8] == '='
  }

  predicate GivesAt(fits: Bytes, j: nat, key: string) {
    CARD * j + CARD <= |fits| && Gives(CardAt(fits, j), key)
  }

  ghost function ValueAt(fits: Bytes, j: nat): Option<string> {
    if CARD * j + CARD <= |fits| then Some(ValueOf(CardAt(fits, j))) else None
  }

  /** Of the first k cards, the j-th is the last to give a key a value. */
  ghost predicate LastGiven(fits: Bytes, k: nat, key: string, j: nat) {
    j < k && GivesAt(fits, j, key) && forall i :: j < i < k ==> !GivesAt(fits, i, key)
  }

  /** None of the first k cards gives a key a value. */
  ghost predicate NotGiven(fits: Bytes, k: nat, key: string) {
    forall i: nat :: i < k ==> !GivesAt(fits, i, key)
  }

  /** The value of a key in the first k cards, if they give it one. */
  ghost function Given(fits: Bytes, k: nat, key: string): (v: Option<string>)
    requires CARD * k <= |fits|
  {
    if k == 0 then None
    else if Gives(CardAt(fits, k - 1), key) then Some(ValueOf(CardAt(fits, k - 1)))
    else Given(fits, k - 1, key)
  }

  /** It is the last one given. */
  lemma {:induction false} GivenIsLast(fits: Bytes, k: nat, key: string)
    requires CARD * k <= |fits|
    ensures Given(fits, k, key).None? <==> NotGiven(fits, k, key)
    ensures forall j: nat :: LastGiven(fits, k, key, j) ==> Given(fits, k, key) == ValueAt(fits, j)
  {
    hide Gives, CardAt, ValueOf;
    if k == 0 {
    } else {
      GivenIsLast(fits, k - 1, key);
      assert GivesAt(fits, k - 1, key) == Gives(CardAt(fits, k - 1), key);
      hide GivesAt;
      forall j: nat | LastGiven(fits, k, key, j)
        ensures Given(fits, k, key) == ValueAt(fits, j)
      {
        if j < k - 1 {
          assert LastGiven(fits, k - 1, key, j);
        }
      }
    }
  }

  /** Each key decides its own field, and a key that is not given leaves the default. */
  ghost predicate Decided(read: Reading, fits: Bytes, k: nat, h: Header)
    requires CARD * k <= |fits|
  {
    && h.bitpix == IntOr(read, Given(fits, k, "BITPIX"))
    && h.naxis == IntOr(read, Given(fits, k, "NAXIS"))
    && h.width == IntOr(read, Given(fits, k, "NAXIS1"))
    && h.height == IntOr(read, Given(fits, k, "NAXIS2"))
    && h.planes == IntOr(read, Given(fits, k, "NAXIS3"))
    && h.bzero == RealOr(read, Given(fits, k, "BZERO"), 0.0)
    && h.bscale == RealOr(read, Given(fits, k, "BSCALE"), 1.0)
    && h.rowOrder == NameOr(Given(fits, k, "ROWORDER"))
    && h.bayer == NameOr(Given(fits, k, "BAYERPAT"))
  }

  function IntOr(read: Reading, v: Option<string>): int {
    if v.None? || read(v.value).None? then 0 else Truncated(read(v.value).value)
  }

  function RealOr(read: Reading, v: Option<string>, default: real): real {
    if v.None? then default else if read(v.value).None? then 0.0 else read(v.value).value
  }

  function NameOr(v: Option<string>): string {
    if v.None? then "" else Upper(Quoted(v.value))
  }

  lemma {:induction false} CardsDecide(read: Reading, fits: Bytes, k: nat)
    requires CARD * k <= |fits|
    ensures Decided(read, fits, k, Cards(read, fits, k))
  {
    hide ValueOf, Truncated, Quoted, Upper;
    if k == 0 {
    } else {
      CardsDecide(read, fits, k - 1);
      CardDecides(read, fits, k, Cards(read, fits, k - 1));
    }
  }

  lemma SameDecided(read: Reading, fits: Bytes, k: nat, h: Header, offset: nat)
    requires CARD * k <= |fits| && Decided(read, fits, k, h)
    ensures Decided(read, fits, k, h.(dataOffset := offset))
  {
  }

  lemma CardDecides(read: Reading, fits: Bytes, k: nat, h: Header)
    requires 0 < k && CARD * k <= |fits| && Decided(read, fits, k - 1, h)
    ensures Decided(read, fits, k, Read(read, h, CardAt(fits, k - 1)))
  {
    hide ValueOf, Truncated, Quoted, Upper, LastGiven, NotGiven, KeyOf, CardAt;
    KeysDiffer();
    var card := CardAt(fits, k - 1);
    var key := KeyOf(card);
    if card[8] != '=' {
    } else if key == "BITPIX" {
    } else if key == "NAXIS" {
    } else if key == "NAXIS1" {
    } else if key == "NAXIS2" {
    } else if key == "NAXIS3" {
    } else if key == "BZERO" {
    } else if key == "BSCALE" {
    } else if key == "ROWORDER" {
    } else if key == "BAYERPAT" {
    } else {
    }
  }

  lemma KeysDiffer()
    ensures |"BITPIX"| == 6 && |"NAXIS"| == 5 && |"NAXIS1"| == 6 && |"NAXIS2"| == 6 && |"NAXIS3"| == 6
    ensures |"BZERO"| == 5 && |"BSCALE"| == 6 && |"ROWORDER"| == 8 && |"BAYERPAT"| == 8
    ensures "BITPIX"[0] == 'B' && "BITPIX"[1] == 'I' && "NAXIS"[0] == 'N' && "NAXIS1"[5] == '1' && "NAXIS1"[0] == 'N'
    ensures "NAXIS2"[5] == '2' && "NAXIS2"[0] == 'N' && "NAXIS3"[5] == '3' && "NAXIS3"[0] == 'N'
    ensures "BZERO"[0] == 'B' && "BSCALE"[0] == 'B' && "BSCALE"[1] == 'S' && "ROWORDER"[0] == 'R'
    ensures "BAYERPAT"[0] == 'B'
  {
  }

  predicate Without(s: string, c: char) {
    forall i :: 0 <= i < |s| ==> s[i] != c
  }

  lemma {:induction false} FindAt(a: string, c: char, b: string)
    requires Without(a, c)
    ensures Find(a + [c] + b, c) == |a|
  {
    var s := a + [c] + b;
    if a == "" {
      assert s[0] == c;
    } else {
      assert s[0] == a[0] && s[1..] == a[1..] + [c] + b;
      FindAt(a[1..], c, b);
    }
  }

  lemma {:induction false} SpacesTaken(s: string)
    ensures var r := TrimSpaces(s);
            && (r != "" ==> r[|r| - 1] != ' ')
            && forall i :: |r| <= i < |s| ==> s[i] == ' '
    decreases |s|
  {
    if s != "" && s[|s| - 1] == ' ' {
      SpacesTaken(s[..|s| - 1]);
    } else {
    }
  }

  /** A card's key is what its first eight characters say, blanks after it aside. */
  lemma KeyIff(card: string, key: string)
    requires |card| == CARD
    ensures KeyOf(card) == key <==>
            && |key| <= 8 && key <= card && (key != "" ==> key[|key| - 1] != ' ')
            && forall i :: |key| <= i < 8 ==> card[i] == ' '
  {
    hide TrimSpaces;
    SpacesTaken(card[..8]);
    var r := KeyOf(card);
    if |key| <= 8 && key <= card && (key != "" ==> key[|key| - 1] != ' ') &&
       forall i :: |key| <= i < 8 ==> card[i] == ' '
    {
      assert |r| > 0 ==> card[|r| - 1] == r[|r| - 1];
      assert |key| > 0 ==> card[|key| - 1] == key[|key| - 1];
      assert |r| == |key|;
      assert r == card[..8][..|r|] && key == card[..|key|];
    }
  }

  /** The header ends at the card that says END and, but for blanks, nothing else. */
  lemma EndIff(card: string)
    requires |card| == CARD
    ensures IsEnd(card) <==> card[..8] == "END     "
  {
    KeyIff(card, "END");
    if card[..8] == "END     " {
      assert forall i :: 0 <= i < 8 ==> card[i] == card[..8][i];
      assert card[..3] == card[..8][..3] == "END";
    }
    if IsEnd(card) {
      assert card[..8] == "END" + card[3..8] && card[3..8] == "     ";
    }
  }

  /** Folding to capitals leaves no small letter, and takes two names for one exactly if
      folding to small letters does. */
  lemma UpperFolds(s: string, t: string)
    ensures forall c :: c in Upper(s) ==> !('a' <= c <= 'z')
    ensures Upper(s) == Upper(t) <==> Lower(s) == Lower(t)
    ensures Upper(Upper(s)) == Upper(s) && Lower(Upper(s)) == Lower(s)
  {
    if Lower(s) == Lower(t) {
      assert |s| == |Lower(s)| == |t|;
      forall i | 0 <= i < |s|
        ensures Upper(s)[i] == Upper(t)[i]
      {
        assert Lower(s)[i] == Lower(t)[i];
        FoldOne(s[i], t[i]);
      }
      assert Upper(s) == Upper(t);
    }
    if Upper(s) == Upper(t) {
      assert |s| == |Upper(s)| == |t|;
      forall i | 0 <= i < |s|
        ensures Lower(s)[i] == Lower(t)[i]
      {
        assert Upper(s)[i] == Upper(t)[i];
        FoldOne(s[i], t[i]);
      }
      assert Lower(s) == Lower(t);
    }
  }

  lemma FoldOne(c: char, d: char)
    ensures (if 'A' <= c <= 'Z' then c - 'A' + 'a' else c) == (if 'A' <= d <= 'Z' then d - 'A' + 'a' else d) <==>
            (if 'a' <= c <= 'z' then c - 'a' + 'A' else c) == (if 'a' <= d <= 'z' then d - 'a' + 'A' else d)
  {
  }

  /** A value that is no string ends at the comment. */
  lemma CommentCut(card: string, v: string, comment: string)
    requires |card| == CARD && card[10..] == v + "/" + comment && Without(v, '/')
    requires TrimSpace(card[10..]) == "" || TrimSpace(card[10..])[0] != '\''
    ensures ValueOf(card) == TrimSpace(v)
  {
    hide TrimSpace;
    FindAt(v, '/', comment);
    assert (v + "/" + comment)[..|v|] == v;
  }

  lemma {:induction false} TrimKeeps(a: string, b: string)
    requires a != "" && a[|a| - 1] == '\''
    ensures a <= TrimRight(a + b)
    decreases |b|
  {
    var s := a + b;
    var n := TrailingSpace(s);
    assert s[|a| - 1] == '\'';
    if n == 0 {
    } else {
      if |b| < n {
        assert false;
      }
      assert s[..|s| - n] == a + b[..|b| - n];
      TrimKeeps(a, b[..|b| - n]);
    }
  }

  lemma QuoteLeads(s: string)
    requires s != "" && s[0] == '\''
    ensures TrimLeft(s) == s
  {
  }

  /** A string value is what stands between the quotes, slashes and all, without trailing
      blanks. */
  lemma QuotedValue(card: string, v: string, comment: string)
    requires |card| == CARD && card[10..] == "'" + v + "'" + comment && Without(v, '\'')
    ensures Quoted(ValueOf(card)) == TrimSpaces(v)
  {
    hide TrimRight, TrailingSpace, SpaceRune2, SpaceRune3;
    var val, a := card[10..], "'" + v + "'";
    assert val == a + comment && val[0] == '\'';
    QuoteLeads(val);
    TrimKeeps(a, comment);
    var t := TrimSpace(val);
    assert a <= t && t[0] == '\'';
    TrimSpaceIdempotent(val);
    assert ValueOf(card) == t && TrimSpace(t) == t;
    var rest := t[|a|..];
    assert t == a + rest && t[1..] == v + "'" + rest;
    FindAt(v, '\'', rest);
    assert t[1..][..|v|] == v;
  }

  /** int(f) drops the fraction, whatever the sign. */
  lemma TowardZero(x: real)
    ensures x >= 0.0 ==> 0.0 <= Truncated(x) as real <= x < Truncated(x) as real + 1.0
    ensures x <= 0.0 ==> Truncated(x) as real - 1.0 < x <= Truncated(x) as real <= 0.0
  {
  }

  predicate HasSimple(fits: Bytes) {
    |fits| >= CARD && "SIMPLE" <= Text(fits[..8])
  }

  /** The k-th card is the first END card. */
  predicate FirstEnd(fits: Bytes, k: nat) {
    && CARD * k + CARD <= |fits| && IsEnd(CardAt(fits, k))
    && forall j :: 0 <= j < k ==> !IsEnd(CardAt(fits, j))
  }

  /** The least multiple of the block size at or past n. */
  predicate LeastBlock(offset: nat, n: nat) {
    offset % BLOCK == 0 && n <= offset < n + BLOCK
  }

  /** It is the least: any block boundary at or past n is no smaller. */
  lemma LeastBlockLeast(offset: nat, n: nat, other: nat)
    requires LeastBlock(offset, n) && other % BLOCK == 0 && n <= other
    ensures offset <= other
  {
    var a, b := offset / BLOCK, other / BLOCK;
    assert offset == BLOCK * a && other == BLOCK * b;
  }

  /** What a scan of the header finds: the cards before the first END, and the data after
      it at the next block. */
  ghost predicate Scanned(read: Reading, fits: Bytes, h: Header) {
    exists k ::
      && HasSimple(fits) && FirstEnd(fits, k)
      && LeastBlock(h.dataOffset, CARD * k + CARD)
      && h == Cards(read, fits, k).(dataOffset := h.dataOffset)
      && Decided(read, fits, k, h)
  }

  ghost predicate Endless(fits: Bytes) {
    forall k: nat | CARD * k + CARD <= |fits| :: !IsEnd(CardAt(fits, k))
  }

  /** Cards one after another up to END. */
  method ParseHeader(read: Reading, fits: Bytes) returns (r: Result<Header, Trouble>)
    ensures r.Success? ==> Scanned(read, fits, r.value)
    ensures r.Failure? ==> if HasSimple(fits) then r.error == NoEnd && Endless(fits) else r.error == NotFits
    ensures r == Failure(NotFits) <==> |fits| < 80 || Text(fits[..6]) != "SIMPLE"
  {
    hide IsEnd, Read, Decided;
    assert |fits| >= 8 ==> Text(fits[..8])[..6] == Text(fits[..6]);
    if !HasSimple(fits) {
      return Failure(NotFits);
    }
    var h := BLANK;
    var off, k := 0, 0;
    while true
      invariant off == CARD * k <= |fits|
      invariant h == Cards(read, fits, k)
      invariant forall j :: 0 <= j < k ==> !IsEnd(CardAt(fits, j))
      decreases |fits| - off
    {
      if off + CARD > |fits| {
        return Failure(NoEnd);
      }
      var card := CardAt(fits, k);
      if IsEnd(card) {
        CardsDecide(read, fits, k);
        SameDecided(read, fits, k, h, ((off + CARD + BLOCK - 1) / BLOCK) * BLOCK);
        h := h.(dataOffset := ((off + CARD + BLOCK - 1) / BLOCK) * BLOCK);
        assert FirstEnd(fits, k) && LeastBlock(h.dataOffset, CARD * k + CARD);
        return Success(h);
      }
      h := Read(read, h, card);
      off, k := off + CARD, k + 1;
    }
  }

  // Pixels, as numbers

  function N(b: bv8): (n: nat)
    ensures n < 256
  {
    b as nat
  }

  function Big(b: Bytes): nat {
    if b == [] then 0 else 256 * Big(b[..|b| - 1]) + N(b[|b| - 1])
  }

  function Little(b: Bytes): nat {
    if b == [] then 0 else N(b[0]) + 256 * Little(b[1..])
  }

  function Range(n: nat): nat {
    if n == 0 then 1 else 256 * Range(n - 1)
  }

  /** Two's complement. */
  function Signed(v: nat, n: nat): int {
    if 2 * v < Range(n) then v else v - Range(n)
  }

  /** A stored pixel: 8-bit ones are unsigned, wider ones two's complement. */
  function StoredPixel(b: Bytes): int {
    if |b| == 1 then Big(b) else Signed(Big(b), |b|)
  }

  /** A pixel sent on, read as its type says. */
  function SentPixel(b: Bytes, tx: Pixel): int {
    if tx.Int16? || tx.Int32? then Signed(Little(b), |b|) else Little(b)
  }

  datatype Pixel = Byte | Int16 | UInt16 | Int32 | UInt32

  /** The frame as it is sent on. */
  datatype Frame = Frame(width: int, height: int, element: Pixel, transmitted: Pixel, pixels: Bytes)

  // Words

  function Uint16(b: Bytes): bv16
    requires |b| == 2
  {
    ((b[0] as bv16) << 8) | (b[1] as bv16)
  }

  function PutUint16(v: bv16): (b: Bytes)
    ensures |b| == 2
  {
    [(v & 0xff) as bv8, (v >> 8) as bv8]
  }

  function Uint32(b: Bytes): bv32
    requires |b| == 4
  {
    ((b[0] as bv32) << 24) | ((b[1] as bv32) << 16) | ((b[2] as bv32) << 8) | (b[3] as bv32)
  }

  function PutUint32(v: bv32): (b: Bytes)
    ensures |b| == 4
  {
    [(v & 0xff) as bv8, ((v >> 8) & 0xff) as bv8, ((v >> 16) & 0xff) as bv8, (v >> 24) as bv8]
  }

  /** One pixel through the loop: bytes swapped, the sign bit flipped when recovering. */
  function Converted(b: Bytes, recover: bool): (r: Bytes)
    requires |b| in {1, 2, 4}
    ensures |r| == |b|
  {
    if |b| == 1 then b
    else if |b| == 2 then PutUint16(Uint16(b) ^ (if recover then 0x8000 else 0))
    else PutUint32(Uint32(b) ^ (if recover then 0x8000_0000 else 0))
  }

  lemma Swap16(a: bv8, b: bv8)
    ensures PutUint16(Uint16([a, b]) ^ 0) == [b, a]
    ensures PutUint16(Uint16([a, b]) ^ 0x8000) == [b, a ^ 0x80]
  {
  }

  lemma Swap32(a: bv8, b: bv8, c: bv8, d: bv8)
    ensures PutUint32(Uint32([a, b, c, d]) ^ 0) == [d, c, b, a]
    ensures PutUint32(Uint32([a, b, c, d]) ^ 0x8000_0000) == [d, c, b, a ^ 0x80]
  {
  }

  /** Flipping a byte's top bit adds 128 modulo 256. */
  lemma TopFlip(a: bv8)
    ensures N(a ^ 0x80) == if N(a) < 128 then N(a) + 128 else N(a) - 128
  {
    if a < 0x80 {
      assert a ^ 0x80 == a + 0x80;
    } else {
      assert a ^ 0x80 == a - 0x80;
    }
  }

  lemma Bytes2(a: bv8, b: bv8)
    ensures Big([a, b]) == 256 * N(a) + N(b)
    ensures Little([a, b]) == N(a) + 256 * N(b)
    ensures Range(2) == 0x1_0000
  {
    hide N;
    assert [a, b][..1] == [a] && [a][..0] == [];
    assert [a, b][1..] == [b] && [b][1..] == [];
    assert Big([a]) == N(a) && Little([b]) == N(b);
    assert Range(1) == 256;
  }

  lemma Bytes4(a: bv8, b: bv8, c: bv8, d: bv8)
    ensures Big([a, b, c, d]) == 0x100_0000 * N(a) + 0x1_0000 * N(b) + 256 * N(c) + N(d)
    ensures Little([a, b, c, d]) == N(a) + 256 * N(b) + 0x1_0000 * N(c) + 0x100_0000 * N(d)
    ensures Range(4) == 0x1_0000_0000
  {
    hide N;
    Bytes2(a, b);
    Bytes2(c, d);
    assert [a, b, c, d][..3] == [a, b, c] && [a, b, c][..2] == [a, b];
    assert [a, b, c, d][1..] == [b, c, d] && [b, c, d][1..] == [c, d];
    assert Big([a, b, c]) == 256 * Big([a, b]) + N(c);
    assert Little([b, c, d]) == N(b) + 256 * Little([c, d]);
    assert Range(3) == 256 * Range(2);
  }

  /** The offset that recovering adds. */
  function Offset(size: nat, recover: bool): int {
    if !recover then 0 else if size == 2 then 0x8000 else 0x8000_0000
  }

  /** Which types go with recovering and which without. */
  predicate Suits(size: nat, recover: bool, tx: Pixel) {
    match tx
    case Byte => size == 1 && !recover
    case Int16 => size == 2 && !recover
    case UInt16 => size == 2 && recover
    case Int32 => size == 4 && !recover
    case UInt32 => size == 4 && recover
  }

  /** Swapping and flipping is adding: a pixel sent on is the stored one plus BZERO. */
  lemma PixelValue(b: Bytes, recover: bool, tx: Pixel)
    requires |b| in {1, 2, 4} && Suits(|b|, recover, tx)
    ensures SentPixel(Converted(b, recover), tx) == StoredPixel(b) + Offset(|b|, recover)
  {
    if |b| == 1 {
      OneByte(b);
    } else if |b| == 2 {
      Value2(b[0], b[1], recover, tx);
      assert b == [b[0], b[1]];
    } else {
      Value4(b[0], b[1], b[2], b[3], recover, tx);
      assert b == [b[0], b[1], b[2], b[3]];
    }
  }

  lemma Value2(a: bv8, b: bv8, recover: bool, tx: Pixel)
    requires Suits(2, recover, tx)
    ensures SentPixel(Converted([a, b], recover), tx) == StoredPixel([a, b]) + Offset(2, recover)
  {
    hide Uint16, PutUint16, Big, Little, Range, N;
    var top := if recover then a ^ 0x80 else a;
    Swap16(a, b);
    assert Converted([a, b], recover) == [b, top];
    hide Converted;
    TopFlip(a);
    Bytes2(a, b);
    Bytes2(b, top);
  }

  lemma Value4(a: bv8, b: bv8, c: bv8, d: bv8, recover: bool, tx: Pixel)
    requires Suits(4, recover, tx)
    ensures SentPixel(Converted([a, b, c, d], recover), tx) == StoredPixel([a, b, c, d]) + Offset(4, recover)
  {
    hide Uint32, PutUint32, Big, Little, Range, N;
    var top := if recover then a ^ 0x80 else a;
    Swap32(a, b, c, d);
    assert Converted([a, b, c, d], recover) == [d, c, b, top];
    hide Converted;
    TopFlip(a);
    Bytes4(a, b, c, d);
    Bytes4(d, c, b, top);
  }

  lemma OneByte(b: Bytes)
    requires |b| == 1
    ensures Little(b) == Big(b)
  {
    assert b[1..] == [] && b[..0] == [];
  }

  // Rows

  lemma MulBound(x: nat, w: nat, size: nat)
    requires x < w
    ensures x * size + size <= w * size
  {
    assert (x + 1) * size <= w * size;
  }

  function PixelOf(b: Bytes, size: nat, x: nat): Bytes
    requires x * size + size <= |b|
  {
    b[x * size..x * size + size]
  }

  /** Pixel (x, y) of an image of w pixels of a size each. */
  function PixelAt(b: Bytes, size: nat, w: nat, x: nat, y: nat): Bytes
    requires x < w && y * (w * size) + w * size <= |b|
  {
    MulBound(x, w, size);
    PixelOf(RowOf(b, w * size, y), size, x)
  }

  function RowOf(b: Bytes, row: nat, y: nat): (r: Bytes)
    requires y * row + row <= |b|
    ensures |r| == row
  {
    b[y * row..y * row + row]
  }

  /** The first n pixels of a row, converted from those of another. */
  ghost predicate RowDone(d: Bytes, s: Bytes, size: nat, recover: bool, n: nat) {
    && size in {1, 2, 4} && n * size <= |d| == |s|
    && forall x :: 0 <= x < n ==>
         x * size + size <= |s| && PixelOf(d, size, x) == Converted(PixelOf(s, size, x), recover)
  }

  /** Bytes with a few replaced. */
  function Replaced(b: Bytes, at: nat, px: Bytes): (r: Bytes)
    requires at + |px| <= |b|
    ensures |r| == |b|
  {
    b[..at] + px + b[at + |px|..]
  }

  method Put(out: array<bv8>, at: nat, px: Bytes)
    requires at + |px| <= out.Length
    modifies out
    ensures out[..] == Replaced(old(out[..]), at, px)
  {
    forall j | at <= j < at + |px| {
      out[j] := px[j - at];
    }
    assert out[..] == Replaced(old(out[..]), at, px);
  }

  /** Replacing bytes i.. of a stretch leaves what comes before them in place. */
  lemma ReplacedStretch(b: Bytes, base: nat, n: nat, i: nat, px: Bytes)
    requires i + |px| <= n && base + n <= |b|
    ensures var a := Replaced(b, base + i, px);
            && a[..base] == b[..base]
            && a[base..base + n][..i] == b[base..base + n][..i]
            && a[base..base + n][i..i + |px|] == px
  {
    var a := Replaced(b, base + i, px);
    assert a[base..base + n][i..i + |px|] == a[base + i..base + i + |px|];
    assert a[base..base + n][..i] == a[base..base + i] == b[base..base + i] == b[base..base + n][..i];
  }

  /** Convert one row into a stretch of the output. */
  method ConvertRow(out: array<bv8>, base: nat, s: Bytes, w: nat, size: nat, recover: bool)
    requires size in {1, 2, 4} && |s| == w * size && base + |s| <= out.Length
    modifies out
    ensures RowDone(out[..][base..base + |s|], s, size, recover, w)
    ensures out[..][..base] == old(out[..])[..base]
  {
    hide Converted, RowDone;
    RowStarts(out[..][base..base + |s|], s, size, recover);
    var x := 0;
    while x < w
      invariant x <= w
      invariant RowDone(out[..][base..base + |s|], s, size, recover, x)
      invariant out[..][..base] == old(out[..])[..base]
    {
      MulBound(x, w, size);
      var i := x * size;
      var px := Converted(s[i..i + size], recover);
      ghost var before := out[..];
      Put(out, base + i, px);
      ReplacedStretch(before, base, |s|, i, px);
      RowGrows(before[base..base + |s|], out[..][base..base + |s|], s, size, recover, x);
      x := x + 1;
    }
  }

  lemma RowStarts(d: Bytes, s: Bytes, size: nat, recover: bool)
    requires |d| == |s| && size in {1, 2, 4}
    ensures RowDone(d, s, size, recover, 0)
  {
  }

  lemma SliceOfPrefix(b: Bytes, n: nat, i: nat, j: nat)
    requires i <= j <= n <= |b|
    ensures b[..n][i..j] == b[i..j]
  {
  }

  lemma RowGrows(before: Bytes, after: Bytes, s: Bytes, size: nat, recover: bool, n: nat)
    requires RowDone(before, s, size, recover, n) && |after| == |s|
    requires n * size + size <= |s| && PixelOf(after, size, n) == Converted(PixelOf(s, size, n), recover)
    requires after[..n * size] == before[..n * size]
    ensures RowDone(after, s, size, recover, n + 1)
  {
    hide Converted;
    assert (n + 1) * size == n * size + size;
    forall x | 0 <= x < n + 1
      ensures x * size + size <= |s| && PixelOf(after, size, x) == Converted(PixelOf(s, size, x), recover)
    {
      if x < n {
        MulBound(x, n, size);
        SliceOfPrefix(after, n * size, x * size, x * size + size);
        SliceOfPrefix(before, n * size, x * size, x * size + size);
        assert PixelOf(after, size, x) == PixelOf(before, size, x);
      }
    }
  }

  // Frames

  /** The loop's choice for a header: type, and whether to recover; or why it is refused. */
  function Plan(h: Header, size: nat): Result<(Pixel, bool), Trouble> {
    if h.naxis != 2 then Failure(BadNaxis)
    else if h.width <= 0 || h.height <= 0 then Failure(BadDimensions)
    else if h.bscale != 1.0 then Failure(BadScale)
    else if h.bitpix != 8 && h.bitpix != 16 && h.bitpix != 32 then Failure(BadBitpix)
    else if size < h.dataOffset + h.height * (h.width * (h.bitpix / 8)) then Failure(Trouble.Truncated)
    else if h.bitpix == 8 && h.bzero == 0.0 then Success((Byte, false))
    else if h.bitpix == 16 && h.bzero == 0.0 then Success((Int16, false))
    else if h.bitpix == 16 && h.bzero == 32768.0 then Success((UInt16, true))
    else if h.bitpix == 32 && h.bzero == 0.0 then Success((Int32, false))
    else if h.bitpix == 32 && h.bzero == 2147483648.0 then Success((UInt32, true))
    else Failure(BadZero)
  }

  /** A frame is taken if and only if it has two axes, positive dimensions, no scale, 8, 16
      or 32 bits a pixel, all its data, and an offset of zero or the one that makes 16 or 32
      bits unsigned; its type says which. */
  lemma TakenIff(h: Header, size: nat)
    ensures Plan(h, size).Success? <==>
              && h.naxis == 2 && h.width > 0 && h.height > 0 && h.bscale == 1.0 && h.bitpix in {8, 16, 32}
              && h.dataOffset + h.height * (h.width * (h.bitpix / 8)) <= size
              && (h.bzero == 0.0 || (h.bitpix == 16 && h.bzero == 32768.0)
                  || (h.bitpix == 32 && h.bzero == 2147483648.0))
    ensures Plan(h, size).Success? ==>
              var tx := Plan(h, size).value.0;
              && (tx == Byte <==> h.bitpix == 8)
              && (tx == Int16 <==> h.bitpix == 16 && h.bzero == 0.0)
              && (tx == UInt16 <==> h.bitpix == 16 && h.bzero != 0.0)
              && (tx == Int32 <==> h.bitpix == 32 && h.bzero == 0.0)
              && (tx == UInt32 <==> h.bitpix == 32 && h.bzero != 0.0)
  {
  }

  /** What the pixel type, the size and the offset have to do with the header. */
  lemma PlanSuits(h: Header, size: nat)
    requires Plan(h, size).Success?
    ensures h.bitpix / 8 in {1, 2, 4} && h.width > 0 && h.height > 0
    ensures size >= h.dataOffset + h.height * (h.width * (h.bitpix / 8))
    ensures Suits(h.bitpix / 8, Plan(h, size).value.1, Plan(h, size).value.0)
    ensures h.bzero == Offset(h.bitpix / 8, Plan(h, size).value.1) as real
  {
  }

  /** The source row of an output row. */
  function SourceRow(h: Header, y: nat): int {
    if h.rowOrder == "BOTTOM-UP" then h.height - 1 - y else y
  }

  /** Rows up to n have been converted from their source rows. */
  ghost predicate RowsDone(d: Bytes, s: Bytes, h: Header, w: nat, height: nat, size: nat, recover: bool, n: nat) {
    && |d| == |s| == height * (w * size) && n <= height == h.height
    && forall y :: 0 <= y < n ==> RowRight(d, s, h, w, height, size, recover, y)
  }

  ghost predicate RowRight(d: Bytes, s: Bytes, h: Header, w: nat, height: nat, size: nat, recover: bool, y: nat)
    requires |d| == |s| == height * (w * size) && y < height == h.height
  {
    MulBound(y, height, w * size);
    MulBound(SourceRow(h, y), height, w * size);
    RowDone(RowOf(d, w * size, y), RowOf(s, w * size, SourceRow(h, y)), size, recover, w)
  }

  lemma RowsGrow(
      before: Bytes, after: Bytes, s: Bytes, h: Header, w: nat, height: nat, size: nat, recover: bool, n: nat)
    requires RowsDone(before, s, h, w, height, size, recover, n) && |after| == |s| && n < height
    requires n * (w * size) <= |s| && after[..n * (w * size)] == before[..n * (w * size)]
    requires RowRight(after, s, h, w, height, size, recover, n)
    ensures RowsDone(after, s, h, w, height, size, recover, n + 1)
  {
    hide RowDone;
    var row := w * size;
    forall y | 0 <= y < n
      ensures RowRight(after, s, h, w, height, size, recover, y)
    {
      MulBound(y, n, row);
      MulBound(y, height, row);
      assert RowRight(before, s, h, w, height, size, recover, y);
      SliceOfPrefix(after, n * row, y * row, y * row + row);
      SliceOfPrefix(before, n * row, y * row, y * row + row);
    }
  }

  /** Big-endian to little-endian, unsigned values recovered, rows top-down. */
  method Pixels(h: Header, src: Bytes, w: nat, height: nat, size: nat, recover: bool) returns (out: array<bv8>)
    requires size in {1, 2, 4} && |src| == height * (w * size) && height == h.height
    ensures fresh(out) && RowsDone(out[..], src, h, w, height, size, recover, height)
  {
    hide RowDone, RowRight;
    out := new bv8[|src|];
    var row := w * size;
    for y := 0 to height
      invariant RowsDone(out[..], src, h, w, height, size, recover, y)
    {
      var sy := SourceRow(h, y);
      MulBound(y, height, row);
      MulBound(sy, height, row);
      ghost var before := out[..];
      var s := RowOf(src, row, sy);
      ConvertRow(out, y * row, s, w, size, recover);
      IsRowRight(out[..], src, h, w, height, size, recover, y);
      RowsGrow(before, out[..], src, h, w, height, size, recover, y);
    }
  }

  lemma IsRowRight(d: Bytes, s: Bytes, h: Header, w: nat, height: nat, size: nat, recover: bool, y: nat)
    requires |d| == |s| == height * (w * size) && y < height == h.height
    requires y * (w * size) + w * size <= |d| && SourceRow(h, y) * (w * size) + w * size <= |s|
    requires RowDone(RowOf(d, w * size, y), RowOf(s, w * size, SourceRow(h, y)), size, recover, w)
    ensures RowRight(d, s, h, w, height, size, recover, y)
  {
    hide RowDone;
  }

  /** A FITS image as a frame to send on: every pixel of the frame, read as its type says,
      is the stored pixel of its row plus BZERO. */
  method Transcode(read: Reading, fits: Bytes) returns (r: Result<(Frame, Header), Trouble>)
    ensures r.Success? ==>
              var (f, h) := r.value;
              Scanned(read, fits, h) && Plan(h, |fits|).Success? && Faithful(f, h, fits)
    ensures r.Failure? ==>
              || (!HasSimple(fits) && r.error == NotFits)
              || (HasSimple(fits) && Endless(fits) && r.error == NoEnd)
              || (exists h :: Scanned(read, fits, h) && Plan(h, |fits|) == Failure(r.error))
  {
    hide RowsDone, Plan, Scanned, Endless, HasSimple, Faithful;
    var parsed := ParseHeader(read, fits);
    if parsed.Failure? {
      return Failure(parsed.error);
    }
    var h := parsed.value;
    var plan := Plan(h, |fits|);
    if plan.Failure? {
      return Failure(plan.error);
    }
    PlanSuits(h, |fits|);
    var size, w, height := h.bitpix / 8, h.width, h.height;
    NotNegative(height, w * size);
    var need := h.dataOffset + height * (w * size);
    var src := fits[h.dataOffset..need];
    var (tx, recover) := plan.value;
    var out := Pixels(h, src, w, height, size, recover);
    var f := Frame(w, height, if tx == UInt32 then UInt32 else Int32, tx, out[..]);
    FrameFaithful(f, h, fits, recover);
    return Success((f, h));
  }

  lemma NotNegative(a: nat, b: nat)
    ensures a * b >= 0
  {
  }

  /** The frame has the header's dimensions and, pixel by pixel, its values. */
  ghost predicate Faithful(f: Frame, h: Header, fits: Bytes)
    requires Plan(h, |fits|).Success?
  {
    PlanSuits(h, |fits|);
    var size, w, height := h.bitpix / 8, h.width, h.height;
    && f.width == w && f.height == height && |f.pixels| == height * (w * size)
    && f.transmitted == Plan(h, |fits|).value.0 && f.element == (if f.transmitted == UInt32 then UInt32 else Int32)
    && forall x, y :: 0 <= x < w && 0 <= y < height ==> PixelFaithful(f, h, fits, x, y)
  }

  ghost predicate PixelFaithful(f: Frame, h: Header, fits: Bytes, x: nat, y: nat)
    requires Plan(h, |fits|).Success? && x < h.width && y < h.height &&
             |f.pixels| == h.height * (h.width * (h.bitpix / 8))
  {
    PlanSuits(h, |fits|);
    var size, w, height := h.bitpix / 8, h.width, h.height;
    NotNegative(height, w * size);
    var src := fits[h.dataOffset..h.dataOffset + height * (w * size)];
    MulBound(y, height, w * size);
    var sy := if h.rowOrder == "BOTTOM-UP" then height - 1 - y else y;
    MulBound(sy, height, w * size);
    SentPixel(PixelAt(f.pixels, size, w, x, y), f.transmitted) as real
    == StoredPixel(PixelAt(src, size, w, x, sy)) as real + h.bzero
  }

  lemma FrameFaithful(f: Frame, h: Header, fits: Bytes, recover: bool)
    requires Plan(h, |fits|).Success? && Plan(h, |fits|).value == (f.transmitted, recover)
    requires f.width == h.width && f.height == h.height && h.width > 0 && h.height > 0
    requires f.element == if f.transmitted == UInt32 then UInt32 else Int32
    requires |fits| >= h.dataOffset + h.height * (h.width * (h.bitpix / 8)) && h.bitpix / 8 >= 0
    requires h.height * (h.width * (h.bitpix / 8)) >= 0
    requires RowsDone(f.pixels, fits[h.dataOffset..h.dataOffset + h.height * (h.width * (h.bitpix / 8))],
                      h, h.width, h.height, h.bitpix / 8, recover, h.height)
    ensures Faithful(f, h, fits)
  {
    hide Plan, PixelFaithful, RowsDone;
    PlanSuits(h, |fits|);
    RowsSize(f, h, fits, recover);
    forall x, y | 0 <= x < h.width && 0 <= y < h.height
      ensures PixelFaithful(f, h, fits, x, y)
    {
      IsPixelFaithful(f, h, fits, recover, x, y);
    }
  }

  lemma RowsSize(f: Frame, h: Header, fits: Bytes, recover: bool)
    requires h.height >= 0 && h.width >= 0 && h.bitpix / 8 >= 0 && h.height * (h.width * (h.bitpix / 8)) >= 0
    requires |fits| >= h.dataOffset + h.height * (h.width * (h.bitpix / 8))
    requires RowsDone(f.pixels, fits[h.dataOffset..h.dataOffset + h.height * (h.width * (h.bitpix / 8))],
                      h, h.width, h.height, h.bitpix / 8, recover, h.height)
    ensures |f.pixels| == h.height * (h.width * (h.bitpix / 8))
  {
    hide RowRight;
  }

  lemma IsPixelFaithful(f: Frame, h: Header, fits: Bytes, recover: bool, x: nat, y: nat)
    requires Plan(h, |fits|).Success? && Plan(h, |fits|).value == (f.transmitted, recover)
    requires x < h.width && y < h.height && h.bitpix / 8 >= 0 && h.height * (h.width * (h.bitpix / 8)) >= 0
    requires |fits| >= h.dataOffset + h.height * (h.width * (h.bitpix / 8))
    requires RowsDone(f.pixels, fits[h.dataOffset..h.dataOffset + h.height * (h.width * (h.bitpix / 8))],
                      h, h.width, h.height, h.bitpix / 8, recover, h.height)
    ensures |f.pixels| == h.height * (h.width * (h.bitpix / 8)) && PixelFaithful(f, h, fits, x, y)
  {
    hide Plan, SentPixel, StoredPixel, Offset, Suits, Converted, SourceRow;
    PlanSuits(h, |fits|);
    RowsSize(f, h, fits, recover);
    var size, w, height := h.bitpix / 8, h.width, h.height;
    var src := fits[h.dataOffset..h.dataOffset + height * (w * size)];
    SourceRowBound(h, y);
    MulBound(y, height, w * size);
    MulBound(SourceRow(h, y), height, w * size);
    MulBound(x, w, size);
    RowPixel(f.pixels, src, h, w, height, size, recover, x, y);
    PixelValue(PixelAt(src, size, w, x, SourceRow(h, y)), recover, f.transmitted);
  }

  lemma SourceRowBound(h: Header, y: nat)
    requires y < h.height
    ensures 0 <= SourceRow(h, y) < h.height
    ensures SourceRow(h, y) == if h.rowOrder == "BOTTOM-UP" then h.height - 1 - y else y
  {
  }

  /** One pixel of a converted image. */
  lemma RowPixel(d: Bytes, s: Bytes, h: Header, w: nat, height: nat, size: nat, recover: bool, x: nat, y: nat)
    requires RowsDone(d, s, h, w, height, size, recover, height) && x < w && y < height
    requires 0 <= SourceRow(h, y) < height
    requires y * (w * size) + w * size <= |d| && SourceRow(h, y) * (w * size) + w * size <= |s|
    ensures size in {1, 2, 4} && |PixelAt(s, size, w, x, SourceRow(h, y))| == size
    ensures PixelAt(d, size, w, x, y) == Converted(PixelAt(s, size, w, x, SourceRow(h, y)), recover)
  {
    hide Converted, SourceRow;
    assert RowRight(d, s, h, w, height, size, recover, y);
    MulBound(x, w, size);
  }
}
