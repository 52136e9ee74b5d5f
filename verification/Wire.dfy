/** The INDI vocabulary: elements, members and their wire spellings.
    A byte on the wire is one `char`, so a Go string is a Dafny `string`. */
module Wire {

  const MAX_TOKEN: nat := 0x10_0000
  const MAX_MEMBERS: nat := 4096

  datatype Option<+T> = None | Some(value: T)

  /** Why parsing stops. ReadError is the reader's own error, io.EOF included. */
  datatype Error =
    | ReadError
    | TokenTooLong
    | UnexpectedByte(got: char)
    | ExpectedByte(want: char, got: char)
    | ExpectedIdent(got: char)
    | ExpectedQuote(got: char)
    | MalformedSelfClose(tag: string)
    | WrongClose(open: string, found: string)
    | OversizedEntity
    | UnknownEntity(entity: string)
    | TooManyMembers
    | BadPadding
    | BadBase64(got: char)
    | TruncatedBase64(trailing: nat)

  const NUMS: nat := 0x1_0000_0000_0000_0000

  /** A float64, as an opaque token: finitely many, like its 64 bits; every NaN is the
      same token. */
  type Num = n: nat | n < NUMS

  const ZERO: Num := 0

  datatype State = Idle | Ok | Busy | Alert
  datatype Perm = ReadOnly | WriteOnly | ReadWrite
  datatype Rule = OneOfMany | AtMostOne | AnyOfMany
  datatype VType = Number | Switch | Text | Light | Blob
  datatype Kind =
    | KindDef | KindSet | KindNew | KindMessage | KindDel
    | KindGetProps | KindPing | KindEnableBLOB | KindPingReply

  datatype Member = Member(
    name: string, labelText: string,
    value: Num, min: Num, max: Num, step: Num, hasRange: bool, format: string,
    text: string,
    on: bool, lightState: State,
    blobFormat: string, size: int, attached: bool, data: seq<bv8>)

  const NO_MEMBER := Member("", "", ZERO, ZERO, ZERO, ZERO, false, "", "", false, Idle, "", 0, false, [])

  datatype Element = Element(
    kind: Kind, vtype: VType, rule: Rule, perm: Perm, state: State,
    device: string, name: string, labelText: string, group: string,
    timestamp: string, message: string,
    members: seq<Member>)

  /** The zero element of a kind, as the parser starts from it. */
  function Blank(kind: Kind, vtype: VType): Element {
    Element(kind, vtype, OneOfMany, ReadOnly, Idle, "", "", "", "", "", "", [])
  }

  /** The text of numbers: "%.20g" one way, ParseNumber the other. */
  datatype NumText = NumText(format: Num -> string, parse: string -> Num) {
    /** What both directions are assumed to satisfy. */
    ghost predicate Lawful() {
      forall v: Num :: parse(format(v)) == v && Plain(format(v)) && |format(v)| <= MAX_TOKEN
    }
  }

  /** Printable ASCII that escaping leaves alone. */
  predicate Plain(s: string) {
    forall i :: 0 <= i < |s| ==> PlainChar(s[i])
  }

  predicate PlainChar(c: char) {
    '!' <= c <= '~' && c != '&' && c != '<' && c != '>' && c != '\'' && c != '"'
  }

  function StateText(s: State): string {
    match s
    case Idle => "Idle"
    case Ok => "Ok"
    case Busy => "Busy"
    case Alert => "Alert"
  }

  function ParseState(s: string): State {
    if s == "Idle" then Idle
    else if s == "Ok" then Ok
    else if s == "Busy" then Busy
    else if s == "Alert" then Alert
    else Idle
  }

  function PermText(p: Perm): string {
    match p
    case ReadOnly => "ro"
    case WriteOnly => "wo"
    case ReadWrite => "rw"
  }

  function ParsePerm(s: string): Perm {
    if s == "ro" then ReadOnly
    else if s == "wo" then WriteOnly
    else if s == "rw" then ReadWrite
    else ReadOnly
  }

  function RuleText(r: Rule): string {
    match r
    case OneOfMany => "OneOfMany"
    case AtMostOne => "AtMostOne"
    case AnyOfMany => "AnyOfMany"
  }

  function ParseRule(s: string): Rule {
    if s == "OneOfMany" then OneOfMany
    else if s == "AtMostOne" then AtMostOne
    else if s == "AnyOfMany" then AnyOfMany
    else OneOfMany
  }

  lemma StateParsesBack(s: State)
    ensures ParseState(StateText(s)) == s
    ensures Plain(StateText(s)) && 0 < |StateText(s)| <= 16
  {
    match s
    case Idle =>
    case Ok =>
    case Busy => assert "Busy"[0] != "Idle"[0];
    case Alert =>
  }

  lemma PermParsesBack(p: Perm)
    ensures ParsePerm(PermText(p)) == p
    ensures Plain(PermText(p)) && 0 < |PermText(p)| <= 16
  {
    match p
    case ReadOnly =>
    case WriteOnly => assert "wo"[0] != "ro"[0];
    case ReadWrite => assert "rw"[1] != "ro"[1] && "rw"[0] != "wo"[0];
  }

  lemma RuleParsesBack(r: Rule)
    ensures ParseRule(RuleText(r)) == r
    ensures Plain(RuleText(r)) && 0 < |RuleText(r)| <= 16
  {
    match r
    case OneOfMany =>
    case AtMostOne => assert "AtMostOne"[0] != "OneOfMany"[0];
    case AnyOfMany => assert "AnyOfMany"[0] != "OneOfMany"[0] && "AnyOfMany"[1] != "AtMostOne"[1];
  }

  // Each spelling is read as what it spells and by nothing else; any other text reads as
  // the first state, permission or rule there is.

  lemma StateReadIff(text: string, s: State)
    ensures ParseState(text) == s <==> text == StateText(s) || (s == Idle && forall u :: text != StateText(u))
  {
    StateParsesBack(s);
    assert text == StateText(ParseState(text)) || ParseState(text) == Idle;
  }

  lemma PermReadIff(text: string, p: Perm)
    ensures ParsePerm(text) == p <==> text == PermText(p) || (p == ReadOnly && forall u :: text != PermText(u))
  {
    PermParsesBack(p);
    assert text == PermText(ParsePerm(text)) || ParsePerm(text) == ReadOnly;
  }

  lemma RuleReadIff(text: string, r: Rule)
    ensures ParseRule(text) == r <==> text == RuleText(r) || (r == OneOfMany && forall u :: text != RuleText(u))
  {
    RuleParsesBack(r);
    assert text == RuleText(ParseRule(text)) || ParseRule(text) == OneOfMany;
  }

  // strings.TrimSpace: the length in bytes of the white space rune that starts
  // (or ends) s, zero when there is none. Beyond ASCII these are the UTF-8
  // spellings of U+0085, U+00A0, U+1680, U+2000-200A, U+2028, U+2029, U+202F,
  // U+205F and U+3000.

  predicate AsciiSpace(c: char) {
    c == ' ' || '\t' <= c <= '\r'
  }

  predicate SpaceRune2(a: char, b: char) {
    a == '\U{c2}' && (b == '\U{85}' || b == '\U{a0}')
  }

  predicate SpaceRune3(a: char, b: char, c: char) {
    || (a == '\U{e1}' && b == '\U{9a}' && c == '\U{80}')
    || (a == '\U{e2}' && b == '\U{80}' &&
        ('\U{80}' <= c <= '\U{8a}' || c == '\U{a8}' || c == '\U{a9}' || c == '\U{af}'))
    || (a == '\U{e2}' && b == '\U{81}' && c == '\U{9f}')
    || (a == '\U{e3}' && b == '\U{80}' && c == '\U{80}')
  }

  function LeadingSpace(s: string): (n: nat)
    ensures n <= |s|
  {
    if |s| >= 1 && AsciiSpace(s[0]) then 1
    else if |s| >= 2 && SpaceRune2(s[0], s[1]) then 2
    else if |s| >= 3 && SpaceRune3(s[0], s[1], s[2]) then 3
    else 0
  }

  function TrailingSpace(s: string): (n: nat)
    ensures n <= |s|
  {
    var k := |s|;
    if k >= 1 && AsciiSpace(s[k - 1]) then 1
    else if k >= 2 && SpaceRune2(s[k - 2], s[k - 1]) then 2
    else if k >= 3 && SpaceRune3(s[k - 3], s[k - 2], s[k - 1]) then 3
    else 0
  }

  function TrimLeft(s: string): (r: string)
    ensures |r| <= |s|
    ensures LeadingSpace(r) == 0
  {
    if LeadingSpace(s) == 0 then s else TrimLeft(s[LeadingSpace(s)..])
  }

  function TrimRight(s: string): (r: string)
    ensures r <= s
    ensures TrailingSpace(r) == 0
  {
    if TrailingSpace(s) == 0 then s else TrimRight(s[..|s| - TrailingSpace(s)])
  }

  function TrimSpace(s: string): string {
    TrimRight(TrimLeft(s))
  }

  /** White space and nothing else. */
  predicate AllSpace(s: string)
    decreases |s|
  {
    s == "" || (LeadingSpace(s) > 0 && AllSpace(s[LeadingSpace(s)..]))
  }

  /** Trimming takes white space from both ends, until neither begins or ends with any. */
  lemma TrimSpaceTakes(s: string)
    ensures exists front, back :: AllSpace(front) && s == front + TrimSpace(s) + back && AllSpaceBack(back)
    ensures LeadingSpace(TrimSpace(s)) == 0 && TrailingSpace(TrimSpace(s)) == 0
  {
    var left := TrimLeft(s);
    var front := LeftTakes(s);
    var back := RightTakes(left);
    assert s == front + TrimSpace(s) + back;
    TrimSpaceIdempotent(s);
  }

  /** The same read from its end. */
  predicate AllSpaceBack(s: string)
    decreases |s|
  {
    s == "" || (TrailingSpace(s) > 0 && AllSpaceBack(s[..|s| - TrailingSpace(s)]))
  }

  lemma {:induction false} LeftTakes(s: string) returns (front: string)
    ensures AllSpace(front) && s == front + TrimLeft(s)
    decreases |s|
  {
    hide LeadingSpace;
    var n := LeadingSpace(s);
    if n == 0 {
      front := "";
    } else {
      var rest := LeftTakes(s[n..]);
      front := s[..n] + rest;
      LeadingFirst(s, rest);
      assert front[n..] == rest;
    }
  }

  lemma LeadingFirst(s: string, rest: string)
    ensures var n := LeadingSpace(s);
            n > 0 ==> LeadingSpace(s[..n] + rest) == n
  {
  }

  lemma {:induction false} RightTakes(s: string) returns (back: string)
    ensures AllSpaceBack(back) && s == TrimRight(s) + back
    decreases |s|
  {
    hide TrailingSpace, AllSpaceBack;
    var n := TrailingSpace(s);
    if n == 0 {
      back := "";
      NoSpaceBack();
    } else {
      var front, last := s[..|s| - n], s[|s| - n..];
      var rest := RightTakes(front);
      back := rest + last;
      TrailingMore(s, rest);
      assert s == front + last;
      assert TrimRight(front) + rest + last == TrimRight(front) + back;
    }
  }

  lemma NoSpaceBack()
    ensures AllSpaceBack("")
  {
  }

  lemma TrailingLast(s: string, rest: string)
    ensures var n := TrailingSpace(s);
            n > 0 ==> TrailingSpace(rest + s[|s| - n..]) == n
  {
  }

  lemma TrailingMore(s: string, rest: string)
    requires TrailingSpace(s) > 0 && AllSpaceBack(rest)
    ensures AllSpaceBack(rest + s[|s| - TrailingSpace(s)..])
  {
    hide TrailingSpace;
    TrailingLast(s, rest);
    var back := rest + s[|s| - TrailingSpace(s)..];
    assert back[..|back| - TrailingSpace(s)] == rest;
  }

  /** Trimming reaches a fixed point in one pass and never lengthens. */
  lemma TrimSpaceIdempotent(s: string)
    ensures TrimSpace(TrimSpace(s)) == TrimSpace(s)
    ensures |TrimSpace(s)| <= |s|
  {
    var l := TrimLeft(s);
    var r := TrimRight(l);
    assert r <= l;
    assert LeadingSpace(r) == 0;
  }

  /** Of single bytes, these six are trimmed. */
  lemma BlankBytes(c: char)
    ensures TrimSpace([c]) == "" <==> c in {' ', '\t', '\n', '\U{b}', '\U{c}', '\r'}
  {
    assert TrimLeft([c]) == if AsciiSpace(c) then [c][1..] else [c];
  }

  lemma TrimSpacePlain(s: string)
    requires Plain(s)
    ensures TrimSpace(s) == s
  {
    assert |s| > 0 ==> PlainChar(s[0]) && PlainChar(s[|s| - 1]);
  }

  /** ASCII strings.ToLower. */
  function Lower(s: string): string {
    seq(|s|, i requires 0 <= i < |s| => if 'A' <= s[i] <= 'Z' then s[i] - 'A' + 'a' else s[i])
  }

  // Decimal text of int64 sizes: "%d" and strconv.ParseInt(s, 10, 64).

  const MIN_INT64: int := -0x8000_0000_0000_0000
  const MAX_INT64: int := 0x7fff_ffff_ffff_ffff

  predicate IsDigit(c: char) { '0' <= c <= '9' }

  function Digit(d: nat): char
    requires d < 10
  {
    '0' + d as char
  }

  function DecNat(n: nat): (s: string)
    ensures s != "" && forall i :: 0 <= i < |s| ==> IsDigit(s[i])
    ensures n < 0x1_0000_0000_0000_0000 ==> |s| <= 20
  {
    DecWidth(n, 20);
    DecNatRaw(n)
  }

  function DecNatRaw(n: nat): (s: string)
    ensures s != "" && forall i :: 0 <= i < |s| ==> IsDigit(s[i])
  {
    if n < 10 then [Digit(n)] else DecNatRaw(n / 10) + [Digit(n % 10)]
  }

  function Pow10(k: nat): nat {
    if k == 0 then 1 else 10 * Pow10(k - 1)
  }

  lemma {:induction false} DecWidth(n: nat, k: nat)
    requires k > 0
    ensures n < Pow10(k) ==> |DecNatRaw(n)| <= k
    ensures k == 20 ==> Pow10(k) == 100000000000000000000
    decreases k
  {
    if k == 20 {
      assert Pow10(5) == 100000;
      assert Pow10(10) == 10000000000;
      assert Pow10(15) == 1000000000000000;
    }
    if k > 1 {
      DecWidth(n / 10, k - 1);
    }
  }

  function Dec(n: int): string {
    if n < 0 then "-" + DecNat(-n) else DecNat(n)
  }

  /** The value of a digit string; None when a non-digit occurs or it is empty. */
  function Digits(s: string): Option<nat> {
    if s == "" then None
    else if !IsDigit(s[|s| - 1]) then None
    else
      var d := s[|s| - 1] as int - '0' as int;
      if |s| == 1 then Some(d)
      else match Digits(s[..|s| - 1])
           case None => None
           case Some(n) => Some(10 * n + d)
  }

  /** The value ParseInt yields, its error ignored: 0 on bad syntax, the nearest
      bound on overflow. */
  function ParseInt64(s: string): int {
    var neg := |s| > 0 && s[0] == '-';
    var body := if |s| > 0 && (s[0] == '-' || s[0] == '+') then s[1..] else s;
    match Digits(body)
    case None => 0
    case Some(n) =>
      var v := if neg then 0 - n else n;
      if v < MIN_INT64 then MIN_INT64 else if v > MAX_INT64 then MAX_INT64 else v
  }

  lemma {:induction false} DigitsOfDec(n: nat)
    ensures Digits(DecNatRaw(n)) == Some(n)
  {
    var s := DecNatRaw(n);
    if n >= 10 {
      DigitsOfDec(n / 10);
      assert s[..|s| - 1] == DecNatRaw(n / 10);
    }
  }

  /** One pair that loses nothing: what NumText.Lawful asks for can be had. */
  const DECIMAL := NumText(
    (v: Num) => DecNat(v),
    (s: string) => match Digits(s) case None => ZERO case Some(d) => if d < NUMS then d else ZERO)

  lemma DecimalLawful()
    ensures DECIMAL.Lawful()
  {
    forall v: Num
      ensures DECIMAL.parse(DECIMAL.format(v)) == v && Plain(DECIMAL.format(v)) && |DECIMAL.format(v)| <= MAX_TOKEN
    {
      DigitsOfDec(v);
      DecPlain(v);
    }
  }

  lemma DecPlain(n: int)
    ensures Plain(Dec(n)) && Dec(n) != ""
  {
    assert n < 0 ==> Dec(n)[1..] == DecNat(-n);
  }

  lemma DecParsesBack(n: int)
    requires MIN_INT64 <= n <= MAX_INT64
    ensures ParseInt64(Dec(n)) == n
    ensures |Dec(n)| <= 21
  {
    DigitsOfDec(if n < 0 then -n else n);
    if n < 0 {
      assert Dec(n)[1..] == DecNat(-n);
    } else {
      assert IsDigit(Dec(n)[0]);
    }
  }

  /** A run of digits with at most one sign before it, over int64: what is beyond reads as
      the nearest end, and what is not of that form as zero. */
  lemma Int64Reads(digits: string, n: nat)
    requires Digits(digits) == Some(n)
    ensures ParseInt64(digits) == ParseInt64("+" + digits) == if n > MAX_INT64 then MAX_INT64 else n
    ensures ParseInt64("-" + digits) == if 0 - n < MIN_INT64 then MIN_INT64 else 0 - n
  {
    FirstDigit(digits);
    assert ("+" + digits)[1..] == digits && ("-" + digits)[1..] == digits;
  }

  lemma {:induction false} FirstDigit(s: string)
    requires Digits(s).Some?
    ensures s != "" && IsDigit(s[0])
    decreases |s|
  {
    if |s| == 1 {
    } else {
      FirstDigit(s[..|s| - 1]);
    }
  }

  lemma OtherReadsZero(s: string)
    requires Digits(s).None? && (s != "" && s[0] in {'+', '-'} ==> Digits(s[1..]).None?)
    ensures ParseInt64(s) == 0
  {
  }
}
