/** The streaming parser: a compacting, growing buffer over a reader that may
    deliver its bytes in any pieces. Every method is proved equal to the
    buffer-free grammar applied to the bytes not yet consumed. */
module Parsing {
  import opened Lists
  import opened Results
  import opened Wire
  import opened Base64
  import opened Grammar

  /** The buffered result r agrees with the grammar's result on the same input. */
  ghost predicate Agrees<T>(spec: Scan<T>, r: Result<T, Error>, after: string) {
    match spec
    case Done(v, rest) => r == Success(v) && after == rest
    case Fail(e) => r == Failure(e)
  }

  /** An io.Reader: the bytes it has yet to deliver and how it will split them.
      A planned zero is a Read that returns nothing and no error. An eager reader
      reports its end along with the last bytes. */
  class Source {
    ghost var rest: string
    var data: string
    var at: nat
    var plan: seq<nat>
    const eager: bool

    ghost predicate Valid()
      reads this
    {
      at <= |data| && rest == data[at..]
    }

    ghost function Fuel(): nat
      reads this
    {
      |rest| + |plan|
    }

    constructor (data: string, plan: seq<nat>, eager: bool)
      ensures Valid() && rest == data && this.plan == plan && this.eager == eager
    {
      this.eager := eager;
      this.data := data;
      this.at := 0;
      this.rest := data;
      this.plan := plan;
    }

    /** Deliver at most `room` bytes. Only a reader with nothing left fails: for good, and
        if eager already with its last bytes. */
    method Read(room: nat) returns (chunk: string, failed: bool)
      requires Valid() && room > 0
      modifies this
      ensures Valid() && old(rest) == chunk + rest && |chunk| <= room
      ensures failed ==> rest == "" && plan == []
      ensures old(rest) == "" && old(plan) == [] ==> failed && chunk == ""
      ensures !(chunk == "" && failed) ==> Fuel() < old(Fuel())
    {
      var left := |data| - at;
      var n := if plan == [] || plan[0] > left then left else plan[0];
      n := if n > room then room else n;
      chunk := data[at..at + n];
      at := at + n;
      rest := data[at..];
      if plan != [] {
        plan := plan[1..];
        failed := eager && plan == [] && at == |data|;
      } else {
        failed := at == |data| && (eager || n == 0);
      }
    }
  }

  const INITIAL_BUFFER: nat := 0x1_0000

  /** Doubling from 64 KiB reaches MAX_TOKEN exactly. */
  predicate LegalSize(n: nat) {
    n == 0x1_0000 || n == 0x2_0000 || n == 0x4_0000 || n == 0x8_0000 || n == MAX_TOKEN
  }

  class Parser {
    const src: Source
    const cfg: Config
    var buf: array<char>
    var pos: nat
    var end: nat
    var err: Option<Error>
    var el: Element
    var unknown: nat
    var sunk: seq<Delivery>

    ghost predicate Valid()
      reads this, src
    {
      && src.Valid()
      && pos <= end <= buf.Length
      && LegalSize(buf.Length)
    }

    /** The bytes of the stream not consumed yet. */
    ghost function Input(): string
      reads this, buf, src
      requires pos <= end <= buf.Length
    {
      buf[pos..end] + src.rest
    }

    constructor (src: Source, cfg: Config)
      requires src.Valid()
      ensures Valid() && Input() == src.rest && this.src == src && this.cfg == cfg
      ensures err == None && unknown == 0 && sunk == [] && fresh(buf)
    {
      this.src := src;
      this.cfg := cfg;
      buf := new char[INITIAL_BUFFER];
      pos := 0;
      end := 0;
      err := None;
      el := Blank(KindDef, Number);
      unknown := 0;
      sunk := [];
    }

    // The buffer

    /** Move the unread bytes to the front of the buffer. */
    method Compact()
      requires Valid()
      modifies this`pos, this`end, buf
      ensures Valid() && pos == 0 && buf[..end] == old(buf[pos..end])
    {
      var kept := end - pos;
      if pos > 0 {
        forall i | 0 <= i < kept {
          buf[i] := buf[pos + i];
        }
        end := kept;
        pos := 0;
      }
    }

    /** Double a full buffer. */
    method Grow()
      requires Valid() && pos == 0 && end == buf.Length < MAX_TOKEN
      modifies this`buf
      ensures Valid() && fresh(buf) && end < buf.Length && buf[..end] == old(buf[..end])
    {
      var nb := new char[buf.Length * 2];
      forall i | 0 <= i < end {
        nb[i] := buf[i];
      }
      assert nb[..end] == buf[..end];
      buf := nb;
    }

    /** Put bytes just read behind the unread ones. */
    method Append(chunk: string)
      requires Valid() && |chunk| <= buf.Length - end
      modifies this`end, buf
      ensures Valid() && end == old(end) + |chunk|
      ensures buf[pos..end] == old(buf[pos..end]) + chunk
    {
      forall i | 0 <= i < |chunk| {
        buf[end + i] := chunk[i];
      }
      end := end + |chunk|;
    }

    /** Make room for at least one byte, or fail on a full buffer of the largest size. */
    method MakeRoom() returns (r: Result<(), Error>)
      requires Valid()
      modifies this`buf, this`pos, this`end, buf
      ensures Valid() && (buf == old(buf) || fresh(buf))
      ensures pos == 0 && buf[..end] == old(buf[pos..end])
      ensures r.Success? ==> end < buf.Length
      ensures r.Failure? ==> r == Failure(TokenTooLong)
      ensures r.Failure? <==> old(end - pos) == MAX_TOKEN
    {
      Compact();
      if end == buf.Length {
        if buf.Length >= MAX_TOKEN {
          return Failure(TokenTooLong);
        }
        Grow();
      }
      return Success(());
    }

    /** Compact, grow if full, and read once. Nothing unread is lost. */
    method Fill() returns (r: Result<(), Error>)
      requires Valid()
      modifies this`buf, this`pos, this`end, buf, src
      ensures Valid() && (buf == old(buf) || fresh(buf))
      ensures Input() == old(Input()) && pos == 0
      ensures old(buf[pos..end]) <= buf[..end]
      ensures r.Success? ==> src.Fuel() < old(src.Fuel())
      ensures r.Failure? ==> end == old(end - pos)
      ensures r == Failure(TokenTooLong) <==> old(end - pos) == MAX_TOKEN
      ensures r.Failure? && r != Failure(TokenTooLong) ==> r == Failure(ReadError) && src.rest == ""
    {
      hide LegalSize;
      ghost var unread := buf[pos..end];
      var _ :- MakeRoom();
      assert buf[pos..end] == unread;
      var chunk, failed := src.Read(buf.Length - end);
      Append(chunk);
      Assoc(unread, chunk, src.rest);
      assert unread <= unread + chunk;
      assert buf[..end] == unread + chunk;
      return if chunk == "" && failed then Failure(ReadError) else Success(());
    }

    method Byte() returns (r: Result<char, Error>)
      requires Valid()
      modifies this`buf, this`pos, this`end, buf, src
      ensures Valid() && (buf == old(buf) || fresh(buf))
      ensures old(Input()) == "" ==> r == Failure(ReadError) && Input() == ""
      ensures old(Input()) != "" ==> r == Success(old(Input())[0]) && Input() == old(Input())[1..]
      ensures r.Success? ==> pos > 0 && buf[pos - 1] == r.value
    {
      while pos == end
        invariant Valid() && (buf == old(buf) || fresh(buf)) && Input() == old(Input())
        decreases src.Fuel()
      {
        var _ :- Fill();
      }
      var b := buf[pos];
      assert buf[pos..end] == [b] + buf[pos + 1..end];
      pos := pos + 1;
      return Success(b);
    }

    /** Give the last byte back; only ever called straight after Byte, whose input
        was `before`. */
    method Unread(ghost before: string)
      requires Valid() && pos > 0
      requires before != "" && before[0] == buf[pos - 1] && before[1..] == Input()
      modifies this`pos
      ensures Valid() && Input() == before
    {
      ghost var unread := buf[pos..end];
      pos := pos - 1;
      assert buf[pos..end] == [buf[pos]] + unread;
      assert Input() == [before[0]] + before[1..];
    }

    // Bytes, identifiers and quoted text

    method Expect(want: char) returns (r: Result<(), Error>)
      requires Valid()
      modifies this`buf, this`pos, this`end, buf, src
      ensures Valid() && (buf == old(buf) || fresh(buf))
      ensures Agrees(Grammar.Expect(want, old(Input())), r, Input())
    {
      var b :- Byte();
      return if b != want then Failure(ExpectedByte(want, b)) else Success(());
    }

    /** Count identifier bytes in the buffer, n of them seen before. */
    method ScanIdent(n: nat) returns (n': nat)
      requires Valid() && n <= end - pos && n <= IdentRun(Input())
      ensures n <= n' <= end - pos && n' <= IdentRun(Input())
      ensures n' < end - pos ==> n' == IdentRun(Input())
    {
      hide LegalSize, IdentChar;
      ghost var whole := Input();
      assert forall i :: 0 <= i < end - pos ==> whole[i] == buf[pos + i];
      n' := n;
      while n' < end - pos && IdentChar(buf[pos + n'])
        invariant n <= n' <= end - pos && n' <= IdentRun(whole)
      {
        n' := n' + 1;
      }
      assert n' < end - pos ==> !IdentChar(whole[n']);
    }

    /** Bring a whole identifier and the byte after it into the buffer. A refill
        keeps the bytes scanned so far and the scan goes on behind them. */
    method FindIdent() returns (r: Result<nat, Error>)
      requires Valid()
      modifies this`buf, this`pos, this`end, buf, src
      ensures Valid() && (buf == old(buf) || fresh(buf)) && Input() == old(Input())
      ensures r.Success? ==> r.value < end - pos && r.value == IdentRun(Input()) < MAX_TOKEN
      ensures r.Failure? ==> r.error == if IdentRun(Input()) >= MAX_TOKEN then TokenTooLong else ReadError
      ensures r.Failure? && r.error == ReadError ==> IdentRun(Input()) == |Input()|
    {
      var n := 0;
      while true
        invariant Valid() && (buf == old(buf) || fresh(buf)) && Input() == old(Input())
        invariant n <= end - pos && n <= IdentRun(Input())
        decreases src.Fuel()
      {
        n := ScanIdent(n);
        if n < end - pos {
          return Success(n);
        }
        var _ :- Fill();
      }
    }

    method Advance(n: nat)
      requires Valid() && n <= end - pos
      modifies this`pos
      ensures Valid() && Input() == old(Input())[n..]
    {
      assert buf[pos..end][n..] == buf[pos + n..end];
      pos := pos + n;
    }

    method Ident() returns (r: Result<string, Error>)
      requires Valid()
      modifies this`buf, this`pos, this`end, buf, src
      ensures Valid() && (buf == old(buf) || fresh(buf))
      ensures Agrees(Grammar.Ident(old(Input())), r, Input())
    {
      hide LegalSize, IdentRun;
      var n :- FindIdent();
      ghost var whole := Input();
      assert n < |whole| && whole[0] == buf[pos];
      if n == 0 {
        return Failure(ExpectedIdent(buf[pos]));
      }
      var name := buf[pos..pos + n];
      assert whole == buf[pos..end] + src.rest && name == buf[pos..end][..n];
      assert name == whole[..n];
      Advance(n);
      return Success(name);
    }

    /** Called with the leading '&' consumed already. */
    method Entity() returns (r: Result<char, Error>)
      requires Valid()
      modifies this`buf, this`pos, this`end, buf, src
      ensures Valid() && (buf == old(buf) || fresh(buf))
      ensures Agrees(Grammar.Entity(old(Input())), r, Input())
    {
      ghost var whole := Input();
      var name := "";
      while true
        invariant Valid() && (buf == old(buf) || fresh(buf))
        invariant |name| <= 6 && EntityName(Input(), name) == EntityName(whole, "")
        decreases |Input()|
      {
        var b :- Byte();
        if b == ';' {
          break;
        }
        if |name| == 6 {
          return Failure(OversizedEntity);
        }
        name := name + [b];
      }
      match EntityChar(name)
      case None => return Failure(UnknownEntity(name));
      case Some(c) => return Success(c);
    }

    method Quoted() returns (r: Result<string, Error>)
      requires Valid()
      modifies this`buf, this`pos, this`end, buf, src
      ensures Valid() && (buf == old(buf) || fresh(buf))
      ensures Agrees(Grammar.Quoted(old(Input())), r, Input())
    {
      ghost var whole := Input();
      var q :- Byte();
      if q != '\'' && q != '"' {
        return Failure(ExpectedQuote(q));
      }
      var sb := "";
      while true
        invariant Valid() && (buf == old(buf) || fresh(buf))
        invariant Grammar.Quoted(whole) == QuotedBody(q, Input(), sb)
        decreases |Input()|
      {
        var b :- Byte();
        if b == q {
          return Success(sb);
        }
        if b == '&' {
          var c :- Entity();
          sb := sb + [c];
        } else {
          sb := sb + [b];
        }
        if |sb| > MAX_TOKEN {
          return Failure(TokenTooLong);
        }
      }
    }

    // Tags

    method AttrPair() returns (r: Result<Attr, Error>)
      requires Valid()
      modifies this`buf, this`pos, this`end, buf, src
      ensures Valid() && (buf == old(buf) || fresh(buf))
      ensures Agrees(Grammar.AttrPair(old(Input())), r, Input())
    {
      var name :- Ident();
      var _ :- Expect('=');
      var value :- Quoted();
      return Success(Attr(name, value));
    }

    method StartTag() returns (r: Result<Tag, Error>)
      requires Valid()
      modifies this`buf, this`pos, this`end, buf, src
      ensures Valid() && (buf == old(buf) || fresh(buf))
      ensures Agrees(Grammar.StartTag(old(Input())), r, Input())
    {
      hide Grammar.AttrPair, Grammar.Ident;
      ghost var whole := Input();
      var _ :- Expect('<');
      var name :- Ident();
      var attrs: seq<Attr> := [];
      while true
        invariant Valid() && (buf == old(buf) || fresh(buf))
        invariant Grammar.StartTag(whole) == TagBody(name, Input(), attrs)
        decreases |Input()|
      {
        ghost var before := Input();
        var b :- Byte();
        if Blank?(b) {
          continue;
        }
        if b == '>' {
          return Success(Tag(name, attrs, false));
        }
        if b == '/' {
          var b2 := Byte();
          return if b2.Failure? || b2.value != '>' then Failure(MalformedSelfClose(name))
              else Success(Tag(name, attrs, true));
        }
        Unread(before);
        var a :- AttrPair();
        attrs := attrs + [a];
      }
    }

    method CloseTag() returns (r: Result<string, Error>)
      requires Valid()
      modifies this`buf, this`pos, this`end, buf, src
      ensures Valid() && (buf == old(buf) || fresh(buf))
      ensures Agrees(Grammar.CloseTag(old(Input())), r, Input())
    {
      var _ :- Expect('<');
      var _ :- Expect('/');
      var name :- Ident();
      var _ :- Expect('>');
      return Success(name);
    }

    /** Consumes the close tag as well as the text. */
    method TextUntilClose(tag: string) returns (r: Result<string, Error>)
      requires Valid()
      modifies this`buf, this`pos, this`end, buf, src
      ensures Valid() && (buf == old(buf) || fresh(buf))
      ensures Agrees(Grammar.TextUntilClose(tag, old(Input()), ""), r, Input())
    {
      ghost var whole := Input();
      var sb := "";
      while true
        invariant Valid() && (buf == old(buf) || fresh(buf))
        invariant Grammar.TextUntilClose(tag, whole, "") == Grammar.TextUntilClose(tag, Input(), sb)
        decreases |Input()|
      {
        ghost var before := Input();
        var b :- Byte();
        if b == '<' {
          Unread(before);
          var name :- CloseTag();
          return if name != tag then Failure(WrongClose(tag, name)) else Success(sb);
        }
        if b == '&' {
          var c :- Entity();
          sb := sb + [c];
        } else {
          sb := sb + [b];
        }
        if |sb| > MAX_TOKEN {
          return Failure(TokenTooLong);
        }
      }
    }

    // Skipping

    method FinishTag() returns (r: Result<bool, Error>)
      requires Valid()
      modifies this`buf, this`pos, this`end, buf, src
      ensures Valid() && (buf == old(buf) || fresh(buf))
      ensures Agrees(Grammar.FinishTag(old(Input()), NO_QUOTE), r, Input())
    {
      ghost var whole := Input();
      var inQuote := NO_QUOTE;
      while true
        invariant Valid() && (buf == old(buf) || fresh(buf))
        invariant Grammar.FinishTag(whole, NO_QUOTE) == Grammar.FinishTag(Input(), inQuote)
        decreases |Input()|
      {
        var b :- Byte();
        if inQuote != NO_QUOTE {
          if b == inQuote {
            inQuote := NO_QUOTE;
          }
        } else if b == '\'' || b == '"' {
          inQuote := b;
        } else if b == '>' {
          return Success(false);
        } else if b == '/' {
          ghost var before := Input();
          var b2 :- Byte();
          if b2 == '>' {
            return Success(true);
          }
          Unread(before);
        }
      }
    }

    method SkipStep(depth: nat) returns (r: Result<nat, Error>)
      requires Valid() && depth > 0
      modifies this`buf, this`pos, this`end, buf, src
      ensures Valid() && (buf == old(buf) || fresh(buf))
      ensures Agrees(Grammar.SkipStep(depth, old(Input())), r, Input())
    {
      hide Valid, Input, Grammar.Ident, Grammar.FinishTag;
      var b :- Byte();
      if b != '<' {
        return Success(depth);
      }
      ghost var before := Input();
      b :- Byte();
      if b == '/' {
        var _ :- Ident();
        var _ :- Expect('>');
        return Success(depth - 1);
      }
      Unread(before);
      var _ :- Ident();
      var closed :- FinishTag();
      return Success(if closed then depth else depth + 1);
    }

    method SkipElement() returns (r: Result<(), Error>)
      requires Valid()
      modifies this`buf, this`pos, this`end, buf, src
      ensures Valid() && (buf == old(buf) || fresh(buf))
      ensures Agrees(Grammar.SkipElement(1, old(Input())), r, Input())
    {
      ghost var whole := Input();
      var depth: nat := 1;
      while depth > 0
        invariant Valid() && (buf == old(buf) || fresh(buf))
        invariant Grammar.SkipElement(1, whole) == Grammar.SkipElement(depth, Input())
        decreases |Input()|
      {
        depth :- SkipStep(depth);
      }
      return Success(());
    }

    method SkipToTag() returns (r: Result<(), Error>)
      requires Valid()
      modifies this`buf, this`pos, this`end, buf, src
      ensures Valid() && (buf == old(buf) || fresh(buf))
      ensures Agrees(Grammar.SkipToTag(old(Input())), r, Input())
    {
      ghost var whole := Input();
      while true
        invariant Valid() && (buf == old(buf) || fresh(buf))
        invariant Grammar.SkipToTag(whole) == Grammar.SkipToTag(Input())
        decreases |Input()|
      {
        ghost var before := Input();
        var b :- Byte();
        if b == '<' {
          Unread(before);
          return Success(());
        }
        if !Blank?(b) {
          return Failure(UnexpectedByte(b));
        }
      }
    }

    /** Read a line of stray text, up to the next tag at most. What it says goes to the
        callback. */
    method ReadDiagnostic() returns (r: Result<(), Error>)
      requires Valid()
      modifies this`buf, this`pos, this`end, buf, src
      ensures Valid() && (buf == old(buf) || fresh(buf))
      ensures Agrees(Grammar.SkipLine(old(Input())), r, Input())
    {
      ghost var whole := Input();
      while true
        invariant Valid() && (buf == old(buf) || fresh(buf))
        invariant Grammar.SkipLine(whole) == Grammar.SkipLine(Input())
        decreases |Input()|
      {
        ghost var before := Input();
        var b :- Byte();
        if b == '<' {
          Unread(before);
          return Success(());
        }
        if b == '\n' {
          return Success(());
        }
      }
    }

    method SkipToTop() returns (r: Result<(), Error>)
      requires Valid()
      modifies this`buf, this`pos, this`end, buf, src
      ensures Valid() && (buf == old(buf) || fresh(buf))
      ensures Agrees(Grammar.SkipToTop(cfg.diagnostics, old(Input())), r, Input())
    {
      hide Grammar.SkipLine;
      ghost var whole := Input();
      while true
        invariant Valid() && (buf == old(buf) || fresh(buf))
        invariant Grammar.SkipToTop(cfg.diagnostics, whole) == Grammar.SkipToTop(cfg.diagnostics, Input())
        decreases |Input()|
      {
        ghost var before := Input();
        var b :- Byte();
        if b == '<' {
          Unread(before);
          return Success(());
        }
        if !Blank?(b) {
          if !cfg.diagnostics {
            return Failure(UnexpectedByte(b));
          }
          var _ :- ReadDiagnostic();
        }
      }
    }

    /** Have two bytes in view if the stream still holds two. A read error is not
        reported: it comes back on the next read. */
    method Peek2() returns (ok: bool)
      requires Valid()
      modifies this`buf, this`pos, this`end, buf, src
      ensures Valid() && (buf == old(buf) || fresh(buf)) && Input() == old(Input())
      ensures ok <==> |Input()| >= 2
      ensures ok ==> end - pos >= 2
    {
      while end - pos < 2
        invariant Valid() && (buf == old(buf) || fresh(buf)) && Input() == old(Input())
        decreases src.Fuel()
      {
        var filled := Fill();
        if filled.Failure? {
          return false;
        }
      }
      return true;
    }

    method PeekPI() returns (yes: bool)
      requires Valid()
      modifies this`buf, this`pos, this`end, buf, src
      ensures Valid() && (buf == old(buf) || fresh(buf)) && Input() == old(Input())
      ensures yes <==> AtPI(Input())
      ensures yes ==> end - pos >= 2
    {
      var ok := Peek2();
      return ok && buf[pos] == '<' && buf[pos + 1] == '?';
    }

    method PeekClose() returns (yes: bool)
      requires Valid()
      modifies this`buf, this`pos, this`end, buf, src
      ensures Valid() && (buf == old(buf) || fresh(buf)) && Input() == old(Input())
      ensures yes <==> AtClose(Input())
    {
      var ok := Peek2();
      return ok && buf[pos] == '<' && buf[pos + 1] == '/';
    }

    /** Called with "<?" in view. */
    method SkipPI() returns (r: Result<(), Error>)
      requires Valid() && end - pos >= 2
      modifies this`buf, this`pos, this`end, buf, src
      ensures Valid() && (buf == old(buf) || fresh(buf))
      ensures Agrees(Grammar.SkipPI(old(Input())[2..], '\0'), r, Input())
    {
      ghost var whole := Input()[2..];
      Advance(2);
      var prev := '\0';
      while true
        invariant Valid() && (buf == old(buf) || fresh(buf))
        invariant Grammar.SkipPI(whole, '\0') == Grammar.SkipPI(Input(), prev)
        decreases |Input()|
      {
        var b :- Byte();
        if prev == '?' && b == '>' {
          return Success(());
        }
        prev := b;
      }
    }

    // BLOB content

    /** Base64 content, handed on quantum by quantum; what was handed on before an error
        stays handed on. */
    method BlobContent(closeTag: string) returns (r: Result<seq<bv8>, Error>, poured: seq<bv8>)
      requires Valid()
      modifies this`buf, this`pos, this`end, buf, src
      ensures Valid() && (buf == old(buf) || fresh(buf))
      ensures Agrees(Grammar.BlobContent(closeTag, old(Input()), "", []), r, Input())
      ensures poured == Poured(old(Input()), "", []) && (r.Success? ==> r.value == poured)
    {
      ghost var whole := Input();
      var quad := "";
      poured := [];
      while true
        invariant Valid() && (buf == old(buf) || fresh(buf)) && |quad| < 4
        invariant Grammar.BlobContent(closeTag, whole, "", []) == Grammar.BlobContent(closeTag, Input(), quad, poured)
        invariant Poured(whole, "", []) == Poured(Input(), quad, poured)
        decreases |Input()|
      {
        ghost var before := Input();
        var b :- Byte();
        if b == '<' {
          Unread(before);
          var name :- CloseTag();
          if name != closeTag {
            return Failure(WrongClose(closeTag, name)), poured;
          }
          return if quad != "" then Failure(TruncatedBase64(|quad|)) else Success(poured), poured;
        }
        if Blank?(b) {
          continue;
        }
        quad := quad + [b];
        if |quad| < 4 {
          continue;
        }
        match DecodeQuad(quad)
        case Bad(e) => return Failure(e), poured;
        case Bytes(bs) =>
          poured := poured + bs;
          quad := "";
      }
    }

    // Vectors

    static method VectorAttrs(e: Element, attrs: seq<Attr>) returns (r: Element)
      ensures r == Grammar.VectorAttrs(e, attrs)
    {
      r := e;
      for i := 0 to |attrs|
        invariant Grammar.VectorAttrs(r, attrs[i..]) == Grammar.VectorAttrs(e, attrs)
      {
        r := SetVectorAttr(r, attrs[i]);
        assert attrs[i..][1..] == attrs[i + 1..];
      }
    }

    method MemberAttrs(attrs: seq<Attr>) returns (m: Member)
      ensures m == Grammar.MemberAttrs(cfg.numbers, el.vtype, NO_MEMBER, attrs)
    {
      m := NO_MEMBER;
      for i := 0 to |attrs|
        invariant Grammar.MemberAttrs(cfg.numbers, el.vtype, m, attrs[i..])
               == Grammar.MemberAttrs(cfg.numbers, el.vtype, NO_MEMBER, attrs)
      {
        m := SetMemberAttr(cfg.numbers, el.vtype, m, attrs[i]);
        assert attrs[i..][1..] == attrs[i + 1..];
      }
    }

    static method AttrVal(attrs: seq<Attr>, name: string) returns (v: string)
      ensures v == Grammar.AttrVal(attrs, name)
    {
      for i := 0 to |attrs|
        invariant Grammar.AttrVal(attrs, name) == Grammar.AttrVal(attrs[i..], name)
      {
        if attrs[i].name == name {
          return attrs[i].value;
        }
        assert attrs[i..][1..] == attrs[i + 1..];
      }
      return "";
    }

    /** The element being built and the counts, as the grammar carries them. */
    ghost function State(): Progress
      reads this
    {
      Progress(el, unknown, sunk)
    }

    /** The grammar and the parser end in the same state, or with the same error. */
    ghost predicate Reaches(spec: Scan<Progress>, r: Result<(), Error>)
      reads this, buf, src
      requires Valid()
    {
      match spec
      case Done(v, rest) => r == Success(()) && State() == v && Input() == rest
      case Fail(e) => r == Failure(e)
    }

    /** What one child of a vector adds, its start tag read already. */
    method OneMember(tag: Tag, childTag: string) returns (r: Result<(), Error>)
      requires Valid()
      modifies this`buf, this`pos, this`end, this`el, this`unknown, this`sunk, buf, src
      ensures Valid() && (buf == old(buf) || fresh(buf))
      ensures Reaches(Grammar.OneMember(cfg, old(State()), tag, childTag, old(Input())), r)
    {
      if tag.name != childTag {
        unknown := unknown + 1;
        if !tag.selfClosed {
          var _ :- SkipElement();
        }
        return Success(());
      }
      if |el.members| >= MAX_MEMBERS {
        return Failure(TooManyMembers);
      }
      var m := MemberAttrs(tag.attrs);
      if el.vtype == Blob && !tag.selfClosed {
        var payload, _ :- BlobContent(childTag);
        if TakesSink(cfg, el, m) {
          sunk := sunk + [Delivery(BlobMeta(el.device, el.name, m.name, m.blobFormat, m.size), payload)];
        } else {
          m := m.(data := payload);
        }
      } else if !tag.selfClosed {
        var text :- TextUntilClose(childTag);
        m := MemberValue(cfg.numbers, el.vtype, m, text);
      }
      el := el.(members := el.members + [m]);
      return Success(());
    }

    /** One child of a vector, or its close tag: whether the vector goes on. */
    method MemberStep(closeTag: string, childTag: string) returns (r: Result<bool, Error>)
      requires Valid()
      modifies this`buf, this`pos, this`end, this`el, this`unknown, this`sunk, buf, src
      ensures Valid() && (buf == old(buf) || fresh(buf))
      ensures match Grammar.MemberStep(cfg, old(State()), closeTag, childTag, old(Input()))
              case Fail(e) => r == Failure(e)
              case Done(Closed, rest) => r == Success(false) && State() == old(State()) && Input() == rest
              case Done(Added(v), rest) => r == Success(true) && State() == v && Input() == rest
    {
      hide Grammar.OneMember, Grammar.StartTag, Grammar.CloseTag, Grammar.SkipToTag;
      var _ :- SkipToTag();
      var closing := PeekClose();
      if closing {
        var name :- CloseTag();
        return if name != closeTag then Failure(WrongClose(closeTag, name)) else Success(false);
      }
      var tag :- StartTag();
      var _ :- OneMember(tag, childTag);
      return Success(true);
    }

    method Members(closeTag: string, childTag: string) returns (r: Result<(), Error>)
      requires Valid()
      modifies this`buf, this`pos, this`end, this`el, this`unknown, this`sunk, buf, src
      ensures Valid() && (buf == old(buf) || fresh(buf))
      ensures Reaches(Grammar.Members(cfg, old(State()), closeTag, childTag, old(Input())), r)
    {
      hide Grammar.MemberStep;
      ghost var whole, start := Input(), State();
      var more := true;
      while more
        invariant Valid() && (buf == old(buf) || fresh(buf))
        invariant Grammar.Members(cfg, start, closeTag, childTag, whole)
               == if more then Grammar.Members(cfg, State(), closeTag, childTag, Input()) else Done(State(), Input())
        decreases more, |Input()|
      {
        more :- MemberStep(closeTag, childTag);
      }
      return Success(());
    }

    // Top-level elements

    method SkipBody(tag: Tag) returns (r: Result<(), Error>)
      requires Valid()
      modifies this`buf, this`pos, this`end, buf, src
      ensures Valid() && (buf == old(buf) || fresh(buf))
      ensures Agrees(Grammar.SkipBody(tag, old(Input())), r, Input())
    {
      if tag.selfClosed {
        return Success(());
      }
      r := SkipElement();
    }

    method Body(tag: Tag) returns (r: Result<(), Error>)
      requires Valid() && !Classify(tag.name).UnknownForm?
      modifies this`buf, this`pos, this`end, this`el, this`unknown, this`sunk, buf, src
      ensures Valid() && (buf == old(buf) || fresh(buf))
      ensures Reaches(Grammar.Body(cfg, tag, old(Input()), old(unknown), old(sunk)), r)
    {
      hide Classify;
      match Classify(tag.name)
      case VectorForm(kind, t, child) =>
        el := VectorAttrs(Blank(kind, t), tag.attrs);
        if tag.selfClosed {
          return Success(());
        }
        r := Members(tag.name, child);
      case PlainForm(kind) =>
        el := VectorAttrs(Blank(kind, Number), tag.attrs);
        var _ :- SkipBody(tag);
        return Success(());
      case ModeForm =>
        el := VectorAttrs(Blank(KindEnableBLOB, Number), tag.attrs);
        if tag.selfClosed {
          return Success(());
        }
        var text :- TextUntilClose(tag.name);
        el := el.(message := text);
        return Success(());
      case PingForm(kind) =>
        var uid := AttrVal(tag.attrs, "uid");
        el := Blank(kind, Number).(name := uid);
        var _ :- SkipBody(tag);
        return Success(());
    }

    /** One turn at the top level: whether an element was found. */
    method TopStep() returns (r: Result<bool, Error>)
      requires Valid()
      modifies this`buf, this`pos, this`end, this`el, this`unknown, this`sunk, buf, src
      ensures Valid() && (buf == old(buf) || fresh(buf))
      ensures match Grammar.TopStep(cfg, old(Input()), old(unknown), old(sunk))
              case Fail(e) => r == Failure(e)
              case Done(Passed(n), rest) => r == Success(false) && unknown == n && sunk == old(sunk) && Input() == rest
              case Done(Found(v), rest) => r == Success(true) && State() == v && Input() == rest
    {
      hide Grammar.TagStep, Grammar.StartTag, Grammar.SkipToTop, Grammar.SkipPI, Valid, Input;
      var _ :- SkipToTop();
      var pi := PeekPI();
      if pi {
        var _ :- SkipPI();
        return Success(false);
      }
      var tag :- StartTag();
      r := TagStep(tag);
    }

    /** A start tag read at top level: an element, or something to skip and count. */
    method TagStep(tag: Tag) returns (r: Result<bool, Error>)
      requires Valid()
      modifies this`buf, this`pos, this`end, this`el, this`unknown, this`sunk, buf, src
      ensures Valid() && (buf == old(buf) || fresh(buf))
      ensures match Grammar.TagStep(cfg, tag, old(Input()), old(unknown), old(sunk))
              case Fail(e) => r == Failure(e)
              case Done(Passed(n), rest) => r == Success(false) && unknown == n && sunk == old(sunk) && Input() == rest
              case Done(Found(v), rest) => r == Success(true) && State() == v && Input() == rest
    {
      hide Classify, Grammar.Body, Grammar.SkipBody;
      if Classify(tag.name) != UnknownForm {
        var _ :- Body(tag);
        return Success(true);
      }
      unknown := unknown + 1;
      var _ :- SkipBody(tag);
      return Success(false);
    }

    method NextElement() returns (r: Result<(), Error>)
      requires Valid()
      modifies this`buf, this`pos, this`end, this`el, this`unknown, this`sunk, buf, src
      ensures Valid() && (buf == old(buf) || fresh(buf))
      ensures Reaches(Grammar.Next(cfg, old(Input()), old(unknown), old(sunk)), r)
    {
      hide Grammar.TopStep;
      ghost var whole := Input();
      var found := false;
      while !found
        invariant Valid() && (buf == old(buf) || fresh(buf))
        invariant Grammar.Next(cfg, whole, old(unknown), old(sunk))
               == if found then Done(State(), Input()) else Grammar.Next(cfg, Input(), unknown, sunk)
        decreases !found, |Input()|
      {
        found :- TopStep();
      }
      return Success(());
    }

    /** The next element, for any way the reader splits the stream: exactly what the
        grammar finds in the unread bytes. An error is final. */
    method Next() returns (r: Result<Element, Error>)
      requires Valid()
      modifies this, buf, src
      ensures Valid() && (buf == old(buf) || fresh(buf))
      ensures old(err).Some? ==> r == Failure(old(err).value) && err == old(err) && Input() == old(Input())
      ensures old(err).None? ==>
                match Grammar.Next(cfg, old(Input()), old(unknown), old(sunk))
                case Done(v, rest) => r == Success(v.el) && State() == v && Input() == rest && err == None
                case Fail(e) => r == Failure(e) && err == Some(e)
    {
      if err.Some? {
        return Failure(err.value);
      }
      var found := NextElement();
      if found.Failure? {
        err := Some(found.error);
        return Failure(found.error);
      }
      return Success(el);
    }
  }
}
