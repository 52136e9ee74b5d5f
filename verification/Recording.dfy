/** Session recordings: traffic framed into a file as it happens, and replayed from it. */
module Recording {
  import opened Lists
  import opened Wire

  function Magic(): string { "INDIREC1\n" }

  /** One operation on a recorded connection: a read of some bytes with the descriptors
      that came with them, by content, or a write. */
  datatype Op = DidRead(bytes: string, fds: seq<string>) | DidWrite(bytes: string)

  /** What a connection's reader is given, in order; Failed is an error other than EOF. */
  datatype Item = Byte(c: char) | Fd(content: string) | Failed(why: Failure)

  datatype Failure = UnexpectedEOF | UnknownType(tag: char)

  function Bytes(s: string): (r: seq<Item>)
    ensures |r| == |s|
  {
    seq(|s|, i requires 0 <= i < |s| => Byte(s[i]))
  }

  function Fds(contents: seq<string>): (r: seq<Item>)
    ensures |r| == |contents|
  {
    seq(|contents|, i requires 0 <= i < |contents| => Fd(contents[i]))
  }

  // Frames

  function Low(n: nat): char { (n % 256) as char }

  /** binary.LittleEndian.PutUint32(uint32(n)): the length modulo 2^32. */
  function PutUint32(n: nat): (s: string)
    ensures |s| == 4
  {
    [Low(n), Low(n / 0x100), Low(n / 0x1_0000), Low(n / 0x100_0000)]
  }

  function Uint32(s: string): nat
    requires |s| == 4
  {
    s[0] as nat + 0x100 * s[1] as nat + 0x1_0000 * s[2] as nat + 0x100_0000 * s[3] as nat
  }

  lemma Uint32Back(n: nat)
    requires n < 0x1_0000_0000
    ensures Uint32(PutUint32(n)) == n
    ensures PutUint32(n)[0] as nat == n % 0x100 && PutUint32(n)[3] as nat == n / 0x100_0000
  {
    var a := n / 0x100;
    var b := a / 0x100;
    assert n / 0x1_0000 == b && n / 0x100_0000 == b / 0x100;
  }

  function Frame(tag: char, payload: string): string {
    [tag] + PutUint32(|payload|) + payload
  }

  function FdFrames(fds: seq<string>): string {
    if fds == [] then "" else FdFrames(fds[..|fds| - 1]) + Frame('F', fds[|fds| - 1])
  }

  function OpFrames(op: Op): string {
    match op
    case DidRead(bytes, fds) => (if bytes == "" then "" else Frame('R', bytes)) + FdFrames(fds)
    case DidWrite(bytes) => Frame('W', bytes)
  }

  function Frames(ops: seq<Op>): string {
    if ops == [] then "" else Frames(ops[..|ops| - 1]) + OpFrames(ops[|ops| - 1])
  }

  /** What the live connection's reader was given. */
  function Given(ops: seq<Op>): seq<Item> {
    if ops == [] then []
    else
      var op := ops[|ops| - 1];
      Given(ops[..|ops| - 1]) + if op.DidRead? then Bytes(op.bytes) + Fds(op.fds) else []
  }

  /** The whole file. */
  function File(ops: seq<Op>): string {
    Magic() + Frames(ops)
  }

  lemma FileGrows(ops: seq<Op>, op: Op)
    ensures File(ops + [op]) == File(ops) + OpFrames(op)
  {
    hide Magic, OpFrames;
    assert (ops + [op])[..|ops|] == ops;
    Assoc(Magic(), Frames(ops), OpFrames(op));
  }

  /** A recorder tees everything into its file, in order. */
  class Recorder {
    var file: string
    ghost var ops: seq<Op>

    ghost predicate Valid()
      reads this
    {
      file == File(ops)
    }

    constructor ()
      ensures Valid() && ops == []
    {
      file := Magic();
      ops := [];
      new;
      assert Magic() + "" == Magic();
    }

    method Write(tag: char, payload: string)
      modifies this`file
      ensures file == old(file) + Frame(tag, payload)
    {
      file := file + ([tag] + PutUint32(|payload|));
      file := file + payload;
      Assoc(old(file), [tag] + PutUint32(|payload|), payload);
    }

    method WriteFds(fds: seq<string>)
      modifies this`file
      ensures file == old(file) + FdFrames(fds)
    {
      hide Frame;
      for k := 0 to |fds|
        invariant file == old(file) + FdFrames(fds[..k])
      {
        assert fds[..k + 1][..k] == fds[..k];
        Assoc(old(file), FdFrames(fds[..k]), Frame('F', fds[k]));
        Write('F', fds[k]);
      }
      assert fds[..|fds|] == fds;
    }

    /** A read of the inner connection: its bytes, if any, then its descriptors. */
    method Read(bytes: string, fds: seq<string>)
      requires Valid()
      modifies this
      ensures Valid() && ops == old(ops) + [DidRead(bytes, fds)]
    {
      hide Frame, File, FdFrames;
      if bytes != "" {
        Write('R', bytes);
      }
      WriteFds(fds);
      Assoc(old(file), if bytes == "" then "" else Frame('R', bytes), FdFrames(fds));
      assert old(file) + "" == old(file);
      FileGrows(ops, DidRead(bytes, fds));
      ops := ops + [DidRead(bytes, fds)];
    }

    method WriteThrough(bytes: string)
      requires Valid()
      modifies this
      ensures Valid() && ops == old(ops) + [DidWrite(bytes)]
    {
      hide Frame, File;
      Write('W', bytes);
      FileGrows(ops, DidWrite(bytes));
      ops := ops + [DidWrite(bytes)];
    }
  }

  // Replay

  /** The next record of a file, or how the file ends. */
  datatype Record = Whole(tag: char, payload: string, rest: string) | End | Cut

  /** io.ReadFull of the header, then of the payload: at a header, any end is EOF; in a
      payload, only an end before its first byte is. */
  function NextRecord(s: string): Record {
    if |s| < 5 then End
    else
      var n := Uint32(s[1..5]);
      if |s| < 5 + n then (if |s| == 5 then End else Cut)
      else Whole(s[0], s[5..5 + n], s[5 + n..])
  }

  /** Everything a file has to give a reader. */
  function Items(s: string): seq<Item>
    decreases |s|
  {
    match NextRecord(s)
    case End => []
    case Cut => [Failed(UnexpectedEOF)]
    case Whole(tag, payload, rest) => RecordItems(tag, payload) + Items(rest)
  }

  function RecordItems(tag: char, payload: string): seq<Item> {
    if tag == 'R' then Bytes(payload)
    else if tag == 'F' then [Fd(payload)]
    else if tag == 'W' then []
    else [Failed(UnknownType(tag))]
  }

  /** What a Read returns. */
  datatype Outcome = Data(bytes: string) | EOF | Error(why: Failure)

  function Shown(r: Outcome): seq<Item> {
    match r
    case Data(bytes) => Bytes(bytes)
    case EOF => []
    case Error(why) => [Failed(why)]
  }

  class Replayer {
    var file: string         // what is left of the file
    var rem: string          // what is left of the current read record
    var fds: seq<string>     // the connection's descriptor queue

    /** Everything still to come. */
    ghost function Left(): seq<Item>
      reads this
    {
      Bytes(rem) + Items(file)
    }

    /** Replay opens nothing but a recording. */
    static method Open(content: string) returns (r: Option<Replayer>)
      ensures r.Some? <==> Magic() <= content
      ensures r.Some? <==> "INDIREC1\n" <= content
      ensures r.Some? ==> fresh(r.value) && r.value.fds == [] && r.value.Left() == Items(content[|Magic()|..])
    {
      if !(Magic() <= content) {
        return None;
      }
      var c := new Replayer(content[|Magic()|..]);
      assert Bytes("") + Items(c.file) == Items(c.file);
      return Some(c);
    }

    constructor (file: string)
      ensures this.file == file && rem == "" && fds == []
    {
      this.file := file;
      rem, fds := "", [];
    }

    /** Give the reader at least a byte, queueing the descriptors that come before it. A
        descriptor is queued after all earlier bytes were read and before any later one. */
    method Read(max: nat) returns (r: Outcome)
      requires max > 0
      modifies this
      ensures old(fds) <= fds
      ensures old(Left()) == Fds(fds[|old(fds)|..]) + Shown(r) + Left()
      ensures r.Data? ==> 0 < |r.bytes| <= max
      ensures r.EOF? ==> Left() == []
      ensures old(rem) != "" ==> fds == old(fds)
    {
      hide Left, Shown;
      ghost var had := |fds|;
      assert fds[had..] == [] && [] + Left() == Left();
      while true
        invariant old(fds) <= fds && had == |old(fds)|
        invariant old(Left()) == Fds(fds[had..]) + Left()
        invariant old(rem) != "" ==> rem == old(rem) && fds == old(fds)
        decreases |file|
      {
        ghost var queued, was := fds[had..], Left();
        if rem != "" {
          r := Copy(max);
          Regroup(Fds(queued), was, Shown(r), Left());
          return;
        }
        ghost var kept := fds;
        var stop := Advance();
        if stop.Some? {
          r := stop.value;
          Regroup(Fds(queued), was, Shown(r), Left());
          return;
        }
        assert fds[had..] == queued + fds[|kept|..];
        assert Fds(fds[had..]) == Fds(queued) + Fds(fds[|kept|..]);
        Regroup(Fds(queued), was, Fds(fds[|kept|..]), Left());
      }
    }

    /** Part of the current read record. */
    method Copy(max: nat) returns (r: Outcome)
      requires max > 0 && rem != ""
      modifies this`rem
      ensures old(Left()) == Shown(r) + Left()
      ensures r.Data? && 0 < |r.bytes| <= max
    {
      hide Items;
      var n := if max < |rem| then max else |rem|;
      r := Data(rem[..n]);
      assert Bytes(rem) == Bytes(rem[..n]) + Bytes(rem[n..]);
      rem := rem[n..];
    }

    /** Take the next record; stop at the end of the file or at a record of no known type. */
    method Advance() returns (stop: Option<Outcome>)
      requires rem == ""
      modifies this
      ensures old(fds) <= fds
      ensures stop.Some? ==> fds == old(fds) && !stop.value.Data? && old(Left()) == Shown(stop.value) + Left()
      ensures stop.Some? && stop.value.EOF? ==> Left() == []
      ensures stop.None? ==> |file| < |old(file)| && old(Left()) == Fds(fds[|old(fds)|..]) + Left()
    {
      hide Items, Uint32;
      AtRecord();
      if |file| < 5 {
        file := "";
        NothingLeft();
        return Some(EOF);
      }
      var n := Uint32(file[1..5]);
      if |file| < 5 + n {
        stop := Some(if |file| == 5 then EOF else Error(UnexpectedEOF));
        file := "";
        NothingLeft();
        return;
      }
      var tag, payload := file[0], file[5..5 + n];
      file := file[5 + n..];
      stop := None;
      if tag == 'R' {
        rem := payload;
      } else if tag == 'F' {
        fds := fds + [payload];
      } else if tag != 'W' {
        stop := Some(Error(UnknownType(tag)));
      }
    }

    /** Between records, what is left is the next record's items and those after it. */
    lemma AtRecord()
      requires rem == ""
      ensures Left() == match NextRecord(file)
                        case End => []
                        case Cut => [Failed(UnexpectedEOF)]
                        case Whole(tag, payload, rest) => RecordItems(tag, payload) + Items(rest)
    {
      assert Left() == Items(file);
    }

    lemma NothingLeft()
      requires rem == "" && file == ""
      ensures Left() == []
    {
    }

    static lemma Regroup(before: seq<Item>, was: seq<Item>, out: seq<Item>, left: seq<Item>)
      requires was == out + left
      ensures before + was == before + out + left
    {
    }
  }

  // Round trip

  /** Payloads short enough for the 32-bit length. */
  predicate Short(op: Op) {
    && |op.bytes| < 0x1_0000_0000
    && (op.DidRead? ==> forall k :: 0 <= k < |op.fds| ==> |op.fds[k]| < 0x1_0000_0000)
  }

  predicate AllShort(ops: seq<Op>) {
    forall k :: 0 <= k < |ops| ==> Short(ops[k])
  }

  lemma FrameItems(tag: char, payload: string, rest: string)
    requires |payload| < 0x1_0000_0000
    ensures Items(Frame(tag, payload) + rest) == RecordItems(tag, payload) + Items(rest)
  {
    hide Uint32, PutUint32;
    Uint32Back(|payload|);
    var s := Frame(tag, payload) + rest;
    assert s[1..5] == PutUint32(|payload|);
    assert s[5..5 + |payload|] == payload;
    assert s[5 + |payload|..] == rest;
  }

  lemma {:induction false} FdItems(fds: seq<string>, rest: string)
    requires forall k :: 0 <= k < |fds| ==> |fds[k]| < 0x1_0000_0000
    ensures Items(FdFrames(fds) + rest) == Fds(fds) + Items(rest)
    decreases |fds|
  {
    hide Items, Frame;
    if fds == [] {
      assert "" + rest == rest && Fds([]) + Items(rest) == Items(rest);
    } else {
      var k := |fds| - 1;
      var last := Frame('F', fds[k]);
      assert FdFrames(fds) + rest == FdFrames(fds[..k]) + (last + rest);
      FdItems(fds[..k], last + rest);
      FrameItems('F', fds[k], rest);
      assert Fds(fds) == Fds(fds[..k]) + [Fd(fds[k])];
    }
  }

  function OpGiven(op: Op): seq<Item> {
    if op.DidRead? then Bytes(op.bytes) + Fds(op.fds) else []
  }

  lemma OpItems(op: Op, rest: string)
    requires Short(op)
    ensures Items(OpFrames(op) + rest) == OpGiven(op) + Items(rest)
  {
    hide Items, Frame;
    match op
    case DidWrite(bytes) =>
      FrameItems('W', bytes, rest);
    case DidRead(bytes, fds) =>
      FdItems(fds, rest);
      var tail := FdFrames(fds) + rest;
      if bytes == "" {
        assert OpFrames(op) + rest == tail;
        assert OpGiven(op) == Fds(fds);
      } else {
        assert OpFrames(op) + rest == Frame('R', bytes) + tail;
        FrameItems('R', bytes, tail);
        assert OpGiven(op) + Items(rest) == Bytes(bytes) + (Fds(fds) + Items(rest));
      }
  }

  lemma {:induction false} FramesItems(ops: seq<Op>, rest: string)
    requires AllShort(ops)
    ensures Items(Frames(ops) + rest) == Given(ops) + Items(rest)
    decreases |ops|
  {
    hide Items, OpFrames, Short;
    if ops == [] {
      assert "" + rest == rest;
    } else {
      var k := |ops| - 1;
      assert Frames(ops) + rest == Frames(ops[..k]) + (OpFrames(ops[k]) + rest);
      FramesItems(ops[..k], OpFrames(ops[k]) + rest);
      OpItems(ops[k], rest);
      assert Given(ops) == Given(ops[..k]) + OpGiven(ops[k]);
    }
  }

  lemma NoItems()
    ensures Items("") == []
  {
  }

  /** A recording gives a replay exactly what the live connection gave its reader: the
      bytes, and between them the descriptors, in order. */
  lemma ReplaysAll(ops: seq<Op>)
    requires AllShort(ops)
    ensures Magic() <= File(ops) && Items(File(ops)[|Magic()|..]) == Given(ops)
  {
    hide Magic, Items;
    var file := File(ops);
    assert file[|Magic()|..] == Frames(ops) + "";
    FramesItems(ops, "");
    assert Given(ops) + Items("") == Given(ops) by { NoItems(); }
  }

  /** A recording that stops inside a frame gives what the frames before it give, and then
      ends, or fails if the frame's header is whole and its payload has begun. */
  lemma CutItems(ops: seq<Op>, tag: char, payload: string, k: nat)
    requires AllShort(ops) && |payload| < 0x1_0000_0000 && k < |Frame(tag, payload)|
    ensures Items(Frames(ops) + Frame(tag, payload)[..k])
         == Given(ops) + if k <= 5 then [] else [Failed(UnexpectedEOF)]
  {
    hide Uint32, PutUint32, Items;
    var cut := Frame(tag, payload)[..k];
    FramesItems(ops, cut);
    CutFrame(tag, payload, k);
  }

  /** A frame of no known type fails where it stands, and the ones after it still replay. */
  lemma UnknownItems(ops: seq<Op>, tag: char, payload: string, rest: string)
    requires AllShort(ops) && |payload| < 0x1_0000_0000 && tag !in {'R', 'F', 'W'}
    ensures Items(Frames(ops) + (Frame(tag, payload) + rest)) == Given(ops) + ([Failed(UnknownType(tag))] + Items(rest))
  {
    hide Items, Frames, Frame;
    FramesItems(ops, Frame(tag, payload) + rest);
    FrameItems(tag, payload, rest);
  }

  lemma CutFrame(tag: char, payload: string, k: nat)
    requires |payload| < 0x1_0000_0000 && k < |Frame(tag, payload)|
    ensures Items(Frame(tag, payload)[..k]) == if k <= 5 then [] else [Failed(UnexpectedEOF)]
  {
    hide Uint32, PutUint32;
    Uint32Back(|payload|);
    var cut := Frame(tag, payload)[..k];
    if k >= 5 {
      assert cut[1..5] == PutUint32(|payload|);
    }
  }

  // What has been queued by then

  function NumBytes(trace: seq<Item>): nat {
    if trace == [] then 0 else NumBytes(trace[..|trace| - 1]) + if trace[|trace| - 1].Byte? then 1 else 0
  }

  /** The descriptors in a trace, in order: a reader that has it has these in its queue. */
  function FdsIn(trace: seq<Item>): seq<string> {
    if trace == [] then []
    else
      var last := trace[|trace| - 1];
      FdsIn(trace[..|trace| - 1]) + if last.Fd? then [last.content] else []
  }

  lemma {:induction false} InTwo(a: seq<Item>, b: seq<Item>)
    ensures NumBytes(a + b) == NumBytes(a) + NumBytes(b) && FdsIn(a + b) == FdsIn(a) + FdsIn(b)
    decreases |b|
  {
    if b == [] {
      assert a + b == a;
    } else {
      var n := |b| - 1;
      assert (a + b)[..|a + b| - 1] == a + b[..n];
      InTwo(a, b[..n]);
    }
  }

  lemma {:induction false} InBytes(bytes: string)
    ensures NumBytes(Bytes(bytes)) == |bytes| && FdsIn(Bytes(bytes)) == []
  {
    if bytes == "" {
    } else {
      var n := |bytes| - 1;
      assert Bytes(bytes)[..n] == Bytes(bytes[..n]);
      InBytes(bytes[..n]);
    }
  }

  lemma {:induction false} InFds(fds: seq<string>)
    ensures NumBytes(Fds(fds)) == 0 && FdsIn(Fds(fds)) == fds
  {
    if fds == [] {
    } else {
      var n := |fds| - 1;
      assert Fds(fds)[..n] == Fds(fds[..n]);
      InFds(fds[..n]);
    }
  }

  /** However it is read, a replay delivers the recorded bytes and descriptors in order;
      short of the end, the last thing delivered is a byte; and what is queued is what has
      been delivered. */
  method ReadAll(ops: seq<Op>, sizes: seq<nat>) returns (trace: seq<Item>, queued: seq<string>, ended: bool)
    requires AllShort(ops) && forall k :: 0 <= k < |sizes| ==> sizes[k] > 0
    ensures trace <= Given(ops) && queued == FdsIn(trace)
    ensures ended ==> trace == Given(ops)
    ensures !ended && sizes != [] ==> EndsInByte(trace)
    ensures AllOnes(sizes) ==> if ended then NumBytes(trace) < |sizes| else NumBytes(trace) == |sizes|
  {
    hide File, Magic, Given, Items, Shown, FdsIn, NumBytes;
    ReplaysAll(ops);
    var found := Replayer.Open(File(ops));
    var c := found.value;
    trace, ended := [], false;
    NothingIn();
    for k := 0 to |sizes|
      invariant Given(ops) == trace + c.Left() && c.fds == FdsIn(trace)
      invariant ended ==> c.Left() == []
      invariant !ended && k > 0 ==> EndsInByte(trace)
      invariant AllOnes(sizes) ==> if ended then NumBytes(trace) < k else NumBytes(trace) == k
    {
      ghost var had, was := c.fds, c.Left();
      var before := |c.fds|;
      var r := c.Read(sizes[k]);
      var more := Fds(c.fds[before..]) + Shown(r);
      Replayer.Regroup(trace, was, more, c.Left());
      OneRead(trace, had, c.fds, r, ops, c.Left());
      if ended {
        NoneLeft(Fds(c.fds[before..]), r, c.Left());
      }
      trace := trace + more;
      ended := r.EOF?;
    }
    queued := c.fds;
  }

  predicate AllOnes(sizes: seq<nat>) {
    forall k :: 0 <= k < |sizes| ==> sizes[k] == 1
  }

  predicate EndsInByte(trace: seq<Item>) {
    trace != [] && trace[|trace| - 1].Byte?
  }

  lemma NoneLeft(queued: seq<Item>, r: Outcome, left: seq<Item>)
    requires queued + Shown(r) + left == [] && (r.Data? ==> r.bytes != "")
    ensures r.EOF?
  {
    assert |Shown(r)| == 0;
  }

  lemma NothingIn()
    ensures FdsIn([]) == [] && NumBytes([]) == 0
  {
  }

  /** A read of a recording never fails; it queues, and then ends in a byte or the end. */
  lemma OneRead(trace: seq<Item>, had: seq<string>, fds: seq<string>, r: Outcome, ops: seq<Op>, left: seq<Item>)
    requires FdsIn(trace) == had && had <= fds && (r.Data? ==> r.bytes != "")
    requires trace + (Fds(fds[|had|..]) + Shown(r)) + left == Given(ops)
    ensures !r.Error?
    ensures var all := trace + (Fds(fds[|had|..]) + Shown(r));
            && FdsIn(all) == fds && (r.EOF? || EndsInByte(all))
            && NumBytes(all) == NumBytes(trace) + (if r.Data? then |r.bytes| else 0)
  {
    var more, shown := Fds(fds[|had|..]), Shown(r);
    InTwo(trace, more + shown);
    InTwo(more, shown);
    InFds(fds[|had|..]);
    match r
    case Data(bytes) =>
      InBytes(bytes);
    case EOF =>
      NothingIn();
    case Error(why) =>
      assert Given(ops)[|trace| + |more|] == Failed(why);
      NeverFails(ops);
      assert false;
  }

  lemma {:induction false} NeverFails(ops: seq<Op>)
    ensures forall i :: 0 <= i < |Given(ops)| ==> !Given(ops)[i].Failed?
  {
    if ops == [] {
    } else {
      NeverFails(ops[..|ops| - 1]);
    }
  }

  /** What the live reader has been given once the k-th operation is done. */
  function GivenUpTo(ops: seq<Op>, k: nat): seq<Item>
    requires k < |ops|
  {
    Given(ops[..k + 1])
  }

  /** A reader that has just been given the last of the bytes of the first k + 1 operations. */
  predicate JustRead(ops: seq<Op>, k: nat, trace: seq<Item>)
    requires k < |ops|
  {
    trace <= Given(ops) && EndsInByte(trace) && NumBytes(trace) == NumBytes(GivenUpTo(ops, k))
  }

  lemma {:induction false} GivenPrefix(ops: seq<Op>, k: nat)
    requires k <= |ops|
    ensures Given(ops[..k]) <= Given(ops)
    decreases |ops|
  {
    if k == |ops| {
      assert ops[..k] == ops;
    } else {
      var n := |ops| - 1;
      GivenPrefix(ops[..n], k);
      assert ops[..n][..k] == ops[..k];
    }
  }

  /** Prefixes that end in a byte are as long as they have bytes. */
  lemma ByBytes(a: seq<Item>, b: seq<Item>, all: seq<Item>)
    requires a <= all && b <= all && EndsInByte(a) && EndsInByte(b) && NumBytes(a) == NumBytes(b)
    ensures a == b
  {
    if |a| < |b| {
      Fewer(a, b);
      assert false;
    }
    if |b| < |a| {
      Fewer(b, a);
      assert false;
    }
  }

  lemma Fewer(a: seq<Item>, b: seq<Item>)
    requires a < b && EndsInByte(b)
    ensures NumBytes(a) < NumBytes(b)
  {
    var rest := b[|a|..|b| - 1];
    assert b[..|b| - 1] == a + rest;
    InTwo(a, rest);
  }

  /** When a replay has just returned the last byte of a recorded read, its queue is the one
      from before that read: the live queue, if and only if the read carried no descriptors. */
  lemma QueuesAgreeIff(ops: seq<Op>, k: nat, trace: seq<Item>)
    requires k < |ops| && ops[k].DidRead? && ops[k].bytes != "" && JustRead(ops, k, trace)
    ensures FdsIn(trace) == FdsIn(Given(ops[..k]))
    ensures FdsIn(GivenUpTo(ops, k)) == FdsIn(trace) + ops[k].fds
    ensures FdsIn(trace) == FdsIn(GivenUpTo(ops, k)) <==> ops[k].fds == []
  {
    hide FdsIn, NumBytes, Given;
    var before, b, fds := Given(ops[..k]), Bytes(ops[k].bytes), Fds(ops[k].fds);
    GivenSplits(ops, k);
    GivenPrefix(ops, k + 1);
    InTwo(before + b, fds);
    InTwo(before, b);
    InBytes(ops[k].bytes);
    InFds(ops[k].fds);
    assert before + b <= Given(ops);
    assert EndsInByte(before + b);
    ByBytes(trace, before + b, Given(ops));
  }

  lemma GivenSplits(ops: seq<Op>, k: nat)
    requires k < |ops| && ops[k].DidRead?
    ensures GivenUpTo(ops, k) == Given(ops[..k]) + Bytes(ops[k].bytes) + Fds(ops[k].fds)
  {
    assert ops[..k + 1][..k] == ops[..k];
  }

  /** Read a recording byte by byte through the bytes of one of its reads: the queue has the
      descriptors of the reads before it, and none of its own. */
  method ReadThrough(ops: seq<Op>, k: nat) returns (queued: seq<string>)
    requires AllShort(ops) && k < |ops| && ops[k].DidRead? && ops[k].bytes != ""
    ensures queued == FdsIn(Given(ops[..k]))
    ensures queued == FdsIn(GivenUpTo(ops, k)) <==> ops[k].fds == []
  {
    hide FdsIn, NumBytes, Given;
    var n := NumBytes(GivenUpTo(ops, k));
    Reached(ops, k);
    GivenPrefix(ops, k + 1);
    InTwo(GivenUpTo(ops, k), Given(ops)[|GivenUpTo(ops, k)|..]);
    assert Given(ops) == GivenUpTo(ops, k) + Given(ops)[|GivenUpTo(ops, k)|..];
    SomeBytes(Given(ops[..k]) + Bytes(ops[k].bytes));
    var trace, ended;
    trace, queued, ended := ReadAll(ops, seq(n, _ => 1));
    QueuesAgreeIff(ops, k, trace);
  }

  lemma SomeBytes(trace: seq<Item>)
    requires EndsInByte(trace)
    ensures NumBytes(trace) > 0
  {
  }

  /** Whenever a replay has returned the last byte of a read, its queue is the live one. */
  ghost predicate InStep(ops: seq<Op>) {
    forall k: nat, trace ::
      k < |ops| && ops[k].DidRead? && ops[k].bytes != "" && JustRead(ops, k, trace) ==>
        FdsIn(trace) == FdsIn(GivenUpTo(ops, k))
  }

  /** A recording replays in step if and only if no read in it carried both bytes and
      descriptors. */
  lemma InStepIff(ops: seq<Op>)
    ensures InStep(ops) <==> forall k :: 0 <= k < |ops| && ops[k].DidRead? ==> ops[k].bytes == "" || ops[k].fds == []
  {
    hide FdsIn, NumBytes, Given, JustRead;
    forall k: nat, trace | k < |ops| && ops[k].DidRead? && ops[k].bytes != "" && JustRead(ops, k, trace)
      ensures FdsIn(trace) == FdsIn(GivenUpTo(ops, k)) <==> ops[k].fds == []
    {
      QueuesAgreeIff(ops, k, trace);
    }
    forall k: nat | k < |ops| && ops[k].DidRead? && ops[k].bytes != ""
      ensures JustRead(ops, k, Given(ops[..k]) + Bytes(ops[k].bytes))
    {
      Reached(ops, k);
    }
  }

  lemma Reached(ops: seq<Op>, k: nat)
    requires k < |ops| && ops[k].DidRead? && ops[k].bytes != ""
    ensures JustRead(ops, k, Given(ops[..k]) + Bytes(ops[k].bytes))
  {
    hide FdsIn, NumBytes, Given;
    GivenSplits(ops, k);
    GivenPrefix(ops, k + 1);
    InTwo(Given(ops[..k]) + Bytes(ops[k].bytes), Fds(ops[k].fds));
    InFds(ops[k].fds);
  }

  /** Where a replay differs: the live connection queued a read's descriptors before it
      returned the bytes, a replay queues none of them with those bytes, however many are
      asked for. */
  method FirstRead(bytes: string, fds: seq<string>, max: nat) returns (out: Outcome, queued: seq<string>)
    requires bytes != "" && Short(DidRead(bytes, fds)) && max > 0
    ensures out.Data? && 0 < |out.bytes| <= max && out.bytes <= bytes && queued == []
  {
    hide File, Magic, Items;
    var ops := [DidRead(bytes, fds)];
    ReplaysAll(ops);
    var found := Replayer.Open(File(ops));
    var c := found.value;
    ghost var left := c.Left();
    assert ops[..0] == [] && left == Bytes(bytes) + Fds(fds);
    out := c.Read(max);
    queued := c.fds;
    BytesFirst(bytes, fds, queued, out, c.Left());
  }

  lemma BytesFirst(bytes: string, fds: seq<string>, queued: seq<string>, out: Outcome, left: seq<Item>)
    requires bytes != "" && Bytes(bytes) + Fds(fds) == Fds(queued) + Shown(out) + left
    requires (out.Data? ==> out.bytes != "") && (out.EOF? ==> left == [])
    ensures out.Data? && out.bytes <= bytes && queued == []
  {
    var all := Bytes(bytes) + Fds(fds);
    assert (Fds(queued) + Shown(out) + left)[0] == all[0] == Byte(bytes[0]);
    assert queued == [];
    assert all == Shown(out) + left;
    assert out.Data?;
    forall k | 0 <= k < |out.bytes|
      ensures all[k] == Byte(out.bytes[k])
    {
      assert Shown(out)[k] == Byte(out.bytes[k]);
    }
    assert |bytes| < |all| ==> all[|bytes|].Fd?;
    forall k | 0 <= k < |out.bytes|
      ensures k < |bytes| && out.bytes[k] == bytes[k]
    {
      assert all[k] == Byte(out.bytes[k]);
    }
    assert out.bytes == bytes[..|out.bytes|];
  }

  /** One read of one byte and its descriptor: the whole byte is returned, the descriptor
      is not there. */
  method LateDescriptor() returns (out: Outcome, queued: seq<string>)
    ensures Given([DidRead("a", ["image"])]) == [Byte('a'), Fd("image")]
    ensures out == Data("a") && queued == []
  {
    var op := DidRead("a", ["image"]);
    assert [op][..0] == [] && OpGiven(op) == [Byte('a'), Fd("image")];
    out, queued := FirstRead("a", ["image"], 1);
    assert out.bytes == "a";
  }
}
