/** Which children a client hears: selection changes, publishers, replays and drops,
    interleaved at their locks. */
module Selection {
  type Child = nat
  type Conn = nat
  type Publisher = nat

  /** A message for a client, by the child it came from; answers to pings come from none. */
  datatype Origin = Own | From(child: Child)

  /** One client: whether it is registered and closed, and every message ever queued for it. */
  datatype Client = Client(registered: bool, closed: bool, got: seq<Origin>)

  /** A SetChildren that holds the write lock, before or after closing the clients. */
  datatype Writer = NoWriter | Assigned | Closed

  /** A publication in progress, holding the read lock: its child, and its copy of the
      connection list once taken. */
  datatype Publishing = Publishing(child: Child, targets: set<Conn>)

  datatype State = State(
    children: seq<Child>,
    writer: Writer,
    clients: map<Conn, Client>,
    publishing: map<Publisher, Publishing>,
    replays: map<Conn, seq<Child>>)   // each replay's copy of the children

  datatype Step =
    | Assign(children: seq<Child>)    // SetChildren with a changed list takes the write lock
    | CloseAll                        // ... closes every registered client
    | Release                         // ... and returns
    | Accept(conn: Conn)
    | StartReplay(conn: Conn)         // the copy of the children, under the read lock
    | ReplayOne(conn: Conn, child: Child)
    | EndReplay(conn: Conn)
    | Pong(conn: Conn)
    | StartPublish(pub: Publisher, child: Child)
    | CopyTargets(pub: Publisher)     // the registered clients, under the connection lock
    | PublishOne(pub: Publisher, conn: Conn)
    | EndPublish(pub: Publisher)
    | Unregister(conn: Conn)          // drop, first half
    | CloseConn(conn: Conn)           // drop, second half
    | Shutdown                        // Serve closes every registered client

  /** A client's goroutine runs only once it is registered; publishers keep the write
      lock away, and it keeps them away. */
  predicate Enabled(s: State, step: Step) {
    match step
    case Assign(children) => s.writer == NoWriter && s.publishing == map[] && children != s.children
    case CloseAll => s.writer == Assigned
    case Release => s.writer == Closed
    case Accept(c) => c !in s.clients
    case StartReplay(c) => c in s.clients && c !in s.replays && s.writer == NoWriter
    case ReplayOne(c, child) => c in s.clients && c in s.replays && child in s.replays[c]
    case EndReplay(c) => c in s.replays
    case Pong(c) => c in s.clients
    case StartPublish(p, child) => p !in s.publishing && s.writer == NoWriter && child in s.children
    case CopyTargets(p) => p in s.publishing
    case PublishOne(p, c) => p in s.publishing && c in s.publishing[p].targets && c in s.clients
    case EndPublish(p) => p in s.publishing
    case Unregister(c) => c in s.clients
    case CloseConn(c) => c in s.clients
    case Shutdown => true
  }

  function Queued(clients: map<Conn, Client>, c: Conn, from: Origin): map<Conn, Client>
    requires c in clients
  {
    clients[c := clients[c].(got := clients[c].got + [from])]
  }

  /** Only registered clients are closed. */
  function AllClosed(clients: map<Conn, Client>): map<Conn, Client> {
    map c | c in clients :: if clients[c].registered then clients[c].(closed := true) else clients[c]
  }

  function Next(s: State, step: Step): State
    requires Enabled(s, step)
  {
    match step
    case Assign(children) => s.(children := children, writer := Assigned)
    case CloseAll => s.(clients := AllClosed(s.clients), writer := Closed)
    case Release => s.(writer := NoWriter)
    case Accept(c) => s.(clients := s.clients[c := Client(true, false, [])])
    case StartReplay(c) => s.(replays := s.replays[c := s.children])
    case ReplayOne(c, child) => s.(clients := Queued(s.clients, c, From(child)))
    case EndReplay(c) => s.(replays := s.replays - {c})
    case Pong(c) => s.(clients := Queued(s.clients, c, Own))
    case StartPublish(p, child) => s.(publishing := s.publishing[p := Publishing(child, {})])
    case CopyTargets(p) =>
      var targets := set c | c in s.clients && s.clients[c].registered;
      s.(publishing := s.publishing[p := s.publishing[p].(targets := targets)])
    case PublishOne(p, c) => s.(clients := Queued(s.clients, c, From(s.publishing[p].child)))
    case EndPublish(p) => s.(publishing := s.publishing - {p})
    case Unregister(c) => s.(clients := s.clients[c := s.clients[c].(registered := false)])
    case CloseConn(c) => s.(clients := s.clients[c := s.clients[c].(closed := true)])
    case Shutdown => s.(clients := AllClosed(s.clients))
  }

  // Isolation

  predicate Live(c: Client) { c.registered && !c.closed }

  /** A client's messages all come from the selection, and so will those of its replay. */
  predicate Hears(s: State, c: Conn)
    requires c in s.clients
  {
    && (forall k :: 0 <= k < |s.clients[c].got| ==>
          s.clients[c].got[k].From? ==> s.clients[c].got[k].child in s.children)
    && (c in s.replays ==> forall child :: child in s.replays[c] ==> child in s.children)
  }

  /** Every live client hears selected children only, unless a selection change is still
      closing clients; then those it has not come to are about to be closed. */
  predicate Isolated(s: State) {
    s.writer != Assigned ==> forall c :: c in s.clients && Live(s.clients[c]) ==> Hears(s, c)
  }

  /** Publications are of selected children, and none overlaps a selection change. */
  predicate Locked(s: State) {
    && (s.writer != NoWriter ==> s.publishing == map[])
    && (forall p :: p in s.publishing ==> s.publishing[p].child in s.children)
    && (forall c :: c in s.replays ==> c in s.clients)
  }

  predicate Inv(s: State) {
    Isolated(s) && Locked(s)
  }

  lemma StepLocked(s: State, step: Step)
    requires Enabled(s, step) && Locked(s)
    ensures Locked(Next(s, step))
  {
  }

  /** One client through one step. */
  lemma StepHears(s: State, step: Step, c: Conn)
    requires Enabled(s, step) && Inv(s) && Next(s, step).writer != Assigned
    requires c in Next(s, step).clients && Live(Next(s, step).clients[c])
    ensures Hears(Next(s, step), c)
  {
    if c in s.clients && s.writer != Assigned {
      assert Live(s.clients[c]) && Hears(s, c);
    }
  }

  lemma StepKeeps(s: State, step: Step)
    requires Enabled(s, step) && Inv(s)
    ensures Inv(Next(s, step))
  {
    hide Next, Enabled, Hears, Locked;
    StepLocked(s, step);
    forall c | Next(s, step).writer != Assigned && c in Next(s, step).clients && Live(Next(s, step).clients[c])
      ensures Hears(Next(s, step), c)
    {
      StepHears(s, step, c);
    }
  }

  predicate IsRun(s: State, steps: seq<Step>)
    decreases |steps|
  {
    steps == [] || (Enabled(s, steps[0]) && IsRun(Next(s, steps[0]), steps[1..]))
  }

  function After(s: State, steps: seq<Step>): State
    requires IsRun(s, steps)
    decreases |steps|
  {
    if steps == [] then s else After(Next(s, steps[0]), steps[1..])
  }

  lemma {:induction false} RunKeeps(s: State, steps: seq<Step>)
    requires Inv(s) && IsRun(s, steps)
    ensures Inv(After(s, steps))
    decreases |steps|
  {
    hide Next, Enabled, Inv;
    if steps == [] {
    } else {
      StepKeeps(s, steps[0]);
      RunKeeps(Next(s, steps[0]), steps[1..]);
    }
  }

  function Start(children: seq<Child>): State {
    State(children, NoWriter, map[], map[], map[])
  }

  /** Whatever the interleaving, whenever no selection change is under way, a client that
      is registered and not closed was only ever sent messages of currently selected
      children. */
  lemma SelectionIsolated(children: seq<Child>, steps: seq<Step>, c: Conn, k: nat)
    requires IsRun(Start(children), steps)
    requires var s := After(Start(children), steps);
             && s.writer == NoWriter && c in s.clients && Live(s.clients[c])
             && k < |s.clients[c].got| && s.clients[c].got[k].From?
    ensures var s := After(Start(children), steps); s.clients[c].got[k].child in s.children
  {
    hide After, IsRun;
    RunKeeps(Start(children), steps);
    assert Hears(After(Start(children), steps), c);
  }

  /** Why the clients must be closed: without that, a replay already under way would bring
      in a deselected child. */
  lemma OldReplayOutlivesSelection()
    ensures var steps := [Accept(0), StartReplay(0), Assign([2]), CloseAll, Release, ReplayOne(0, 1)];
            && IsRun(Start([1]), steps)
            && var s := After(Start([1]), steps);
               s.clients[0].got == [From(1)] && s.children == [2] && s.clients[0].closed
  {
    var s0 := Start([1]);
    var s1 := Next(s0, Accept(0));
    var s2 := Next(s1, StartReplay(0));
    var s3 := Next(s2, Assign([2]));
    var s4 := Next(s3, CloseAll);
    var s5 := Next(s4, Release);
    var s6 := Next(s5, ReplayOne(0, 1));
    assert s6.clients[0].got == [From(1)];
    assert IsRun(s6, []);
    assert IsRun(s5, [ReplayOne(0, 1)]) && After(s5, [ReplayOne(0, 1)]) == s6;
    assert IsRun(s4, [Release, ReplayOne(0, 1)]) && After(s4, [Release, ReplayOne(0, 1)]) == s6;
    assert IsRun(s3, [CloseAll, Release, ReplayOne(0, 1)]) && After(s3, [CloseAll, Release, ReplayOne(0, 1)]) == s6;
    assert IsRun(s2, [Assign([2]), CloseAll, Release, ReplayOne(0, 1)]) &&
        After(s2, [Assign([2]), CloseAll, Release, ReplayOne(0, 1)]) == s6;
  }
}
