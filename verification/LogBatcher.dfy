/** The container-log batcher (container_log_batcher.go): producers, a bounded
    queue, one writer with row, byte and time triggers, close and drain, and the
    row-by-row fallback. Every interleaving of their atomic steps is a history. */
module LogBatcher {
  datatype Line = Line(id: int, size: nat)

  // The writer: waiting in select, about to flush, storing a failed batch row
  // by row, or gone. `last` marks the flush after which it leaves. A panic in a
  // store call takes it away with lines in hand, and closes done all the same.
  datatype Writer = NotStarted | Select | Flush(last: bool) | Rows(rest: seq<Line>, last: bool) | Done

  datatype Config = Config(maxRows: nat, maxBytes: nat, capacity: nat)

  // Producers are interchangeable, so the lines they hold stand for them.
  datatype State = State(closed: bool, queue: seq<Line>,
                         open: multiset<Line>,      // producers under the read lock that saw closed == false
                         shut: multiset<Line>,      // producers under the read lock that saw closed == true
                         loose: multiset<Line>,     // producers past the lock, with a line to store on their own
                         writer: Writer, batch: seq<Line>, size: nat,
                         added: seq<Line>,          // every line handed to Add
                         accepted: seq<Line>,       // lines the queue took, in order
                         written: seq<Line>,        // lines the writer stored, in order
                         direct: seq<Line>,         // lines producers stored on their own
                         extra: seq<Line>,          // lines a flush stored before it reported failure
                         batches: seq<seq<Line>>,   // what each flush was given
                         sentClosed: bool,          // a send on the closed channel
                         died: bool)                // the writer panicked; `batch` is what it had in hand

  datatype Act =
    | Enter(line: Line)          // RLock, read closed
    | Send(line: Line)           // the select of a producer that saw the batcher open
    | Leave(line: Line)          // a producer that saw it closed unlocks
    | StoreDirect(line: Line)
    | Close
    | Start
    | Receive
    | Tick
    | FlushBatch(ok: bool, landed: bool)   // landed: the insert took effect, which a failed one may have
    | StoreRow
    | Die(landed: bool)          // a store call panics, with or without its effect

  predicate Init(s: State) {
    && !s.closed && s.queue == [] && s.open == multiset{} && s.shut == multiset{} && s.loose == multiset{}
    && s.writer == NotStarted && s.batch == [] && s.size == 0
    && s.added == [] && s.accepted == [] && s.written == [] && s.direct == [] && s.extra == [] && s.batches == []
    && !s.sentClosed && !s.died
  }

  predicate Enabled(s: State, a: Act) {
    match a
    case Enter(_) => true
    case Send(line) => line in s.open
    case Leave(line) => line in s.shut
    case StoreDirect(line) => line in s.loose
    // the write lock waits for every reader
    case Close => s.open == multiset{} && s.shut == multiset{}
    case Start => s.writer.NotStarted?
    case Receive => s.writer.Select? && (s.queue != [] || s.closed)
    case Tick => s.writer.Select?
    case FlushBatch(_, _) => s.writer.Flush?
    case StoreRow => s.writer.Rows?
    case Die(_) => s.writer.Flush? || (s.writer.Rows? && s.writer.rest != [])
  }

  function ApplySend(c: Config, s: State, line: Line): State {
    var left := s.(open := s.open - multiset{line});
    if s.closed then s.(sentClosed := true)
    else if |s.queue| < c.capacity then left.(queue := s.queue + [line], accepted := s.accepted + [line])
    else left.(loose := s.loose + multiset{line})
  }

  function ApplyReceive(c: Config, s: State): State {
    if s.queue == [] then
      s.(writer := if s.batch == [] then Done else Flush(true))
    else
      var batch, size := s.batch + [s.queue[0]], s.size + s.queue[0].size;
      s.(queue := s.queue[1..], batch := batch, size := size,
         writer := if |batch| >= c.maxRows || size >= c.maxBytes then Flush(false) else Select)
  }

  function AfterWrite(s: State, last: bool): State {
    s.(batch := [], size := 0, writer := if last then Done else Select)
  }

  function ApplyFlush(s: State, ok: bool, landed: bool): State
    requires s.writer.Flush?
  {
    var logged := s.(batches := s.batches + [s.batch]);
    if ok then AfterWrite(logged.(written := s.written + s.batch), s.writer.last)
    else logged.(writer := Rows(s.batch, s.writer.last), extra := if landed then s.extra + s.batch else s.extra)
  }

  function ApplyRow(s: State): State
    requires s.writer.Rows?
  {
    if s.writer.rest == [] then AfterWrite(s, s.writer.last)
    else s.(written := s.written + [s.writer.rest[0]], writer := Rows(s.writer.rest[1..], s.writer.last))
  }

  function Dead(s: State, written: seq<Line>, inHand: seq<Line>): State {
    s.(written := written, batch := inHand, size := Bytes(inHand), writer := Done, died := true)
  }

  function ApplyDie(s: State, landed: bool): State
    requires s.writer.Flush? || (s.writer.Rows? && s.writer.rest != [])
  {
    match s.writer
    case Flush(_) =>
      Dead(s.(batches := s.batches + [s.batch]), if landed then s.written + s.batch else s.written,
           if landed then [] else s.batch)
    case Rows(rest, _) =>
      Dead(s, if landed then s.written + [rest[0]] else s.written, if landed then rest[1..] else rest)
  }

  function Apply(c: Config, s: State, a: Act): State
    requires Enabled(s, a)
  {
    match a
    case Enter(line) =>
      if s.closed then s.(shut := s.shut + multiset{line}, added := s.added + [line])
      else s.(open := s.open + multiset{line}, added := s.added + [line])
    case Send(line) => ApplySend(c, s, line)
    case Leave(line) => s.(shut := s.shut - multiset{line}, loose := s.loose + multiset{line})
    case StoreDirect(line) => s.(direct := s.direct + [line], loose := s.loose - multiset{line})
    case Close => s.(closed := true)
    case Start => s.(writer := Select)
    case Receive => ApplyReceive(c, s)
    case Tick => if s.batch == [] then s else s.(writer := Flush(false))
    case FlushBatch(ok, landed) => ApplyFlush(s, ok, landed)
    case StoreRow => ApplyRow(s)
    case Die(landed) => ApplyDie(s, landed)
  }

  // ── Bookkeeping ────────────────────────────────────────────────────────────

  function Bytes(lines: seq<Line>): nat {
    if lines == [] then 0 else Bytes(lines[..|lines| - 1]) + lines[|lines| - 1].size
  }

  // What the writer holds: the batch, or what is left of it to store row by row.
  function InHand(s: State): seq<Line> {
    if s.writer.Rows? then s.writer.rest else s.batch
  }

  // The lines producers are still holding.
  function Held(s: State): multiset<Line> {
    s.open + s.shut + s.loose
  }

  // ── The invariant ──────────────────────────────────────────────────────────

  // Every copy of a line added is accepted by the queue, stored directly, or in
  // a producer's hand.
  ghost predicate Conserved(s: State, x: Line) {
    multiset(s.added)[x] == multiset(s.accepted)[x] + multiset(s.direct)[x] + s.open[x] + s.shut[x] + s.loose[x]
  }

  // The queue path is first in, first out, and loses nothing.
  ghost predicate Fifo(s: State) {
    s.accepted == s.written + InHand(s) + s.queue
  }

  // A flush never has more than maxRows lines and has not reached maxBytes
  // before its last line.
  predicate BatchFits(c: Config, batch: seq<Line>) {
    batch != [] && |batch| <= c.maxRows && Bytes(batch[..|batch| - 1]) < c.maxBytes
  }

  ghost predicate WriterSound(c: Config, s: State) {
    && s.size == Bytes(s.batch)
    && (s.writer.NotStarted? ==> s.batch == [])
    && (s.writer.Select? ==> |s.batch| < c.maxRows && s.size < c.maxBytes)
    && (s.writer.Flush? ==> BatchFits(c, s.batch))
    && (s.writer.Rows? ==> s.batch != [] && |s.writer.rest| <= |s.batch|)
    && (forall i :: 0 <= i < |s.batches| ==> BatchFits(c, s.batches[i]))
  }

  // Unless it dies, the writer leaves only once the channel is closed and drained.
  ghost predicate Drained(s: State) {
    && (s.writer.Done? && !s.died ==> s.closed && s.queue == [] && s.batch == [])
    && (s.died ==> s.writer.Done?)
    && ((s.writer.Flush? || s.writer.Rows?) && s.writer.last ==> s.closed && s.queue == [])
  }

  // A reader of `closed` excludes the closer, so what it saw still holds.
  ghost predicate LockSound(s: State) {
    !s.sentClosed && (s.closed ==> s.open == multiset{}) && (!s.closed ==> s.shut == multiset{})
  }

  ghost predicate Inv(c: Config, s: State) {
    Fifo(s) && WriterSound(c, s) && Drained(s) && LockSound(s) && |s.queue| <= c.capacity
  }

  lemma EnterConserves(c: Config, s: State, line: Line, x: Line)
    requires Conserved(s, x)
    ensures Conserved(Apply(c, s, Enter(line)), x)
  {
  }

  lemma QueueingConserves(c: Config, s: State, line: Line, x: Line)
    requires Conserved(s, x) && line in s.open && !s.closed && |s.queue| < c.capacity
    ensures Conserved(ApplySend(c, s, line), x)
  {
  }

  lemma RefusalConserves(c: Config, s: State, line: Line, x: Line)
    requires Conserved(s, x) && line in s.open && (s.closed || |s.queue| >= c.capacity)
    ensures Conserved(ApplySend(c, s, line), x)
  {
  }

  lemma LeaveConserves(c: Config, s: State, line: Line, x: Line)
    requires Conserved(s, x) && line in s.shut
    ensures Conserved(Apply(c, s, Leave(line)), x)
  {
  }

  lemma DirectConserves(c: Config, s: State, line: Line, x: Line)
    requires Conserved(s, x) && line in s.loose
    ensures Conserved(Apply(c, s, StoreDirect(line)), x)
  {
  }

  // The closer and the writer touch no line a producer holds.
  predicate SameProducers(s: State, s': State) {
    && s'.added == s.added && s'.accepted == s.accepted && s'.direct == s.direct
    && s'.open == s.open && s'.shut == s.shut && s'.loose == s.loose
  }

  lemma FlushLeavesProducers(s: State, ok: bool, landed: bool)
    requires s.writer.Flush?
    ensures SameProducers(s, ApplyFlush(s, ok, landed))
  {
  }

  lemma RowLeavesProducers(s: State)
    requires s.writer.Rows?
    ensures SameProducers(s, ApplyRow(s))
  {
  }

  lemma DieLeavesProducers(s: State, landed: bool)
    requires Enabled(s, Die(landed))
    ensures SameProducers(s, ApplyDie(s, landed))
  {
    hide Bytes;
  }

  lemma OthersLeaveProducers(c: Config, s: State, a: Act)
    requires Enabled(s, a) && !a.Enter? && !a.Send? && !a.Leave? && !a.StoreDirect?
    ensures SameProducers(s, Apply(c, s, a))
  {
    hide Bytes, ApplyFlush, ApplyRow, ApplyDie;
    match a
    case FlushBatch(ok, landed) => FlushLeavesProducers(s, ok, landed);
    case StoreRow => RowLeavesProducers(s);
    case Die(landed) => DieLeavesProducers(s, landed);
    case _ =>
  }

  lemma ConservedKept(c: Config, s: State, a: Act, x: Line)
    requires Enabled(s, a) && Conserved(s, x)
    ensures Conserved(Apply(c, s, a), x)
  {
    match a
    case Enter(line) => EnterConserves(c, s, line, x);
    case Send(line) =>
      if s.closed || |s.queue| >= c.capacity {
        RefusalConserves(c, s, line, x);
      } else {
        QueueingConserves(c, s, line, x);
      }
    case Leave(line) => LeaveConserves(c, s, line, x);
    case StoreDirect(line) => DirectConserves(c, s, line, x);
    case _ => OthersLeaveProducers(c, s, a);
  }

  lemma LockKept(c: Config, s: State, a: Act)
    requires Enabled(s, a) && LockSound(s)
    ensures LockSound(Apply(c, s, a))
  {
  }

  lemma SendIsFifo(c: Config, s: State, line: Line)
    requires Fifo(s)
    ensures Fifo(ApplySend(c, s, line))
  {
    assert s.written + InHand(s) + s.queue + [line] == s.written + InHand(s) + (s.queue + [line]);
  }

  lemma ReceiveIsFifo(c: Config, s: State)
    requires Fifo(s) && s.writer.Select?
    ensures Fifo(ApplyReceive(c, s))
  {
    if s.queue != [] {
      assert s.written + s.batch + s.queue == s.written + (s.batch + [s.queue[0]]) + s.queue[1..];
    }
  }

  lemma WriteIsFifo(s: State, ok: bool, landed: bool)
    requires Fifo(s)
    ensures s.writer.Flush? ==> Fifo(ApplyFlush(s, ok, landed))
    ensures s.writer.Rows? ==> Fifo(ApplyRow(s))
    ensures s.writer.Flush? || (s.writer.Rows? && s.writer.rest != []) ==> Fifo(ApplyDie(s, ok))
  {
    if s.writer.Flush? && ok {
      assert s.written + s.batch + [] == s.written + s.batch;
    }
    if s.writer.Rows? && s.writer.rest != [] {
      assert s.written + [s.writer.rest[0]] + s.writer.rest[1..] == s.written + s.writer.rest;
    }
  }

  lemma FifoKept(c: Config, s: State, a: Act)
    requires Enabled(s, a) && Fifo(s)
    ensures Fifo(Apply(c, s, a))
  {
    match a
    case Send(line) => SendIsFifo(c, s, line);
    case Receive => ReceiveIsFifo(c, s);
    case FlushBatch(ok, landed) => WriteIsFifo(s, ok, landed);
    case StoreRow => WriteIsFifo(s, true, true);
    case Die(landed) => WriteIsFifo(s, landed, landed);
    case _ =>
  }

  lemma BytesSnoc(lines: seq<Line>, line: Line)
    ensures Bytes(lines + [line]) == Bytes(lines) + line.size
    ensures (lines + [line])[..|lines|] == lines
  {
    assert (lines + [line])[..|lines|] == lines;
  }

  // A batch still collecting would fit as it is.
  lemma CollectingFits(c: Config, batch: seq<Line>)
    requires batch != [] && |batch| < c.maxRows && Bytes(batch) < c.maxBytes
    ensures BatchFits(c, batch)
  {
    BytesSnoc(batch[..|batch| - 1], batch[|batch| - 1]);
  }

  // One more line, and the batch still fits.
  lemma TakenFits(c: Config, batch: seq<Line>, line: Line)
    requires |batch| < c.maxRows && Bytes(batch) < c.maxBytes
    ensures BatchFits(c, batch + [line]) && Bytes(batch + [line]) == Bytes(batch) + line.size
  {
    BytesSnoc(batch, line);
  }

  lemma ReceiveKeepsWriter(c: Config, s: State)
    requires c.maxRows >= 1 && c.maxBytes >= 1 && Enabled(s, Receive) && WriterSound(c, s)
    ensures WriterSound(c, ApplyReceive(c, s))
  {
    if s.queue != [] {
      TakenFits(c, s.batch, s.queue[0]);
    } else if s.batch != [] {
      CollectingFits(c, s.batch);
    }
    hide Bytes, BatchFits;
  }

  lemma TickKeepsWriter(c: Config, s: State)
    requires Enabled(s, Tick) && WriterSound(c, s)
    ensures WriterSound(c, Apply(c, s, Tick))
  {
    if s.batch != [] {
      CollectingFits(c, s.batch);
    }
    hide Bytes;
  }

  lemma FlushKeepsWriter(c: Config, s: State, ok: bool, landed: bool)
    requires c.maxRows >= 1 && c.maxBytes >= 1 && s.writer.Flush? && WriterSound(c, s)
    ensures WriterSound(c, ApplyFlush(s, ok, landed))
  {
    assert Bytes([]) == 0;
    assert s.batch != [];
    hide Bytes, BatchFits;
  }

  lemma RowKeepsWriter(c: Config, s: State)
    requires c.maxRows >= 1 && c.maxBytes >= 1 && s.writer.Rows? && WriterSound(c, s)
    ensures WriterSound(c, ApplyRow(s))
  {
    assert Bytes([]) == 0;
    hide Bytes, BatchFits;
  }

  lemma DieKeepsWriter(c: Config, s: State, landed: bool)
    requires Enabled(s, Die(landed)) && WriterSound(c, s)
    ensures WriterSound(c, ApplyDie(s, landed))
  {
    hide Bytes, BatchFits;
  }

  lemma OthersKeepWriter(c: Config, s: State, a: Act)
    requires c.maxRows >= 1 && c.maxBytes >= 1 && Enabled(s, a) && WriterSound(c, s) && !ByWriter(a) && !a.Tick?
    ensures WriterSound(c, Apply(c, s, a))
  {
    hide Bytes, BatchFits;
  }

  lemma WriterKept(c: Config, s: State, a: Act)
    requires c.maxRows >= 1 && c.maxBytes >= 1 && Enabled(s, a) && WriterSound(c, s)
    ensures WriterSound(c, Apply(c, s, a))
  {
    match a
    case Start => assert Bytes([]) == 0;
    case Receive => ReceiveKeepsWriter(c, s);
    case Tick => TickKeepsWriter(c, s);
    case FlushBatch(ok, landed) => FlushKeepsWriter(c, s, ok, landed);
    case StoreRow => RowKeepsWriter(c, s);
    case Die(landed) => DieKeepsWriter(c, s, landed);
    case _ => OthersKeepWriter(c, s, a);
  }

  lemma DrainedKept(c: Config, s: State, a: Act)
    requires Enabled(s, a) && Drained(s) && LockSound(s)
    ensures Drained(Apply(c, s, a))
  {
  }

  lemma CapacityKept(c: Config, s: State, a: Act)
    requires Enabled(s, a) && |s.queue| <= c.capacity
    ensures |Apply(c, s, a).queue| <= c.capacity
  {
    hide Bytes;
  }

  lemma StepKeepsInv(c: Config, s: State, a: Act)
    requires c.maxRows >= 1 && c.maxBytes >= 1 && Enabled(s, a) && Inv(c, s)
    ensures Inv(c, Apply(c, s, a))
  {
    CapacityKept(c, s, a);
    hide Apply, Enabled;
    LockKept(c, s, a);
    FifoKept(c, s, a);
    WriterKept(c, s, a);
    DrainedKept(c, s, a);
  }

  // ── Histories ──────────────────────────────────────────────────────────────

  ghost predicate History(c: Config, tr: seq<State>, acts: seq<Act>) {
    && c.maxRows >= 1 && c.maxBytes >= 1
    && |tr| == |acts| + 1 && Init(tr[0])
    && forall i :: 0 <= i < |acts| ==> Enabled(tr[i], acts[i]) && tr[i + 1] == Apply(c, tr[i], acts[i])
  }

  lemma {:induction false} InvHolds(c: Config, tr: seq<State>, acts: seq<Act>, n: nat)
    requires History(c, tr, acts) && n < |tr|
    ensures Inv(c, tr[n])
  {
    if n > 0 {
      InvHolds(c, tr, acts, n - 1);
      StepKeepsInv(c, tr[n - 1], acts[n - 1]);
    }
  }

  lemma {:induction false} ConservedHolds(c: Config, tr: seq<State>, acts: seq<Act>, n: nat, x: Line)
    requires History(c, tr, acts) && n < |tr|
    ensures Conserved(tr[n], x)
  {
    if n > 0 {
      ConservedHolds(c, tr, acts, n - 1, x);
      ConservedKept(c, tr[n - 1], acts[n - 1], x);
    }
  }

  lemma AllConserved(c: Config, tr: seq<State>, acts: seq<Act>, n: nat)
    requires History(c, tr, acts) && n < |tr|
    ensures multiset(tr[n].added) == multiset(tr[n].accepted) + multiset(tr[n].direct) + Held(tr[n])
  {
    var s := tr[n];
    var all := multiset(s.accepted) + multiset(s.direct) + Held(s);
    forall x
      ensures multiset(s.added)[x] == all[x]
    {
      ConservedHolds(c, tr, acts, n, x);
    }
  }

  /** No line is lost, in any interleaving: what was added is
      what was written, plus what is in the writer's hand, in the queue, stored
      directly, or still held by a producer; and the queue path keeps order. */
  lemma NothingIsLost(c: Config, tr: seq<State>, acts: seq<Act>, n: nat)
    requires History(c, tr, acts) && n < |tr|
    ensures var s := tr[n];
            && multiset(s.added)
               == multiset(s.written) + multiset(InHand(s)) + multiset(s.queue) + multiset(s.direct) + Held(s)
            && s.written <= s.accepted && !s.sentClosed && |s.queue| <= c.capacity
            && forall i :: 0 <= i < |s.batches| ==> BatchFits(c, s.batches[i])
  {
    InvHolds(c, tr, acts, n);
    AllConserved(c, tr, acts, n);
    var s := tr[n];
    assert s.accepted == s.written + (InHand(s) + s.queue);
  }

  /** What the flag of the closed channel stands for: it goes up exactly at a send
      after the close. */
  lemma SentClosedMeans(c: Config, s: State, a: Act)
    requires Enabled(s, a)
    ensures Apply(c, s, a).sentClosed <==> s.sentClosed || (a.Send? && s.closed)
  {
    hide Bytes;
  }

  // The life of a batcher that is given one line.
  function OneLine(line: Line): seq<Act> {
    [Start, Enter(line), Send(line), Receive, Close, Receive, FlushBatch(true, true)]
  }

  function Fresh(): State {
    State(false, [], multiset{}, multiset{}, multiset{}, NotStarted, [], 0, [], [], [], [], [], [], false, false)
  }

  /** The way through: a line added to a new batcher is in the store once that has
      been closed and drained. */
  lemma OneLineIsStored(c: Config, line: Line) returns (tr: seq<State>)
    requires c.maxRows >= 2 && line.size < c.maxBytes && c.capacity >= 1
    ensures History(c, tr, OneLine(line)) && tr[7].writer.Done? && tr[7].closed && tr[7].written == [line]
    ensures !tr[7].died
  {
    var s1 := Fresh().(writer := Select);
    var s2 := s1.(open := multiset{line}, added := [line]);
    var s3 := s1.(added := [line], queue := [line], accepted := [line]);
    var s4 := InBatch(line);
    var s5 := s4.(closed := true);
    var s6 := s5.(writer := Flush(true));
    var s7 := s5.(writer := Done, batch := [], size := 0, written := [line], batches := [[line]]);
    OneLineQueued(c, line);
    OneLineTaken(c, line);
    OneLineFlushed(c, line);
    hide Apply, Fresh, InBatch, Init;
    tr := [Fresh(), s1, s2, s3, s4, s5, s6, s7];
  }

  function InBatch(line: Line): State {
    Fresh().(writer := Select, added := [line], accepted := [line], batch := [line], size := line.size)
  }

  lemma OneLineTaken(c: Config, line: Line)
    requires c.maxRows >= 2 && line.size < c.maxBytes
    ensures var queued := Fresh().(writer := Select, added := [line], queue := [line], accepted := [line]);
            Apply(c, queued, Receive) == InBatch(line)
  {
  }

  lemma OneLineFlushed(c: Config, line: Line)
    ensures var s5 := InBatch(line).(closed := true);
            var s6 := s5.(writer := Flush(true));
            && Apply(c, InBatch(line), Close) == s5 && Apply(c, s5, Receive) == s6
            && Apply(c, s6, FlushBatch(true, true))
               == s5.(writer := Done, batch := [], size := 0, written := [line], batches := [[line]])
  {
  }

  lemma OneLineQueued(c: Config, line: Line)
    requires c.capacity >= 1
    ensures var s1 := Fresh().(writer := Select);
            var s2 := s1.(open := multiset{line}, added := [line]);
            && Init(Fresh()) && Apply(c, Fresh(), Start) == s1 && Apply(c, s1, Enter(line)) == s2
            && Apply(c, s2, Send(line)) == s1.(added := [line], queue := [line], accepted := [line])
  {
    assert multiset{line} - multiset{line} == multiset{};
    assert multiset{} + multiset{line} == multiset{line};
  }

  // ── When the writer writes ─────────────────────────────────────────────────

  /** Taking a line starts a flush exactly when the batch then has maxRows lines or
      maxBytes bytes; with nothing left to take, exactly when there is a batch. */
  lemma ReceiveFlushesIff(c: Config, s: State)
    requires WriterSound(c, s) && Enabled(s, Receive)
    ensures s.queue != [] ==>
              (Apply(c, s, Receive).writer == Flush(false) <==>
                 |s.batch| + 1 >= c.maxRows || Bytes(s.batch) + s.queue[0].size >= c.maxBytes)
    ensures s.queue == [] ==> Apply(c, s, Receive).writer == if s.batch == [] then Done else Flush(true)
  {
  }

  // What was in hand at a tick is waiting, being stored, or stored.
  ghost predicate OnItsWay(s: State, written: seq<Line>, batch: seq<Line>) {
    match s.writer
    case Flush(last) => !last && s.written == written && s.batch == batch
    case Rows(rest, last) => !last && s.written + rest == written + batch
    case Select => written + batch <= s.written
    case _ => s.died
  }

  lemma RowOnItsWay(s: State, written: seq<Line>, batch: seq<Line>)
    requires s.writer.Rows? && OnItsWay(s, written, batch)
    ensures OnItsWay(ApplyRow(s), written, batch)
  {
    if s.writer.rest != [] {
      var rest := s.writer.rest;
      assert s.written + rest == s.written + [rest[0]] + rest[1..];
    }
  }

  lemma FlushOnItsWay(s: State, ok: bool, landed: bool, written: seq<Line>, batch: seq<Line>)
    requires s.writer.Flush? && OnItsWay(s, written, batch)
    ensures OnItsWay(ApplyFlush(s, ok, landed), written, batch)
  {
  }

  lemma DieOnItsWay(s: State, landed: bool, written: seq<Line>, batch: seq<Line>)
    requires Enabled(s, Die(landed))
    ensures OnItsWay(ApplyDie(s, landed), written, batch)
  {
    hide Bytes;
  }

  lemma OthersLeaveWriter(c: Config, s: State, a: Act)
    requires Enabled(s, a) && !a.Start? && !a.Receive? && !a.Tick? && !a.FlushBatch? && !a.StoreRow? && !a.Die?
    ensures var s' := Apply(c, s, a);
            s'.writer == s.writer && s'.written == s.written && s'.batch == s.batch && s'.died == s.died
  {
  }

  lemma OtherOnItsWay(c: Config, s: State, a: Act, written: seq<Line>, batch: seq<Line>)
    requires Enabled(s, a) && OnItsWay(s, written, batch) && !s.writer.Select? && (s.died ==> s.writer.Done?)
    requires !a.FlushBatch? && !a.StoreRow? && !a.Die?
    ensures OnItsWay(Apply(c, s, a), written, batch)
  {
    hide Apply;
    OthersLeaveWriter(c, s, a);
  }

  lemma OnItsWayKept(c: Config, s: State, a: Act, written: seq<Line>, batch: seq<Line>)
    requires Enabled(s, a) && OnItsWay(s, written, batch) && !s.writer.Select? && (s.died ==> s.writer.Done?)
    ensures OnItsWay(Apply(c, s, a), written, batch)
  {
    hide ApplyFlush, ApplyRow, ApplyDie, ApplyReceive, ApplySend, OnItsWay;
    match a
    case FlushBatch(ok, landed) => FlushOnItsWay(s, ok, landed, written, batch);
    case StoreRow => RowOnItsWay(s, written, batch);
    case Die(landed) => DieOnItsWay(s, landed, written, batch);
    case _ => OtherOnItsWay(c, s, a, written, batch);
  }

  /** A tick writes what is in hand: the lines are stored before the writer takes
      another one, unless it dies on the way. */
  lemma {:induction false} TickWrites(c: Config, tr: seq<State>, acts: seq<Act>, k: nat, m: nat)
    requires History(c, tr, acts) && k < m < |tr| && acts[k].Tick? && tr[k].batch != []
    requires forall i :: k < i < m ==> !tr[i].writer.Select?
    ensures OnItsWay(tr[m], tr[k].written, tr[k].batch)
    ensures tr[m].writer.Select? ==> tr[k].written + tr[k].batch <= tr[m].written
  {
    hide Apply, Enabled, Inv, Init;
    if m == k + 1 {
      TickFlushes(c, tr[k]);
    } else {
      TickWrites(c, tr, acts, k, m - 1);
      InvHolds(c, tr, acts, m - 1);
      if tr[m - 1].died {
        DeadIsDone(c, tr[m - 1]);
      }
      OnItsWayKept(c, tr[m - 1], acts[m - 1], tr[k].written, tr[k].batch);
    }
  }

  lemma TickFlushes(c: Config, s: State)
    requires Enabled(s, Tick) && s.batch != []
    ensures Apply(c, s, Tick) == s.(writer := Flush(false))
  {
  }

  // A batch insert that takes effect and still reports failure.
  predicate LandsTwice(a: Act) {
    a.FlushBatch? && !a.ok && a.landed
  }

  lemma ExtraAfter(c: Config, s: State, a: Act)
    requires Enabled(s, a) && WriterSound(c, s)
    ensures Apply(c, s, a).extra == if LandsTwice(a) then s.extra + s.batch else s.extra
    ensures LandsTwice(a) ==> s.batch != []
  {
    hide Bytes, ApplyReceive, ApplyRow;
    ReceiveLeavesExtra(c, s);
    if s.writer.Rows? {
      RowLeavesExtra(s);
    }
  }

  lemma ReceiveLeavesExtra(c: Config, s: State)
    ensures ApplyReceive(c, s).extra == s.extra
  {
  }

  lemma RowLeavesExtra(s: State)
    requires s.writer.Rows?
    ensures ApplyRow(s).extra == s.extra
  {
  }

  /** Lines are stored a second time exactly if some batch insert took effect and
      still reported failure. */
  lemma {:induction false} StoredTwiceIff(c: Config, tr: seq<State>, acts: seq<Act>, n: nat)
    requires History(c, tr, acts) && n < |tr|
    ensures tr[n].extra == [] <==> forall i :: 0 <= i < n ==> !LandsTwice(acts[i])
  {
    hide Apply, Enabled, LandsTwice, Fifo, WriterSound, Drained, LockSound;
    if n > 0 {
      StoredTwiceIff(c, tr, acts, n - 1);
      InvHolds(c, tr, acts, n - 1);
      ExtraAfter(c, tr[n - 1], acts[n - 1]);
    }
  }

  /** Once done closes without the writer having died, and no producer is inside
      Add, everything added is stored: the queue's lines in the order it took
      them, the rest directly. It stays so, whatever is added later. */
  lemma DoneMeansStored(c: Config, tr: seq<State>, acts: seq<Act>, n: nat)
    requires History(c, tr, acts) && n < |tr| && tr[n].writer.Done? && !tr[n].died
    ensures tr[n].closed && tr[n].queue == [] && tr[n].batch == [] && tr[n].written == tr[n].accepted
    ensures Held(tr[n]) == multiset{} ==> multiset(tr[n].added) == multiset(tr[n].written) + multiset(tr[n].direct)
    ensures n < |acts| ==> tr[n + 1].writer.Done? && !tr[n + 1].died && tr[n + 1].accepted == tr[n].accepted
  {
    InvHolds(c, tr, acts, n);
    AllConserved(c, tr, acts, n);
  }

  /** A writer that died in a store call loses exactly what it had in hand and
      what the queue holds then or takes later: the lines accepted and not written. */
  lemma DeathLosesInHand(c: Config, tr: seq<State>, acts: seq<Act>, n: nat, m: nat)
    requires History(c, tr, acts) && n <= m < |tr| && tr[n].died
    ensures tr[m].died && tr[m].writer.Done? && tr[m].written == tr[n].written && tr[m].batch == tr[n].batch
    ensures tr[m].accepted == tr[m].written + tr[m].batch + tr[m].queue && tr[n].queue <= tr[m].queue
  {
    InvHolds(c, tr, acts, m);
    DeadStays(c, tr, acts, n, m);
  }

  lemma {:induction false} DeadStays(c: Config, tr: seq<State>, acts: seq<Act>, n: nat, m: nat)
    requires History(c, tr, acts) && n <= m < |tr| && tr[n].died
    ensures tr[m].died && tr[m].written == tr[n].written && tr[m].batch == tr[n].batch && tr[n].queue <= tr[m].queue
  {
    hide Apply, Enabled, Init, Inv;
    if n < m {
      DeadStays(c, tr, acts, n, m - 1);
      InvHolds(c, tr, acts, m - 1);
      DeadIsDone(c, tr[m - 1]);
      DeadStep(c, tr[m - 1], acts[m - 1]);
    }
  }

  lemma DeadIsDone(c: Config, s: State)
    requires Inv(c, s) && s.died
    ensures s.writer.Done?
  {
  }

  lemma DeadStep(c: Config, s: State, a: Act)
    requires Enabled(s, a) && s.died && s.writer.Done?
    ensures var s' := Apply(c, s, a); s'.died && s'.written == s.written && s'.batch == s.batch && s.queue <= s'.queue
  {
  }

  // How far the writer is from leaving once the channel is closed.
  ghost function Remaining(s: State): nat {
    match s.writer
    case NotStarted => 10 * |s.queue| + 6
    case Select => 10 * |s.queue| + 4 * |s.batch| + 5
    case Flush(_) => 10 * |s.queue| + 4 * |s.batch| + 4
    case Rows(rest, _) => 10 * |s.queue| + |rest| + |s.batch| + 5
    case Done => 0
  }

  predicate ByWriter(a: Act) {
    a.Start? || a.Receive? || a.FlushBatch? || a.StoreRow? || a.Die?
  }

  lemma ReceiveCounts(c: Config, s: State)
    requires Enabled(s, Receive)
    ensures Remaining(ApplyReceive(c, s)) < Remaining(s)
  {
  }

  lemma StoringCounts(c: Config, s: State, a: Act)
    requires WriterSound(c, s) && Enabled(s, a) && (a.FlushBatch? || a.StoreRow?)
    ensures Remaining(Apply(c, s, a)) < Remaining(s)
  {
    hide Bytes;
  }

  lemma WriterStepsCount(c: Config, s: State, a: Act)
    requires WriterSound(c, s) && Enabled(s, a) && ByWriter(a)
    ensures Remaining(Apply(c, s, a)) < Remaining(s)
  {
    hide Bytes, BatchFits;
    match a
    case Receive => ReceiveCounts(c, s);
    case FlushBatch(_, _) => StoringCounts(c, s, a);
    case StoreRow => StoringCounts(c, s, a);
    case _ =>
  }

  lemma OtherStepsDoNot(c: Config, s: State, a: Act)
    requires LockSound(s) && s.closed && Enabled(s, a) && !ByWriter(a)
    ensures Remaining(Apply(c, s, a)) <= Remaining(s)
  {
  }

  /** Close drains: after it, the writer's own steps use up a finite measure
      however producers and ticks interleave, and until it is done one of them
      is always possible. */
  lemma DrainMakesProgress(c: Config, s: State, a: Act)
    requires Inv(c, s) && s.closed && Enabled(s, a)
    ensures Apply(c, s, a).closed && Remaining(Apply(c, s, a)) <= Remaining(s)
    ensures ByWriter(a) ==> Remaining(Apply(c, s, a)) < Remaining(s)
    ensures !s.writer.Done? ==> exists b :: ByWriter(b) && Enabled(s, b)
    ensures Remaining(s) == 0 <==> s.writer.Done?
  {
    if ByWriter(a) {
      WriterStepsCount(c, s, a);
    } else {
      OtherStepsDoNot(c, s, a);
    }
    match s.writer
    case NotStarted => assert Enabled(s, Start);
    case Select => assert Enabled(s, Receive);
    case Flush(_) => assert Enabled(s, FlushBatch(true, true));
    case Rows(_, _) => assert Enabled(s, StoreRow);
    case Done =>
  }

  // ── Add, with no one else about ────────────────────────────────────────────

  // The steps of one producer with a line, from the lock to the end of Add.
  function Added(c: Config, s: State, line: Line): State
    requires s.shut == multiset{}
  {
    var entered := Apply(c, s, Enter(line));
    if s.closed then Apply(c, Apply(c, entered, Leave(line)), StoreDirect(line))
    else if |s.queue| < c.capacity then Apply(c, entered, Send(line))
    else
      var refused := Apply(c, entered, Send(line));
      assert line in refused.loose;
      Apply(c, refused, StoreDirect(line))
  }

  /** Add run to its end leaves no producer behind, sends nothing on a closed
      channel, and puts the line once into the queue, if that is open and has
      room, or else into the store. */
  lemma AddPlacesOnce(c: Config, s: State, line: Line)
    requires s.shut == multiset{} && s.open == multiset{} && s.loose == multiset{}
    ensures Added(c, s, line) ==
            if !s.closed && |s.queue| < c.capacity
            then s.(added := s.added + [line], queue := s.queue + [line], accepted := s.accepted + [line])
            else s.(added := s.added + [line], direct := s.direct + [line])
  {
    assert multiset{line} - multiset{line} == multiset{};
    assert multiset{} + multiset{line} == multiset{line};
  }

  // ── The batcher as an object, one goroutine at a time ──────────────────────

  class Batcher {
    const config: Config
    var closed: bool
    var queue: seq<Line>
    var batch: seq<Line>
    var size: nat
    var done: bool
    var stored: seq<Line>     // rows the writer stored, batched or one by one
    var singles: seq<Line>    // rows Add stored itself

    ghost predicate Valid()
      reads this
    {
      && config.maxRows >= 1 && config.maxBytes >= 1 && |queue| <= config.capacity
      && size == Bytes(batch) && |batch| < config.maxRows && size < config.maxBytes
      && (done ==> closed && queue == [] && batch == [])
    }

    // The batcher between calls, as a state of the machine.
    ghost function View(): State
      reads this
    {
      State(closed, queue, multiset{}, multiset{}, multiset{}, if done then Done else Select, batch, size,
            [], [], stored, singles, [], [], false, false)
    }

    constructor (config: Config)
      requires config.maxRows >= 1 && config.maxBytes >= 1
      ensures Valid() && !closed && !done && queue == [] && batch == [] && stored == [] && singles == []
      ensures this.config == config
    {
      this.config := config;
      closed, done, queue, batch, size, stored, singles := false, false, [], [], 0, [], [];
    }

    method Add(line: Line)
      requires Valid()
      modifies this`queue, this`singles
      ensures Valid()
      ensures var s := Added(config, old(View()), line); queue == s.queue && singles == s.direct
    {
      if !closed && |queue| < config.capacity {
        queue := queue + [line];
      } else {
        singles := singles + [line];
      }
    }

    method Close()
      requires Valid()
      modifies this`closed
      ensures Valid() && closed
    {
      closed := true;
    }

    // A failed batch insert falls back to row by row: either way every line lands.
    method Write(flushOk: bool)
      modifies this`batch, this`size, this`stored
      ensures batch == [] && size == 0 && stored == old(stored) + old(batch)
    {
      if flushOk {
        stored := stored + batch;
      } else {
        var i := 0;
        while i < |batch|
          invariant i <= |batch| && batch == old(batch) && stored == old(stored) + batch[..i]
        {
          stored := stored + [batch[i]];
          i := i + 1;
        }
        assert batch[..i] == batch;
      }
      batch, size := [], 0;
    }

    method Receive(flushOk: bool)
      requires Valid() && queue != []
      modifies this`queue, this`batch, this`size, this`stored
      ensures Valid() && queue == old(queue)[1..]
      ensures stored + batch == old(stored) + old(batch) + [old(queue)[0]]
      ensures batch == [] || stored == old(stored)
    {
      BytesSnoc(batch, queue[0]);
      batch, size := batch + [queue[0]], size + queue[0].size;
      queue := queue[1..];
      if |batch| >= config.maxRows || size >= config.maxBytes {
        Write(flushOk);
      }
    }

    /** The writer after Close: it stores the batch and the whole queue, in
        order, whichever batch inserts fail, and leaves nothing behind. */
    method Drain(flushOk: nat -> bool)
      requires Valid() && closed && !done
      modifies this`queue, this`batch, this`size, this`stored, this`done
      ensures Valid() && done && queue == [] && batch == []
      ensures stored == old(stored) + old(batch) + old(queue)
    {
      while queue != []
        invariant Valid() && closed && !done
        invariant stored + batch + queue == old(stored) + old(batch) + old(queue)
        decreases |queue|
      {
        ghost var before := stored + batch;
        ghost var was := queue;
        Receive(flushOk(|queue|));
        assert was == [was[0]] + queue;
        assert before + was == stored + batch + queue;
      }
      if batch != [] {
        Write(flushOk(0));
      }
      done := true;
    }
  }
}
