/**
 The ingestion core of the pure-Go SDK: offset assignment, the sender and receiver of one
 connection, the ack watermark, reconnection with replay, the callback dispatcher and the
 hand-back of unacknowledged records.

 Every goroutine is a sequence of atomic steps; a run is any interleaving of them.  When a
 worker stops, when a connection breaks and when the supervisor gives up are left to the
 environment, so timers, back-off and retry budgets can only choose among these runs.
 The server is part of the environment too: it may make any prefix of what was put on a
 connection durable, and it may send any number as an acknowledgment.
 */
module IngestCore {
  import opened Common

  type Payload = Bytes

  const MAX_INT64: int := 0x7FFF_FFFF_FFFF_FFFF

  /** One buffer entry: an encoded message and its logical offset. */
  datatype Item = Item(offset: int, payload: Payload)

  /**
   The records: what is queued, in flight or retained after a drain, the watermark, and as
   history what each assigned offset was given.
   */
  datatype Records = Records(
    queue: seq<Item>, flight: seq<Item>, retained: seq<Item>, wm: int, ingested: seq<Payload>)

  datatype Phase = Running | Settling | Leaving | Done

  /** The flags and counters of CoreStream and its buffer. */
  datatype Control = Control(
    next: int, exhausted: bool, lastEnqueued: int, closing: bool, bufClosed: bool,
    wmTerminal: bool, cancelled: bool, phase: Phase)

  // ---------------------------------------------------------------- one connection

  /** What the sender reports about the send of one message. */
  datatype SendEvent =
    | Started(logical: int, physical: int)
    | Completed(logical: int, physical: int, ok: bool)

  /** Where the sender is in its loop body. */
  datatype SenderPc =
    | Idle                         // about to call next
    | Got(it: Item)                // next returned, start not yet published
    | Sending(it: Item)            // start published, inside Send
    | Reported(it: Item, ok: bool) // completion published, waiting for the receiver

  /** The receiver's local variables. */
  datatype Receiver = Receiver(
    lastAcked: int, sendingPhysical: int, sendingLogical: int, pendingAck: int,
    sentBase: int, sentLogical: seq<int>)

  /**
   One transport stream.  `wire` is what Send was called with, in physical order; the server
   holds the first `durable` of these durably.  `base` is the logical offset sent first.
   */
  datatype Conn = Conn(
    pc: SenderPc, stopped: bool, physical: nat,
    events: seq<SendEvent>, consumed: nat,
    rx: Receiver, paused: bool, exited: bool,
    wire: seq<Item>, durable: nat, base: int)

  // ---------------------------------------------------------------- callbacks

  /** A queued callback range; `failed` selects OnError over OnAck. */
  datatype CallRange = CallRange(first: int, last: int, failed: bool)

  /** One invocation of the user's callback. */
  datatype Call = OnAck(offset: int) | OnError(offset: int)

  /** The dispatcher; `active` is the range its worker is invoking, `calls` the history of invocations. */
  datatype Dispatcher = Dispatcher(
    installed: bool, ranges: seq<CallRange>, active: Option<CallRange>, calls: seq<Call>, closed: bool)

  /** enqueueAcks: merges into an adjacent ack range at the tail. */
  function EnqueueAcks(d: Dispatcher, first: int, last: int): (r: Dispatcher)
  {
    var q := d.ranges;
    if !d.installed || first > last || d.closed then d
    else if |q| > 0 && !q[|q| - 1].failed && q[|q| - 1].last < MAX_INT64 && q[|q| - 1].last + 1 == first then
      d.(ranges := q[..|q| - 1] + [q[|q| - 1].(last := last)])
    else d.(ranges := q + [CallRange(first, last, false)])
  }

  /** enqueueErrors: one range, never merged. */
  function EnqueueErrors(d: Dispatcher, first: int, last: int): (r: Dispatcher)
  {
    if !d.installed || first > last || d.closed then d
    else d.(ranges := d.ranges + [CallRange(first, last, true)])
  }

  // ---------------------------------------------------------------- ack application

  /** How many leading in-flight entries discardThrough(offset) removes. */
  function AckedCount(flight: seq<Item>, offset: int): (n: nat)
    ensures n <= |flight|
    ensures forall i :: 0 <= i < n ==> flight[i].offset <= offset
    ensures n < |flight| ==> flight[n].offset > offset
  {
    if |flight| > 0 && flight[0].offset <= offset then 1 + AckedCount(flight[1..], offset) else 0
  }

  /** The effect of a logical ack: a protocol error, or offsets first..last discarded; `stops` is the pause that ends the connection once nothing is in flight. */
  datatype LogicalEffect = Rejected | Evicted(records: Records, first: int, last: int, stops: bool)

  /** The effect of an ack on records and receiver, or a protocol error. */
  datatype AckEffect = Refused | Applied(records: Records, rx: Receiver, first: int, last: int, stops: bool)

  /** applyLogicalAck */
  function ApplyLogicalAck(d: Records, offset: int, paused: bool): (r: LogicalEffect)
  {
    if offset <= d.wm then Evicted(d, 0, -1, false)
    else if |d.flight| == 0 || offset > d.flight[|d.flight| - 1].offset then Rejected
    else
      var n := AckedCount(d.flight, offset);
      var stops := paused && n == |d.flight|;
      if n == 0 then Evicted(d, 0, -1, stops)
      else
        var last := d.flight[n - 1].offset;
        Evicted(d.(flight := d.flight[n..], wm := if last > d.wm then last else d.wm), d.flight[0].offset, last, stops)
  }

  /** The receiver once `off` is the last physical offset acknowledged. */
  function Advanced(rx: Receiver, off: int): Receiver
    requires 0 <= off - rx.sentBase < |rx.sentLogical|
  {
    rx.(lastAcked := off, sentLogical := rx.sentLogical[off - rx.sentBase + 1..], sentBase := off + 1)
  }

  /** applyPhysicalAck: maps a connection-local offset to the logical offset sent under it; an ack that ends a pause returns before the receiver's own table is advanced */
  function ApplyPhysicalAck(d: Records, rx: Receiver, offset: int, paused: bool): (r: AckEffect)
  {
    var index := offset - rx.sentBase;
    if offset <= rx.lastAcked then Applied(d, rx, 0, -1, false)
    else if index < 0 || index >= |rx.sentLogical| then Refused
    else
      match ApplyLogicalAck(d, rx.sentLogical[index], paused)
      case Rejected => Refused
      case Evicted(d', first, last, stops) =>
        Applied(d', if stops then rx else Advanced(rx, offset), first, last, stops)
  }

  /** handleSendEvent up to the held ack: what the receiver's variables become. */
  function RecordEvent(rx: Receiver, e: SendEvent): (r: Receiver)
  {
    match e
    case Started(logical, physical) =>
      rx.(sendingPhysical := physical, sendingLogical := logical)
    case Completed(logical, physical, ok) =>
      rx.(sendingPhysical := -1, sendingLogical := -1, pendingAck := -1,
          sentLogical := if ok && physical == Recorded(rx) then rx.sentLogical + [logical] else rx.sentLogical)
  }

  /** One past the highest physical offset recorded as completed. */
  function Recorded(rx: Receiver): int
  {
    rx.sentBase + |rx.sentLogical|
  }

  /** handleSendEvent: an event that completes a send also applies the ack held for it. */
  function EventEffect(d: Records, rx: Receiver, e: SendEvent, paused: bool): (r: AckEffect)
  {
    if e.Completed? && e.ok && e.physical != Recorded(rx) then Refused
    else if e.Completed? && e.ok && rx.pendingAck >= 0 then ApplyPhysicalAck(d, RecordEvent(rx, e), rx.pendingAck, paused)
    else Applied(d, RecordEvent(rx, e), 0, -1, false)
  }

  // ---------------------------------------------------------------- the whole stream

  datatype State = State(
    records: Records, control: Control, conn: Option<Conn>, dispatcher: Dispatcher,
    stored: set<Item>)   // history: what the server has made durable, over all connections

  function Init(hasCallback: bool): (s: State)
  {
    State(Records([], [], [], -1, []),
          Control(0, false, -1, false, false, false, false, Running),
          None, Dispatcher(hasCallback, [], None, [], false), {})
  }

  datatype Action =
    | Admit(payload: Payload) | StartClose | CancelSupervisor | CloseBuffer | ReadUnacked
    | Open | Teardown | GiveUp | Settle | Leave | ShutdownDispatcher
    | TakeNext | Publish | SendReturns(ok: bool) | ConsumeTurn | StopSender
    | HandleEvent | ReceiveAck(off: int) | ReceivePause | ExitReceiver(clean: bool)
    | Persist
    | PopRange | Invoke

  /** enqueueEncoded's section under offsetMu, after capacity was reserved. */
  function AdmitStep(s: State, p: Payload): (r: Option<State>)
  {
    var d, k := s.records, s.control;
    if k.closing || k.exhausted || k.bufClosed then None
    else Some(s.(
      records := d.(queue := d.queue + [Item(k.next, p)], ingested := d.ingested + [p]),
      control := k.(exhausted := k.next == MAX_INT64, lastEnqueued := k.next,
                    next := if k.next == MAX_INT64 then k.next else k.next + 1)))
  }

  /** GetUnackedBatches: drains what is left into the retained set, which later calls return again. */
  function ReadUnackedStep(s: State): (r: Option<State>)
  {
    var d := s.records;
    if s.control.phase != Done then None
    else Some(s.(records := d.(retained := d.retained + (d.flight + d.queue), queue := [], flight := []),
                 control := s.control.(bufClosed := true)))
  }

  /** A reconnect: requeue puts the in-flight entries back in front and the counters start afresh. */
  function OpenStep(s: State): (r: Option<State>)
  {
    var d := s.records;
    if s.control.phase != Running || s.conn.Some? then None
    else Some(s.(
      records := d.(queue := d.flight + d.queue, flight := []),
      conn := Some(Conn(Idle, false, 0, [], 0, Receiver(-1, -1, -1, -1, 0, []), false, false, [], 0, d.wm + 1))))
  }

  /** drain on behalf of a callback: retain the records and queue one error range for them. */
  function DrainStep(s: State): (r: State)
  {
    var d := s.records;
    var items := d.flight + d.queue;
    s.(records := d.(queue := [], flight := [], retained := if items == [] then d.retained else items),
       control := s.control.(bufClosed := true),
       dispatcher := if items == [] then s.dispatcher
                     else EnqueueErrors(s.dispatcher, items[0].offset, items[|items| - 1].offset))
  }

  /** The end of supervise after a terminal failure. */
  function SettleStep(s: State): (r: Option<State>)
  {
    if s.control.phase != Settling then None
    else
      var s' := if s.dispatcher.installed then DrainStep(s) else s.(control := s.control.(bufClosed := true));
      Some(s'.(control := s'.control.(phase := Leaving)))
  }

  /** The deferred exit of supervise; a cancelled supervisor comes here straight from Running. */
  function LeaveStep(s: State): (r: Option<State>)
  {
    var k := s.control;
    if s.conn.Some? || !(k.phase == Leaving || (k.phase == Running && k.cancelled)) then None
    else
      var s' := if k.cancelled && s.dispatcher.installed then DrainStep(s) else s;
      Some(s'.(control := s'.control.(wmTerminal := k.wmTerminal || k.cancelled, phase := Done)))
  }

  /** The sender's next: moves the head of the queue in flight. */
  function TakeNextStep(d: Records, c: Conn): (r: Option<(Records, Conn)>)
  {
    if c.stopped || c.pc != Idle || d.queue == [] then None
    else Some((d.(queue := d.queue[1..], flight := d.flight + [d.queue[0]]), c.(pc := Got(d.queue[0]))))
  }

  /** The sender's other steps, and the receiver's exit. */
  function SenderStep(c: Conn, a: Action): (r: Option<Conn>)
  {
    match a
    case Publish =>
      if c.stopped || !c.pc.Got? || |c.events| >= 2 then None
      else Some(c.(pc := Sending(c.pc.it), wire := c.wire + [c.pc.it],
                   events := c.events + [Started(c.pc.it.offset, c.physical)]))
    case SendReturns(ok) =>
      // not guarded by `stopped`: a blocked Send still returns and reports
      if !c.pc.Sending? || |c.events| >= 2 then None
      else Some(c.(pc := Reported(c.pc.it, ok), events := c.events + [Completed(c.pc.it.offset, c.physical, ok)]))
    case ConsumeTurn =>
      if c.stopped || !c.pc.Reported? || !c.pc.ok || c.consumed == 0 then None
      else Some(c.(pc := Idle, physical := c.physical + 1, consumed := c.consumed - 1))
    case StopSender =>
      // cancellation is observed everywhere except inside Send
      if c.pc.Sending? then None else Some(c.(stopped := true))
    case ExitReceiver(clean) =>
      // a clean exit first resolves a held ack
      if clean && c.rx.pendingAck >= 0 && c.rx.sendingPhysical >= 0 then None else Some(c.(exited := true))
    case _ => None
  }

  /** What the receiver does with one message: the new connection and the ack's effect on the records. */
  function ReceiverStep(d: Records, c: Conn, a: Action): (r: Option<(Conn, AckEffect)>)
  {
    match a
    case HandleEvent =>
      if c.exited || c.events == [] || (c.events[0].Completed? && c.consumed >= 1) then None
      else
        var e := c.events[0];
        var f := EventEffect(d, c.rx, e, c.paused);
        Some((c.(events := c.events[1..], exited := f.Refused? || f.stops,
                 rx := if f.Refused? then RecordEvent(c.rx, e) else f.rx,
                 consumed := if e.Completed? then c.consumed + 1 else c.consumed), f))
    case ReceiveAck(off) =>
      // the receiver empties the event channel before it looks at an ack
      if c.exited || c.events != [] then None
      else if off < 0 then Some((c.(exited := true), Refused))
      else if c.rx.sendingPhysical >= 0 && off == c.rx.sendingPhysical then
        var rx := c.rx.(pendingAck := if off > c.rx.pendingAck then off else c.rx.pendingAck);
        Some((c.(rx := rx), Applied(d, rx, 0, -1, false)))
      else
        var f := ApplyPhysicalAck(d, c.rx, off, c.paused);
        Some((c.(exited := f.Refused? || f.stops, rx := if f.Refused? then c.rx else f.rx), f))
    case _ => None
  }

  /** The callback worker: takes a range, then invokes the callback once for each of its offsets. */
  function WorkerStep(p: Dispatcher, a: Action): (r: Option<Dispatcher>)
  {
    match a
    case PopRange =>
      if p.active.Some? || p.ranges == [] then None
      else Some(p.(active := Some(p.ranges[0]), ranges := p.ranges[1..]))
    case Invoke =>
      if p.active.None? then None
      else
        var r := p.active.value;
        Some(p.(calls := p.calls + [if r.failed then OnError(r.first) else OnAck(r.first)],
                active := if r.first == r.last then None else Some(r.(first := r.first + 1))))
    case _ => None
  }

  /** The next state after action `a`, or None when `a` cannot happen in `s`. */
  function Step(s: State, a: Action): (r: Option<State>)
  {
    var k := s.control;
    match a
    case Admit(p) => AdmitStep(s, p)
    case StartClose => Some(s.(control := k.(closing := true)))
    case CancelSupervisor => if k.closing then Some(s.(control := k.(cancelled := true))) else None
    case CloseBuffer => if k.cancelled then Some(s.(control := k.(bufClosed := true))) else None
    case ReadUnacked => ReadUnackedStep(s)
    case Open => OpenStep(s)
    case Teardown =>
      if s.conn.Some? && s.conn.value.stopped && s.conn.value.exited then Some(s.(conn := None)) else None
    case GiveUp =>
      if k.phase == Running && s.conn.None? then Some(s.(control := k.(phase := Settling, wmTerminal := true))) else None
    case Settle => SettleStep(s)
    case Leave => LeaveStep(s)
    case ShutdownDispatcher =>
      if k.phase == Done then Some(s.(dispatcher := s.dispatcher.(closed := true))) else None
    case PopRange => WorkerResult(s, WorkerStep(s.dispatcher, a))
    case Invoke => WorkerResult(s, WorkerStep(s.dispatcher, a))
    case TakeNext =>
      if s.conn.None? then None
      else (match TakeNextStep(s.records, s.conn.value)
            case None => None
            case Some((d, c)) => Some(s.(records := d, conn := Some(c))))
    case ReceivePause =>
      // the first pause counts; with nothing in flight it ends the connection at once
      if s.conn.None? || s.conn.value.exited then None
      else if s.conn.value.paused then Some(s)
      else Some(s.(conn := Some(s.conn.value.(paused := true, exited := s.records.flight == []))))
    case HandleEvent => if s.conn.None? then None else ReceiverResult(s, ReceiverStep(s.records, s.conn.value, a))
    case ReceiveAck(_) => if s.conn.None? then None else ReceiverResult(s, ReceiverStep(s.records, s.conn.value, a))
    case Persist =>
      // the server makes its next received message durable
      if s.conn.None? || s.conn.value.durable >= |s.conn.value.wire| then None
      else
        var c := s.conn.value;
        Some(s.(conn := Some(c.(durable := c.durable + 1)), stored := s.stored + {c.wire[c.durable]}))
    case _ =>
      if s.conn.None? then None
      else (match SenderStep(s.conn.value, a)
            case None => None
            case Some(c) => Some(s.(conn := Some(c))))
  }

  function WorkerResult(s: State, r: Option<Dispatcher>): Option<State>
  {
    if r.None? then None else Some(s.(dispatcher := r.value))
  }

  /** Publishes the effect of an ack: records, and one callback range for what was discarded. */
  function ReceiverResult(s: State, r: Option<(Conn, AckEffect)>): Option<State>
  {
    match r
    case None => None
    case Some((c, f)) =>
      if f.Refused? then Some(s.(conn := Some(c)))
      else Some(s.(conn := Some(c), records := f.records, dispatcher := EnqueueAcks(s.dispatcher, f.first, f.last)))
  }

  // ---------------------------------------------------------------- the invariant

  /** `items` are consecutive entries for what was ingested from offset `start` on. */
  ghost predicate Slice(items: seq<Item>, ingested: seq<Payload>, start: int)
  {
    && 0 <= start
    && start + |items| <= |ingested|
    && forall i :: 0 <= i < |items| ==> items[i] == Item(start + i, ingested[start + i])
  }

  /**
   Conservation: after the watermark come the retained, in-flight and queued entries, in this
   order, and together they are exactly what was ingested and not acknowledged.
   */
  ghost predicate Ledger(d: Records)
  {
    && -1 <= d.wm
    && |d.ingested| == d.wm + 1 + |d.retained| + |d.flight| + |d.queue|
    && Slice(d.retained, d.ingested, d.wm + 1)
    && Slice(d.flight, d.ingested, d.wm + 1 + |d.retained|)
    && Slice(d.queue, d.ingested, d.wm + 1 + |d.retained| + |d.flight|)
    && (d.retained != [] ==> d.flight == [] && d.queue == [])
  }

  /** Offsets are handed out densely from 0 and never wrap. */
  ghost predicate Offsets(d: Records, k: Control)
  {
    && k.lastEnqueued == |d.ingested| - 1
    && (if k.exhausted then k.next == MAX_INT64 && |d.ingested| == MAX_INT64 + 1
        else k.next == |d.ingested| <= MAX_INT64)
  }

  /** What the supervisor's phase says about the rest. */
  ghost predicate Phases(s: State)
  {
    var d, k := s.records, s.control;
    && (s.conn.Some? ==> k.phase == Running)
    && (k.phase == Running || k.phase == Settling ==> d.retained == [])
    && (d.retained != [] ==> k.bufClosed)
    && (k.cancelled ==> k.closing)
    && (k.phase == Done ==> k.bufClosed || k.closing)
    && (k.phase == Leaving ==> k.bufClosed)
    && (s.dispatcher.installed && (k.phase == Leaving || k.phase == Done) ==> d.flight == [] && d.queue == [] && k.bufClosed)
    && (s.dispatcher.closed ==> k.phase == Done)
  }

  /** The receiver's translation table is exact: physical offset k is logical offset base + k. */
  ghost predicate Table(d: Records, c: Conn, rx: Receiver)
  {
    && -1 <= rx.lastAcked
    && rx.sentBase == rx.lastAcked + 1
    && c.base + rx.lastAcked == d.wm
    && (forall i :: 0 <= i < |rx.sentLogical| ==> rx.sentLogical[i] == c.base + rx.sentBase + i)
    && |rx.sentLogical| <= |d.flight|
  }

  /** Nothing is being sent as far as the receiver knows. */
  predicate Quiet(rx: Receiver)
  {
    rx.sendingPhysical == -1 && rx.sendingLogical == -1 && rx.pendingAck == -1
  }

  /** The sender's position against the channel and the receiver's variables. */
  ghost predicate Handshake(c: Conn)
  {
    var rx, p := c.rx, c.physical;
    && (rx.pendingAck == -1 || (rx.pendingAck == rx.sendingPhysical && 0 <= rx.pendingAck))
    && match c.pc
       case Idle => c.events == [] && c.consumed == 0 && Recorded(rx) == p && Quiet(rx)
       case Got(it) => c.events == [] && c.consumed == 0 && Recorded(rx) == p && Quiet(rx)
       case Sending(it) =>
         && Recorded(rx) == p && c.consumed == 0
         && (if c.events == [] then rx.sendingPhysical == p && rx.sendingLogical == it.offset
             else c.events == [Started(it.offset, p)] && Quiet(rx))
       case Reported(it, ok) =>
         if c.events == [] then c.consumed == 1 && Recorded(rx) == p + (if ok then 1 else 0) && Quiet(rx)
         else
           && c.consumed == 0 && Recorded(rx) == p
           && (if |c.events| == 1 then c.events == [Completed(it.offset, p, ok)] && rx.sendingPhysical == p && rx.sendingLogical == it.offset
               else c.events == [Started(it.offset, p), Completed(it.offset, p, ok)] && Quiet(rx))
  }

  /** What is on the wire is the run of records from `base`: replayed first, then continued. */
  ghost predicate Wire(d: Records, c: Conn)
  {
    && Slice(c.wire, d.ingested, c.base)
    && |c.wire| == c.physical + (if c.pc.Sending? || c.pc.Reported? then 1 else 0)
    && c.durable <= |c.wire|
    && 0 <= c.base
    && d.wm - c.base + 1 + |d.flight| == c.physical + (if c.pc.Idle? then 0 else 1)
    && (c.pc.Idle? || Slice([c.pc.it], d.ingested, c.base + c.physical))
  }

  ghost predicate Link(d: Records, c: Conn)
  {
    d.retained == [] && (c.exited || Table(d, c, c.rx)) && Handshake(c) && Wire(d, c)
  }

  ghost predicate Inv(s: State)
  {
    && Ledger(s.records) && Offsets(s.records, s.control) && Phases(s)
    && (s.conn.Some? ==> Link(s.records, s.conn.value))
  }

  // ---------------------------------------------------------------- preservation

  lemma SliceDrop(items: seq<Item>, ingested: seq<Payload>, start: int, n: nat)
    requires Slice(items, ingested, start) && n <= |items|
    ensures Slice(items[n..], ingested, start + n)
  {
  }

  lemma SliceConcat(a: seq<Item>, b: seq<Item>, ingested: seq<Payload>, start: int)
    requires Slice(a, ingested, start) && Slice(b, ingested, start + |a|)
    ensures Slice(a + b, ingested, start)
  {
  }

  lemma SliceGrow(items: seq<Item>, ingested: seq<Payload>, start: int, p: Payload)
    requires Slice(items, ingested, start)
    ensures Slice(items, ingested + [p], start)
  {
  }

  /** discardThrough removes exactly the entries up to the acknowledged offset. */
  lemma AckedCountExact(flight: seq<Item>, ingested: seq<Payload>, start: int, offset: int)
    requires Slice(flight, ingested, start)
    requires start <= offset < start + |flight|
    ensures AckedCount(flight, offset) == offset - start + 1
  {
    var n := AckedCount(flight, offset);
    assert n < |flight| ==> flight[n].offset == start + n;
    assert n > 0 ==> flight[n - 1].offset == start + n - 1;
  }

  /** The records once everything up to `offset` is acknowledged. */
  function Acknowledged(d: Records, offset: int): Records
    requires d.wm <= offset <= d.wm + |d.flight|
  {
    d.(flight := d.flight[offset - d.wm..], wm := offset)
  }

  lemma AcknowledgedLedger(d: Records, offset: int)
    requires Ledger(d) && d.retained == [] && d.wm < offset <= d.wm + |d.flight|
    ensures Ledger(Acknowledged(d, offset))
  {
    SliceDrop(d.flight, d.ingested, d.wm + 1, offset - d.wm);
  }

  /** The ack that leaves nothing in flight on a paused connection ends it. */
  predicate EndsPause(d: Records, offset: int, paused: bool)
  {
    paused && offset == d.wm + |d.flight|
  }

  /** A logical ack inside the in-flight range moves exactly its prefix below the watermark. */
  lemma LogicalAckExact(d: Records, offset: int, paused: bool)
    requires Ledger(d) && d.retained == []
    requires d.wm < offset <= d.wm + |d.flight|
    ensures ApplyLogicalAck(d, offset, paused) ==
            Evicted(Acknowledged(d, offset), d.wm + 1, offset, EndsPause(d, offset, paused))
  {
    AckedCountExact(d.flight, d.ingested, d.wm + 1, offset);
  }

  lemma AdvancedTable(d: Records, c: Conn, rx: Receiver, off: int)
    requires Table(d, c, rx) && rx.lastAcked < off < Recorded(rx)
    ensures rx.sentBase == rx.lastAcked + 1 && c.base + off - d.wm == off - rx.lastAcked
    ensures rx.sentLogical[off - rx.sentBase] == c.base + off && d.wm < c.base + off <= d.wm + |d.flight|
    ensures Table(Acknowledged(d, c.base + off), c, Advanced(rx, off))
  {
  }

  /** The receiver after an ack for `off`, which stands for logical offset `logical`. */
  function After(d: Records, rx: Receiver, off: int, logical: int, paused: bool): Receiver
    requires 0 <= off - rx.sentBase < |rx.sentLogical|
  {
    if EndsPause(d, logical, paused) then rx else Advanced(rx, off)
  }

  lemma PhysicalIsLogical(d: Records, rx: Receiver, off: int, logical: int, paused: bool, effect: LogicalEffect)
    requires rx.lastAcked < off && rx.sentBase == rx.lastAcked + 1 && off < Recorded(rx)
    requires rx.sentLogical[off - rx.sentBase] == logical
    requires effect == ApplyLogicalAck(d, logical, paused) && effect.Evicted?
    ensures ApplyPhysicalAck(d, rx, off, paused) ==
      Applied(effect.records, if effect.stops then rx else Advanced(rx, off), effect.first, effect.last, effect.stops)
  {
  }

  /** A physical ack recorded in the table is never refused, and acknowledges through base + off. */
  lemma PhysicalAckExact(d: Records, c: Conn, rx: Receiver, off: int, paused: bool)
    requires Ledger(d) && d.retained == [] && rx.sentBase == rx.lastAcked + 1
    requires rx.lastAcked < off < Recorded(rx) && rx.sentLogical[off - rx.sentBase] == c.base + off
    requires d.wm < c.base + off <= d.wm + |d.flight|
    ensures ApplyPhysicalAck(d, rx, off, paused) ==
            Applied(Acknowledged(d, c.base + off), After(d, rx, off, c.base + off, paused), d.wm + 1, c.base + off,
                    EndsPause(d, c.base + off, paused))
  {
    var logical := c.base + off;
    LogicalAckExact(d, logical, paused);
    PhysicalIsLogical(d, rx, off, logical, paused,
                      Evicted(Acknowledged(d, logical), d.wm + 1, logical, EndsPause(d, logical, paused)));
  }

  lemma AdmitKeepsInv(s: State, p: Payload)
    requires Inv(s) && AdmitStep(s, p).Some?
    ensures Inv(AdmitStep(s, p).value)
  {
    var d := s.records;
    SliceGrow(d.retained, d.ingested, d.wm + 1, p);
    SliceGrow(d.flight, d.ingested, d.wm + 1 + |d.retained|, p);
    SliceGrow(d.queue, d.ingested, d.wm + 1 + |d.retained| + |d.flight|, p);
    SliceConcat(d.queue, [Item(s.control.next, p)], d.ingested + [p], d.wm + 1 + |d.retained| + |d.flight|);
    if s.conn.Some? {
      var c := s.conn.value;
      SliceGrow(c.wire, d.ingested, c.base, p);
      if !c.pc.Idle? {
        SliceGrow([c.pc.it], d.ingested, c.base + c.physical, p);
      }
    }
  }

  lemma OpenKeepsInv(s: State)
    requires Inv(s) && OpenStep(s).Some?
    ensures Inv(OpenStep(s).value)
  {
    var d := s.records;
    SliceConcat(d.flight, d.queue, d.ingested, d.wm + 1);
  }

  lemma ReadUnackedKeepsInv(s: State)
    requires Inv(s) && ReadUnackedStep(s).Some?
    ensures Inv(ReadUnackedStep(s).value)
  {
    var d := s.records;
    SliceConcat(d.flight, d.queue, d.ingested, d.wm + 1 + |d.retained|);
    SliceConcat(d.retained, d.flight + d.queue, d.ingested, d.wm + 1);
  }

  lemma DrainKeepsLedger(s: State)
    requires Ledger(s.records) && Offsets(s.records, s.control)
    ensures var t := DrainStep(s);
            && Ledger(t.records) && Offsets(t.records, t.control)
            && t.records.flight == [] && t.records.queue == []
            && t.records.wm == s.records.wm && t.records.ingested == s.records.ingested
  {
    DrainedLedger(s.records);
  }

  lemma DrainedLedger(d: Records)
    requires Ledger(d)
    ensures var items := d.flight + d.queue;
      Ledger(d.(retained := if items == [] then d.retained else items, flight := [], queue := []))
  {
    SliceConcat(d.flight, d.queue, d.ingested, d.wm + 1 + |d.retained|);
  }

  lemma SettleKeepsInv(s: State)
    requires Inv(s) && SettleStep(s).Some?
    ensures Inv(SettleStep(s).value)
  {
    DrainKeepsLedger(s);
  }

  lemma LeaveKeepsInv(s: State)
    requires Inv(s) && LeaveStep(s).Some?
    ensures Inv(LeaveStep(s).value)
  {
    DrainKeepsLedger(s);
  }

  lemma TakeNextKeepsLink(d: Records, c: Conn)
    requires Ledger(d) && Link(d, c) && TakeNextStep(d, c).Some?
    ensures var (d', c') := TakeNextStep(d, c).value; Ledger(d') && Link(d', c')
  {
    SliceConcat(d.flight, [d.queue[0]], d.ingested, d.wm + 1);
    SliceDrop(d.queue, d.ingested, d.wm + 1 + |d.flight|, 1);
  }

  lemma SenderKeepsLink(d: Records, c: Conn, a: Action)
    requires Ledger(d) && Link(d, c) && SenderStep(c, a).Some?
    ensures Link(d, SenderStep(c, a).value)
  {
    if a.Publish? {
      SliceConcat(c.wire, [c.pc.it], d.ingested, c.base);
    }
  }

  /** The connection after an ack for `off`. */
  function AckedConn(d: Records, c: Conn, off: int): Conn
    requires 0 <= off - c.rx.sentBase < |c.rx.sentLogical|
  {
    c.(rx := After(d, c.rx, off, c.base + off, c.paused), exited := EndsPause(d, c.base + off, c.paused))
  }

  lemma AckedWire(d: Records, c: Conn, off: int)
    requires Link(d, c) && Table(d, c, c.rx) && c.rx.lastAcked < off < Recorded(c.rx)
    requires c.base + off - d.wm == off - c.rx.lastAcked <= |d.flight|
    ensures Handshake(AckedConn(d, c, off)) && Wire(Acknowledged(d, c.base + off), AckedConn(d, c, off))
  {
  }

  /** Applying a recorded ack keeps everything. */
  lemma AckedLink(d: Records, c: Conn, off: int)
    requires Ledger(d) && Link(d, c) && Table(d, c, c.rx) && c.rx.lastAcked < off < Recorded(c.rx)
    ensures d.wm < c.base + off <= d.wm + |d.flight|
    ensures Ledger(Acknowledged(d, c.base + off))
    ensures Link(Acknowledged(d, c.base + off), AckedConn(d, c, off))
  {
    AdvancedTable(d, c, c.rx, off);
    AcknowledgedLedger(d, c.base + off);
    AckedWire(d, c, off);
  }

  /** The connection once the receiver has recorded the next event, before it applies a held ack. */
  function AfterEvent(c: Conn): Conn
    requires c.events != []
  {
    var e := c.events[0];
    c.(events := c.events[1..], rx := RecordEvent(c.rx, e), consumed := if e.Completed? then c.consumed + 1 else c.consumed)
  }

  /** The event completes a send whose ack arrived early. */
  predicate ReleasesHeld(c: Conn)
    requires c.events != []
  {
    c.events[0].Completed? && c.events[0].ok && c.rx.pendingAck >= 0
  }

  lemma RecordKeepsLink(d: Records, c: Conn)
    requires Link(d, c) && !c.exited && c.events != []
    ensures Link(d, AfterEvent(c))
    ensures ReleasesHeld(c) ==> c.rx.lastAcked == AfterEvent(c).rx.lastAcked < c.rx.pendingAck < Recorded(AfterEvent(c).rx)
    ensures c.events[0].Completed? && c.events[0].ok ==> c.events[0].physical == Recorded(c.rx)
  {
    assert !c.pc.Idle? ==> [c.pc.it][0].offset == c.base + c.physical;
    assert Table(d, c, AfterEvent(c).rx);
  }

  lemma HeldAckApplies(d: Records, c: Conn)
    requires Ledger(d) && c.events != [] && ReleasesHeld(c) && Table(d, AfterEvent(c), AfterEvent(c).rx) && d.retained == []
    requires AfterEvent(c).rx.lastAcked < c.rx.pendingAck < Recorded(AfterEvent(c).rx)
    ensures var c', off := AfterEvent(c), c.rx.pendingAck;
      && c'.rx.lastAcked < off < Recorded(c'.rx) && d.wm < c.base + off <= d.wm + |d.flight|
      && ApplyPhysicalAck(d, c'.rx, off, c.paused) ==
           Applied(Acknowledged(d, c.base + off), AckedConn(d, c', off).rx, d.wm + 1, c.base + off,
                   EndsPause(d, c.base + off, c.paused))
  {
    AdvancedTable(d, AfterEvent(c), AfterEvent(c).rx, c.rx.pendingAck);
    PhysicalAckExact(d, AfterEvent(c), AfterEvent(c).rx, c.rx.pendingAck, c.paused);
  }

  /** Handling an event records it and then applies the ack it releases, if any; it is never refused. */
  lemma EventApplies(d: Records, c: Conn)
    requires Ledger(d) && Link(d, c) && ReceiverStep(d, c, HandleEvent).Some?
    ensures var c', off := AfterEvent(c), c.rx.pendingAck;
      ReleasesHeld(c) ==>
        && c'.rx.lastAcked < off < Recorded(c'.rx) && d.wm < c.base + off <= d.wm + |d.flight|
        && ReceiverStep(d, c, HandleEvent) ==
             Some((AckedConn(d, c', off),
                   Applied(Acknowledged(d, c.base + off), AckedConn(d, c', off).rx, d.wm + 1, c.base + off,
                           EndsPause(d, c.base + off, c.paused))))
    ensures !ReleasesHeld(c) ==>
      ReceiverStep(d, c, HandleEvent) == Some((AfterEvent(c), Applied(d, AfterEvent(c).rx, 0, -1, false)))
  {
    RecordKeepsLink(d, c);
    if ReleasesHeld(c) {
      HeldAckApplies(d, c);
    }
  }

  lemma EventKeepsLink(d: Records, c: Conn)
    requires Ledger(d) && Link(d, c) && ReceiverStep(d, c, HandleEvent).Some?
    ensures var (c', f) := ReceiverStep(d, c, HandleEvent).value;
            f.Applied? && Ledger(f.records) && Link(f.records, c') && f.rx == c'.rx
  {
    EventApplies(d, c);
    RecordKeepsLink(d, c);
    if ReleasesHeld(c) {
      AckedLink(d, AfterEvent(c), c.rx.pendingAck);
    }
  }

  /** An ack for a recorded offset is applied. */
  lemma AckApplies(d: Records, c: Conn, off: int)
    requires Ledger(d) && Link(d, c) && !c.exited && c.rx.lastAcked < off < Recorded(c.rx)
    ensures d.wm < c.base + off <= d.wm + |d.flight|
    ensures ApplyPhysicalAck(d, c.rx, off, c.paused) ==
            Applied(Acknowledged(d, c.base + off), AckedConn(d, c, off).rx, d.wm + 1, c.base + off,
                    EndsPause(d, c.base + off, c.paused))
  {
    AdvancedTable(d, c, c.rx, off);
    PhysicalAckExact(d, c, c.rx, off, c.paused);
  }

  lemma HeldAckKeepsLink(d: Records, c: Conn, off: int)
    requires Link(d, c)
    requires off < 0 || (c.rx.sendingPhysical >= 0 && off == c.rx.sendingPhysical)
    requires ReceiverStep(d, c, ReceiveAck(off)).Some?
    ensures var (c', f) := ReceiverStep(d, c, ReceiveAck(off)).value;
            Link(d, c') && (f.Applied? ==> f.records == d && f.rx == c'.rx)
  {
  }

  lemma PhysicalAckKeepsLink(d: Records, c: Conn, off: int)
    requires Ledger(d) && Link(d, c) && !c.exited
    ensures var f := ApplyPhysicalAck(d, c.rx, off, c.paused);
            if f.Refused? then Link(d, c.(exited := true))
            else Ledger(f.records) && Link(f.records, c.(exited := f.stops, rx := f.rx)) && f.records.ingested == d.ingested
  {
    if c.rx.lastAcked < off < Recorded(c.rx) {
      AckApplies(d, c, off);
      AckedLink(d, c, off);
    }
  }

  lemma AckKeepsLink(d: Records, c: Conn, off: int)
    requires Ledger(d) && Link(d, c) && ReceiverStep(d, c, ReceiveAck(off)).Some?
    ensures var (c', f) := ReceiverStep(d, c, ReceiveAck(off)).value;
            if f.Refused? then Link(d, c')
            else Ledger(f.records) && Link(f.records, c') && f.rx == c'.rx && f.records.ingested == d.ingested
  {
    if off < 0 || (c.rx.sendingPhysical >= 0 && off == c.rx.sendingPhysical) {
      HeldAckKeepsLink(d, c, off);
    } else {
      PhysicalAckKeepsLink(d, c, off);
    }
  }

  lemma ControlKeepsInv(s: State, a: Action)
    requires Inv(s) && Step(s, a).Some?
    requires a.StartClose? || a.CancelSupervisor? || a.CloseBuffer? || a.Teardown? || a.GiveUp? || a.ShutdownDispatcher?
             || a.PopRange? || a.Invoke?
    ensures Inv(Step(s, a).value)
  {
  }

  lemma ServerKeepsInv(s: State, a: Action)
    requires Inv(s) && Step(s, a).Some? && (a.Persist? || a.ReceivePause?)
    ensures Inv(Step(s, a).value)
  {
  }

  lemma SendingKeepsInv(s: State, a: Action)
    requires Inv(s) && Step(s, a).Some?
    requires a.TakeNext? || a.Publish? || a.SendReturns? || a.ConsumeTurn? || a.StopSender? || a.ExitReceiver?
    ensures Inv(Step(s, a).value)
  {
    if a.TakeNext? {
      TakeNextKeepsLink(s.records, s.conn.value);
    } else {
      SenderKeepsLink(s.records, s.conn.value, a);
    }
  }

  lemma EventKeepsInv(s: State)
    requires Inv(s) && Step(s, HandleEvent).Some?
    ensures Inv(Step(s, HandleEvent).value)
  {
    EventKeepsLink(s.records, s.conn.value);
  }

  /** What the receiver publishes keeps the rest. */
  lemma ResultKeepsInv(s: State, c: Conn, f: AckEffect)
    requires Inv(s) && s.conn.Some?
    requires if f.Refused? then Link(s.records, c)
             else Ledger(f.records) && Link(f.records, c) && f.records.ingested == s.records.ingested
    ensures Inv(ReceiverResult(s, Some((c, f))).value)
  {
  }

  lemma AckKeepsInv(s: State, off: int)
    requires Inv(s) && Step(s, ReceiveAck(off)).Some?
    ensures Inv(Step(s, ReceiveAck(off)).value)
  {
    AckKeepsLink(s.records, s.conn.value, off);
    var (c, f) := ReceiverStep(s.records, s.conn.value, ReceiveAck(off)).value;
    ResultKeepsInv(s, c, f);
    assert Step(s, ReceiveAck(off)) == ReceiverResult(s, Some((c, f)));
  }

  /** Every step of every goroutine, and of an arbitrary server, keeps the invariant. */
  lemma StepKeepsInv(s: State, a: Action)
    requires Inv(s) && Step(s, a).Some?
    ensures Inv(Step(s, a).value)
  {
    match a {
      case Admit(payload) => AdmitKeepsInv(s, payload);
      case ReadUnacked => ReadUnackedKeepsInv(s);
      case Open => OpenKeepsInv(s);
      case Settle => SettleKeepsInv(s);
      case Leave => LeaveKeepsInv(s);
      case HandleEvent => EventKeepsInv(s);
      case ReceiveAck(off) => AckKeepsInv(s, off);
      case TakeNext | Publish | ConsumeTurn | StopSender => SendingKeepsInv(s, a);
      case SendReturns(_) => SendingKeepsInv(s, a);
      case ExitReceiver(_) => SendingKeepsInv(s, a);
      case Persist => ServerKeepsInv(s, a);
      case ReceivePause => ServerKeepsInv(s, a);
      case _ => ControlKeepsInv(s, a);
    }
  }
}
