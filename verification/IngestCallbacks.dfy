/**
 The callback dispatcher over whole runs of the ingestion core.  Ranges are coalesced on the
 assumption that offsets are dense; here that assumption is discharged, and every ingested
 offset is shown to get exactly one callback.
 */
module IngestCallbacks {
  import opened Common
  import opened IngestCore
  import opened IngestProperties

  /** Callbacks for `n` consecutive offsets from `first`. */
  function Span(first: int, n: int, failed: bool): (cs: seq<Call>)
  {
    if n <= 0 then [] else Span(first, n - 1, failed) + [if failed then OnError(first + n - 1) else OnAck(first + n - 1)]
  }

  function RangeCalls(r: CallRange): (cs: seq<Call>)
  {
    Span(r.first, r.last - r.first + 1, r.failed)
  }

  /** The invocations still queued. */
  function QueuedCalls(q: seq<CallRange>): (cs: seq<Call>)
  {
    if q == [] then [] else QueuedCalls(q[..|q| - 1]) + RangeCalls(q[|q| - 1])
  }

  lemma {:induction false} SpanJoin(first: int, m: nat, n: nat, failed: bool)
    ensures Span(first, m + n, failed) == Span(first, m, failed) + Span(first + m, n, failed)
  {
    if n > 0 {
      SpanJoin(first, m, n - 1, failed);
    }
  }

  lemma {:induction false} SpanHead(first: int, n: nat, failed: bool)
    requires n > 0
    ensures Span(first, n, failed) == [if failed then OnError(first) else OnAck(first)] + Span(first + 1, n - 1, failed)
  {
    SpanJoin(first, 1, n - 1, failed);
    assert Span(first, 1, failed) == Span(first, 0, failed) + [if failed then OnError(first) else OnAck(first)];
  }

  lemma {:induction false} QueuedHead(q: seq<CallRange>)
    requires q != []
    ensures QueuedCalls(q) == RangeCalls(q[0]) + QueuedCalls(q[1..])
  {
    if |q| > 1 {
      QueuedHead(q[..|q| - 1]);
      assert q[..|q| - 1][1..] == q[1..][..|q| - 2];
    }
  }

  lemma QueuedSnoc(q: seq<CallRange>, r: CallRange)
    ensures QueuedCalls(q + [r]) == QueuedCalls(q) + RangeCalls(r)
  {
    assert (q + [r])[..|q|] == q;
  }

  lemma Assoc(a: seq<Call>, b: seq<Call>, c: seq<Call>)
    ensures (a + b) + c == a + (b + c)
  {
  }

  lemma MergeAdds(body: seq<CallRange>, tail: CallRange, last: int)
    requires !tail.failed && tail.first <= tail.last < last
    ensures QueuedCalls(body + [tail.(last := last)]) == QueuedCalls(body + [tail]) + Span(tail.last + 1, last - tail.last, false)
  {
    var m, n := tail.last - tail.first + 1, last - tail.last;
    QueuedSnoc(body, tail);
    QueuedSnoc(body, tail.(last := last));
    SpanJoin(tail.first, m, n, false);
    Assoc(QueuedCalls(body), Span(tail.first, m, false), Span(tail.last + 1, n, false));
  }

  /** Queueing an ack range, merged or not, adds exactly its offsets at the end. */
  lemma EnqueueAcksAdds(p: Dispatcher, first: int, last: int)
    requires p.installed && !p.closed && WellFormed(p) && first <= last
    ensures var p' := EnqueueAcks(p, first, last);
            && WellFormed(p') && p' == p.(ranges := p'.ranges)
            && QueuedCalls(p'.ranges) == QueuedCalls(p.ranges) + Span(first, last - first + 1, false)
  {
    var q := p.ranges;
    if |q| > 0 && !q[|q| - 1].failed && q[|q| - 1].last < MAX_INT64 && q[|q| - 1].last + 1 == first {
      var body, tail := q[..|q| - 1], q[|q| - 1];
      assert body + [tail] == q;
      assert EnqueueAcks(p, first, last).ranges == body + [tail.(last := last)];
      MergeAdds(body, tail, last);
    } else {
      QueuedSnoc(q, CallRange(first, last, false));
    }
  }

  lemma AllCallsAdds(p: Dispatcher, ranges: seq<CallRange>, extra: seq<Call>)
    requires QueuedCalls(ranges) == QueuedCalls(p.ranges) + extra
    ensures AllCalls(p.(ranges := ranges)) == AllCalls(p) + extra
  {
    Assoc(p.calls + (if p.active.Some? then RangeCalls(p.active.value) else []), QueuedCalls(p.ranges), extra);
  }

  lemma EnqueueErrorsAdds(p: Dispatcher, first: int, last: int)
    requires p.installed && !p.closed && WellFormed(p) && first <= last
    ensures WellFormed(EnqueueErrors(p, first, last))
    ensures QueuedCalls(EnqueueErrors(p, first, last).ranges) == QueuedCalls(p.ranges) + Span(first, last - first + 1, true)
  {
    QueuedSnoc(p.ranges, CallRange(first, last, true));
  }

  ghost predicate WellFormed(p: Dispatcher)
  {
    && (forall i :: 0 <= i < |p.ranges| ==> p.ranges[i].first <= p.ranges[i].last)
    && (p.active.Some? ==> p.active.value.first <= p.active.value.last)
  }

  /** Everything the dispatcher has done, is doing or still has to do, in order. */
  function AllCalls(p: Dispatcher): (cs: seq<Call>)
  {
    p.calls + (if p.active.Some? then RangeCalls(p.active.value) else []) + QueuedCalls(p.ranges)
  }

  /** One OnAck per acknowledged offset, then one OnError per retained one. */
  function ExpectedCalls(d: Records): (cs: seq<Call>)
  {
    Span(0, d.wm + 1, false) + Span(d.wm + 1, |d.retained|, true)
  }

  ghost predicate CallInv(s: State)
  {
    s.dispatcher.installed ==> WellFormed(s.dispatcher) && AllCalls(s.dispatcher) == ExpectedCalls(s.records)
  }

  lemma WorkerKeepsCalls(p: Dispatcher, a: Action)
    requires WellFormed(p) && WorkerStep(p, a).Some?
    ensures WellFormed(WorkerStep(p, a).value) && AllCalls(WorkerStep(p, a).value) == AllCalls(p)
  {
    if a.PopRange? {
      QueuedHead(p.ranges);
      assert p.calls + [] + QueuedCalls(p.ranges)
          == p.calls + RangeCalls(p.ranges[0]) + QueuedCalls(p.ranges[1..]);
    } else {
      var r := p.active.value;
      SpanHead(r.first, r.last - r.first + 1, r.failed);
      var one := [if r.failed then OnError(r.first) else OnAck(r.first)];
      assert p.calls + (one + RangeCalls(r.(first := r.first + 1))) == (p.calls + one) + RangeCalls(r.(first := r.first + 1));
    }
  }

  lemma ExpectedGrows(d: Records, d': Records)
    requires d.retained == [] && d'.retained == [] && -1 <= d.wm < d'.wm
    ensures ExpectedCalls(d') == ExpectedCalls(d) + Span(d.wm + 1, d'.wm - d.wm, false)
  {
    SpanJoin(0, d.wm + 1, d'.wm - d.wm, false);
    assert ExpectedCalls(d) == Span(0, d.wm + 1, false);
    assert ExpectedCalls(d') == Span(0, d'.wm + 1, false);
  }

  lemma AcksExpected(p: Dispatcher, d: Records, d': Records)
    requires p.installed && !p.closed && WellFormed(p)
    requires d.retained == [] && d'.retained == [] && -1 <= d.wm < d'.wm
    requires AllCalls(p) == ExpectedCalls(d)
    ensures var p' := EnqueueAcks(p, d.wm + 1, d'.wm); WellFormed(p') && AllCalls(p') == ExpectedCalls(d')
  {
    EnqueueAcksAdds(p, d.wm + 1, d'.wm);
    AllCallsAdds(p, EnqueueAcks(p, d.wm + 1, d'.wm).ranges, Span(d.wm + 1, d'.wm - d.wm, false));
    ExpectedGrows(d, d');
  }

  /** A receiver step that discards anything discards from just above the watermark up to the new one. */
  lemma ReceiverDiscards(s: State, a: Action)
    requires Inv(s) && Step(s, a).Some?
    requires a.HandleEvent? || a.ReceiveAck?
    ensures s.records.retained == []
    ensures var (c, f) := ReceiverStep(s.records, s.conn.value, a).value;
            f.Applied? ==>
              f.records.retained == []
              && (if f.first <= f.last then f.first == s.records.wm + 1 && f.records.wm == f.last else f.records.wm == s.records.wm)
  {
    var d, c := s.records, s.conn.value;
    if a.HandleEvent? {
      EventApplies(d, c);
    } else if c.rx.lastAcked < a.off < Recorded(c.rx) {
      AckApplies(d, c, a.off);
    }
  }

  lemma ReceiverShape(s: State, a: Action)
    requires Step(s, a).Some? && (a.HandleEvent? || a.ReceiveAck?)
    ensures var f := ReceiverStep(s.records, s.conn.value, a).value.1;
      if f.Applied? then
        && Step(s, a).value.records == f.records
        && Step(s, a).value.dispatcher == EnqueueAcks(s.dispatcher, f.first, f.last)
      else Step(s, a).value.records == s.records && Step(s, a).value.dispatcher == s.dispatcher
  {
  }

  /** An ack's range, if it discards any, brings the calls up to the new watermark. */
  lemma CallsAfterAck(p: Dispatcher, d: Records, d': Records, first: int, last: int)
    requires p.installed && !p.closed && WellFormed(p) && AllCalls(p) == ExpectedCalls(d)
    requires d.retained == [] && d'.retained == [] && -1 <= d.wm
    requires if first <= last then first == d.wm + 1 && d'.wm == last else d'.wm == d.wm
    ensures var p' := EnqueueAcks(p, first, last); WellFormed(p') && AllCalls(p') == ExpectedCalls(d')
  {
    if first <= last { AcksExpected(p, d, d'); }
  }

  lemma ReceiverKeepsCalls(s: State, a: Action)
    requires Inv(s) && CallInv(s) && Step(s, a).Some?
    requires a.HandleEvent? || a.ReceiveAck?
    ensures CallInv(Step(s, a).value)
  {
    ReceiverDiscards(s, a);
    ReceiverShape(s, a);
    var f := ReceiverStep(s.records, s.conn.value, a).value.1;
    if s.dispatcher.installed && f.Applied? {
      CallsAfterAck(s.dispatcher, s.records, f.records, f.first, f.last);
    }
  }

  lemma ErrorsExpected(p: Dispatcher, d: Records, d': Records)
    requires p.installed && !p.closed && WellFormed(p)
    requires d.retained == [] && d'.retained != [] && -1 <= d.wm == d'.wm
    requires AllCalls(p) == ExpectedCalls(d)
    ensures var p' := EnqueueErrors(p, d.wm + 1, d.wm + |d'.retained|);
      WellFormed(p') && AllCalls(p') == ExpectedCalls(d')
  {
    var n := |d'.retained|;
    EnqueueErrorsAdds(p, d.wm + 1, d.wm + n);
    AllCallsAdds(p, EnqueueErrors(p, d.wm + 1, d.wm + n).ranges, Span(d.wm + 1, n, true));
    assert ExpectedCalls(d) == Span(0, d.wm + 1, false);
  }

  /** Draining queues one error for each record drained. */
  lemma CallsAfterDrain(p: Dispatcher, d: Records, items: seq<Item>)
    requires p.installed && !p.closed && WellFormed(p) && AllCalls(p) == ExpectedCalls(d)
    requires Ledger(d) && d.retained == [] && items == d.flight + d.queue && items != []
    ensures var p' := EnqueueErrors(p, items[0].offset, items[|items| - 1].offset);
      WellFormed(p') && AllCalls(p') == ExpectedCalls(d.(queue := [], flight := [], retained := items))
  {
    SliceConcat(d.flight, d.queue, d.ingested, d.wm + 1);
    assert items[0].offset == d.wm + 1 && items[|items| - 1].offset == d.wm + |items|;
    ErrorsExpected(p, d, d.(queue := [], flight := [], retained := items));
  }

  /** What is drained was not drained before. */
  lemma DrainsOnce(s: State)
    requires Ledger(s.records) && s.records.flight + s.records.queue != []
    ensures s.records.retained == []
  {
    assert s.records.flight != [] || s.records.queue != [];
  }

  lemma DrainKeepsCalls(s: State)
    requires Ledger(s.records) && CallInv(s) && s.dispatcher.installed && !s.dispatcher.closed
    ensures CallInv(DrainStep(s))
  {
    var d := s.records;
    if d.flight + d.queue != [] {
      DrainsOnce(s);
      CallsAfterDrain(s.dispatcher, d, d.flight + d.queue);
    }
  }

  lemma EndKeepsCalls(s: State, a: Action)
    requires Inv(s) && CallInv(s) && Step(s, a).Some? && (a.Settle? || a.Leave?)
    ensures CallInv(Step(s, a).value)
  {
    if s.dispatcher.installed { DrainKeepsCalls(s); }
  }

  /** The other steps touch neither the watermark nor what was retained, nor any range. */
  lemma OtherKeepsCalls(s: State, a: Action)
    requires Inv(s) && Step(s, a).Some?
    requires !a.PopRange? && !a.Invoke? && !a.HandleEvent? && !a.ReceiveAck? && !a.Settle? && !a.Leave?
    ensures var t := Step(s, a).value;
      && t.dispatcher == s.dispatcher.(closed := t.dispatcher.closed)
      && (s.dispatcher.installed ==> t.records.wm == s.records.wm && t.records.retained == s.records.retained)
  {
  }

  lemma StepKeepsCalls(s: State, a: Action)
    requires Inv(s) && CallInv(s) && Step(s, a).Some?
    ensures CallInv(Step(s, a).value)
  {
    if a.PopRange? || a.Invoke? {
      if s.dispatcher.installed { WorkerKeepsCalls(s.dispatcher, a); }
    } else if a.HandleEvent? || a.ReceiveAck? {
      ReceiverKeepsCalls(s, a);
    } else if a.Settle? || a.Leave? {
      EndKeepsCalls(s, a);
    } else {
      OtherKeepsCalls(s, a);
    }
  }

  lemma {:induction false} RunKeepsCalls(s: State, acts: seq<Action>)
    requires Inv(s) && CallInv(s) && Exec(s, acts).Some?
    ensures CallInv(Exec(s, acts).value)
    decreases |acts|
  {
    if acts != [] {
      StepKeepsInv(s, acts[0]);
      StepKeepsCalls(s, acts[0]);
      RunKeepsCalls(Step(s, acts[0]).value, acts[1..]);
    }
  }

  /** A span is one call for each of its offsets, in order. */
  lemma {:induction false} SpanAt(first: int, n: nat, failed: bool)
    ensures |Span(first, n, failed)| == n
    ensures forall i :: 0 <= i < n ==>
              Span(first, n, failed)[i] == if failed then OnError(first + i) else OnAck(first + i)
  {
    if n > 0 {
      SpanAt(first, n - 1, failed);
    }
  }

  lemma SpansAt(acked: nat, failed: nat)
    ensures var calls := Span(0, acked, false) + Span(acked, failed, true);
            && |calls| == acked + failed
            && forall o :: 0 <= o < |calls| ==> calls[o] == if o < acked then OnAck(o) else OnError(o)
  {
    SpanAt(0, acked, false);
    SpanAt(acked, failed, true);
  }

  lemma DoneCalls(acts: seq<Action>)
    requires Exec(Init(true), acts).Some?
    requires var s := Exec(Init(true), acts).value;
             s.control.phase == Done && s.dispatcher.active.None? && s.dispatcher.ranges == []
    ensures var s := Exec(Init(true), acts).value;
            var acked := s.records.wm + 1;
            0 <= acked <= |Admitted(acts)|
            && s.dispatcher.calls == Span(0, acked, false) + Span(acked, |Admitted(acts)| - acked, true)
  {
    IngestedIsAdmitted(true, acts);
    RunKeepsInv(Init(true), acts);
    RunKeepsCalls(Init(true), acts);
    InstalledIsConstant(Init(true), acts);
    var s := Exec(Init(true), acts).value;
    assert AllCalls(s.dispatcher) == s.dispatcher.calls;
  }

  /**
   With a callback installed, once the stream is done and the worker has nothing left, the
   callback has been invoked exactly once for every ingested offset, in offset order: OnAck
   for the acknowledged ones, then OnError for the rest.
   */
  lemma OneCallbackPerOffset(acts: seq<Action>)
    requires Exec(Init(true), acts).Some?
    requires var s := Exec(Init(true), acts).value;
             s.control.phase == Done && s.dispatcher.active.None? && s.dispatcher.ranges == []
    ensures var s := Exec(Init(true), acts).value;
            var acked := s.records.wm + 1;
            0 <= acked <= |Admitted(acts)| == |s.dispatcher.calls|
            && forall o :: 0 <= o < |s.dispatcher.calls| ==>
                 s.dispatcher.calls[o] == if o < acked then OnAck(o) else OnError(o)
  {
    DoneCalls(acts);
    var acked := Exec(Init(true), acts).value.records.wm + 1;
    SpansAt(acked, |Admitted(acts)| - acked);
  }

  lemma {:induction false} InstalledIsConstant(s: State, acts: seq<Action>)
    requires Exec(s, acts).Some?
    ensures Exec(s, acts).value.dispatcher.installed == s.dispatcher.installed
    decreases |acts|
  {
    if acts != [] {
      InstalledIsConstant(Step(s, acts[0]).value, acts[1..]);
    }
  }

  // ---------------------------------------------------------------- at every moment

  lemma {:induction false} SpanHolds(first: int, n: nat, failed: bool, o: int)
    ensures OnAck(o) in Span(first, n, failed) <==> !failed && first <= o < first + n
  {
    if n > 0 {
      SpanHolds(first, n - 1, failed, o);
    }
  }

  /** At every moment of every run the invocations so far are the first of those expected: none early, none out of order, none twice. */
  lemma CallsAreThePrefix(acts: seq<Action>)
    requires Exec(Init(true), acts).Some?
    ensures var s := Exec(Init(true), acts).value;
            && |s.dispatcher.calls| <= s.records.wm + 1 + |s.records.retained|
            && forall o :: 0 <= o < |s.dispatcher.calls| ==>
                 s.dispatcher.calls[o] == if o <= s.records.wm then OnAck(o) else OnError(o)
  {
    PrefixOfExpected(acts);
    var d := Exec(Init(true), acts).value.records;
    SpansAt(d.wm + 1, |d.retained|);
  }

  lemma PrefixOfExpected(acts: seq<Action>)
    requires Exec(Init(true), acts).Some?
    ensures var s := Exec(Init(true), acts).value;
            && -1 <= s.records.wm
            && s.dispatcher.calls <= Span(0, s.records.wm + 1, false) + Span(s.records.wm + 1, |s.records.retained|, true)
  {
    RunKeepsInv(Init(true), acts);
    RunKeepsCalls(Init(true), acts);
    InstalledIsConstant(Init(true), acts);
    var p := Exec(Init(true), acts).value.dispatcher;
    assert AllCalls(p) == p.calls + ((if p.active.Some? then RangeCalls(p.active.value) else []) + QueuedCalls(p.ranges));
  }

  /** Against a server that acknowledges only what it holds, a record whose OnAck has run is durably stored, as ingested. */
  lemma OnAckMeansDurable(acts: seq<Action>, o: int)
    requires HonestRun(Init(true), acts) && Exec(Init(true), acts).Some?
    requires OnAck(o) in Exec(Init(true), acts).value.dispatcher.calls
    ensures var s := Exec(Init(true), acts).value;
            0 <= o < |Admitted(acts)| && Item(o, Admitted(acts)[o]) in s.stored
  {
    PrefixOfExpected(acts);
    IngestedIsAdmitted(true, acts);
    var s := Exec(Init(true), acts).value;
    HonestlyReachableInv(s);
    var acked, failed := Span(0, s.records.wm + 1, false), Span(s.records.wm + 1, |s.records.retained|, true);
    assert OnAck(o) in acked + failed;
    SpanHolds(0, s.records.wm + 1, false, o);
    SpanHolds(s.records.wm + 1, |s.records.retained|, true, o);
  }
}
