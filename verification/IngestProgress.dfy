/**
 That the pure-Go ingestion core can always go on: from every state it can get into, an honest
 server can bring every record to be acknowledged, and the stream can be brought to its end with
 every callback made.  Safety alone would also hold of a core that stops.
 */
module IngestProgress {
  import opened Common
  import opened IngestCore
  import opened IngestProperties
  import opened IngestCallbacks

  /** Against an honest server a run leads from `s` to `t`. */
  ghost predicate Leads(s: State, t: State)
  {
    exists acts :: HonestRun(s, acts) && Exec(s, acts) == Some(t)
  }

  lemma LeadsNowhere(s: State)
    ensures Leads(s, s)
  {
    assert HonestRun(s, []) && Exec(s, []) == Some(s);
  }

  lemma Next(s0: State, s: State, a: Action) returns (t: State)
    requires Leads(s0, s) && Honest(s, a) && Step(s, a).Some?
    ensures Step(s, a) == Some(t) && Leads(s0, t)
  {
    t := Step(s, a).value;
    var acts :| HonestRun(s0, acts) && Exec(s0, acts) == Some(s);
    ExecSnoc(s0, acts, a);
  }

  // ---------------------------------------------------------------- delivering everything

  /** The live connection is between two messages: the first `n` are sent, stored and acknowledged. */
  predicate Between(s: State, n: nat)
  {
    && s.conn.Some? && s.records.flight == []
    && var c := s.conn.value;
      && c.pc.Idle? && !c.stopped && !c.exited && !c.paused && c.physical == n == |c.wire| == c.durable
      && c.events == [] && c.consumed == 0 && c.rx == Receiver(n - 1, -1, -1, -1, n, [])
  }

  /** The message `it` is sent, stored and reported, and its sender waits for the receiver. */
  predicate Delivered(s: State, n: nat, it: Item)
  {
    && s.conn.Some? && s.records.flight == [it]
    && var c := s.conn.value;
      && c.pc.Idle? && !c.stopped && !c.exited && !c.paused && c.physical == n + 1 == |c.wire| == c.durable
      && c.events == [] && c.consumed == 0 && c.rx == Receiver(n - 1, -1, -1, -1, n, [it.offset])
  }

  /** Being sent, and the receiver knows. */
  predicate InSend(s: State, n: nat, it: Item)
  {
    && s.conn.Some? && s.records.flight == [it]
    && var c := s.conn.value;
      && c.pc == Sending(it) && !c.stopped && !c.exited && !c.paused
      && c.physical == n && |c.wire| == n + 1 && c.durable == n
      && c.events == [] && c.consumed == 0 && c.rx == Receiver(n - 1, n, it.offset, -1, n, [])
  }

  lemma StartSend(s0: State, s: State, n: nat) returns (t: State)
    requires Leads(s0, s) && Between(s, n) && s.records.queue != []
    ensures Leads(s0, t) && InSend(t, n, s.records.queue[0])
    ensures t.records == s.records.(queue := s.records.queue[1..], flight := [s.records.queue[0]])
    ensures t.control == s.control
  {
    t := Next(s0, s, TakeNext);
    assert t.records.flight == [s.records.queue[0]];
    t := Next(s0, t, Publish);
    t := Next(s0, t, HandleEvent);
  }

  lemma EndSend(s0: State, s: State, n: nat, it: Item) returns (t: State)
    requires Leads(s0, s) && InSend(s, n, it)
    ensures Leads(s0, t) && Delivered(t, n, it) && t.records == s.records && t.control == s.control
  {
    t := SendReturnsOk(s0, s, n, it);
    t := Next(s0, t, HandleEvent);
    t := Next(s0, t, ConsumeTurn);
  }

  lemma SendReturnsOk(s0: State, s: State, n: nat, it: Item) returns (t: State)
    requires Leads(s0, s) && InSend(s, n, it)
    ensures Leads(s0, t) && t.records == s.records && t.control == s.control
    ensures t.conn ==
      Some(s.conn.value.(durable := n + 1, pc := Reported(it, true), events := [Completed(it.offset, n, true)]))
  {
    t := Next(s0, s, Persist);
    assert t.conn == Some(s.conn.value.(durable := n + 1));
    t := Next(s0, t, SendReturns(true));
    assert [] + [Completed(it.offset, n, true)] == [Completed(it.offset, n, true)];
  }

  lemma Acknowledge(s0: State, s: State, n: nat, it: Item) returns (t: State)
    requires Leads(s0, s) && Delivered(s, n, it) && s.records.wm < it.offset
    ensures Leads(s0, t) && Between(t, n + 1)
    ensures t.records == s.records.(flight := [], wm := it.offset) && t.control == s.control
  {
    assert AckedCount([it], it.offset) == 1;
    t := Next(s0, s, ReceiveAck(n));
  }

  lemma {:induction false} DeliverQueue(s0: State, s: State, n: nat) returns (t: State)
    requires Leads(s0, s) && Inv(s0) && Between(s, n) && Inv(s) && s.control.phase == Running
    ensures Leads(s0, t) && t.records.wm == |s.records.ingested| - 1 && t.records.ingested == s.records.ingested
    decreases |s.records.queue|
  {
    if s.records.queue == [] {
      NothingRetained(s);
      t := s;
    } else {
      NothingRetained(s);
      var it := s.records.queue[0];
      assert it.offset == s.records.wm + 1;
      t := StartSend(s0, s, n);
      t := EndSend(s0, t, n, it);
      t := Acknowledge(s0, t, n, it);
      LedKeepsInv(s0, t);
      t := DeliverQueue(s0, t, n + 1);
    }
  }

  lemma LedKeepsInv(s0: State, s: State)
    requires Leads(s0, s) && Inv(s0)
    ensures Inv(s)
  {
    var acts :| HonestRun(s0, acts) && Exec(s0, acts) == Some(s);
    RunKeepsInv(s0, acts);
  }

  lemma SendComesBack(s0: State, s: State) returns (t: State)
    requires Leads(s0, s) && Inv(s) && s.conn.Some?
    ensures Leads(s0, t) && t.conn.Some? && !t.conn.value.pc.Sending?
    ensures t.records == s.records && t.control == s.control && t.dispatcher == s.dispatcher
  {
    t := s;
    if t.conn.value.pc.Sending? {
      t := Next(s0, t, SendReturns(false));
    }
  }

  /** A connection can always be ended, whatever it is in the middle of. */
  lemma Disconnect(s0: State, s: State) returns (t: State)
    requires Leads(s0, s) && Inv(s)
    ensures Leads(s0, t) && t.conn.None?
    ensures t.records == s.records && t.control == s.control && t.dispatcher == s.dispatcher
  {
    t := s;
    if t.conn.Some? {
      t := SendComesBack(s0, t);
      t := Next(s0, t, StopSender);
      t := Next(s0, t, ExitReceiver(false));
      t := Next(s0, t, Teardown);
    }
  }

  /** While the stream runs, an honest server can bring every record ingested so far to be acknowledged. */
  lemma EverythingCanBeAcknowledged(s: State)
    requires Reachable(s) && s.control.phase == Running
    ensures exists t :: Leads(s, t)
              && t.records.ingested == s.records.ingested && t.records.wm == |s.records.ingested| - 1
  {
    ReachableInv(s);
    LeadsNowhere(s);
    var t := Disconnect(s, s);
    t := Next(s, t, Open);
    LedKeepsInv(s, t);
    t := DeliverQueue(s, t, 0);
  }

  // ---------------------------------------------------------------- coming to an end

  lemma SupervisorEnds(s0: State, s: State) returns (t: State)
    requires Leads(s0, s) && s.conn.None?
    ensures Leads(s0, t) && t.control.phase == Done
  {
    t := s;
    if t.control.phase == Running {
      t := Next(s0, t, GiveUp);
    }
    if t.control.phase == Settling {
      t := Next(s0, t, Settle);
    }
    if t.control.phase == Leaving {
      t := Next(s0, t, Leave);
    }
  }

  /** How much the callback worker still has to do. */
  function Work(p: Dispatcher): nat
    requires WellFormed(p)
  {
    |p.ranges| + |QueuedCalls(p.ranges)| +
    (if p.active.Some? then p.active.value.last - p.active.value.first + 1 else 0)
  }

  lemma PopLowersWork(p: Dispatcher)
    requires WellFormed(p) && WorkerStep(p, PopRange).Some?
    ensures WellFormed(WorkerStep(p, PopRange).value) && Work(WorkerStep(p, PopRange).value) < Work(p)
  {
    WorkerKeepsCalls(p, PopRange);
    QueuedHead(p.ranges);
    SpanLength(p.ranges[0].first, p.ranges[0].last - p.ranges[0].first + 1, p.ranges[0].failed);
  }

  lemma {:induction false} SpanLength(first: int, n: nat, failed: bool)
    ensures |Span(first, n, failed)| == n
  {
    if n > 0 { SpanLength(first, n - 1, failed); }
  }

  lemma {:induction false} WorkerEnds(s0: State, s: State) returns (t: State)
    requires Leads(s0, s) && WellFormed(s.dispatcher)
    ensures Leads(s0, t) && t.control == s.control && t.records == s.records
    ensures t.dispatcher.active.None? && t.dispatcher.ranges == []
    decreases Work(s.dispatcher)
  {
    t := s;
    var p := s.dispatcher;
    if p.active.Some? {
      WorkerKeepsCalls(p, Invoke);
      t := Next(s0, s, Invoke);
      t := WorkerEnds(s0, t);
    } else if p.ranges != [] {
      WorkerKeepsCalls(p, PopRange);
      PopLowersWork(p);
      t := Next(s0, s, PopRange);
      t := WorkerEnds(s0, t);
    }
  }

  /** From every state the stream can be brought to its end, with every callback made. */
  lemma StreamCanEnd(acts: seq<Action>, s: State)
    requires Exec(Init(true), acts) == Some(s)
    ensures exists t :: Leads(s, t) && t.control.phase == Done && t.dispatcher.active.None? && t.dispatcher.ranges == []
  {
    RunKeepsInv(Init(true), acts);
    LeadsNowhere(s);
    var t := Disconnect(s, s);
    t := SupervisorEnds(s, t);
    LedIsWellFormed(acts, s, t);
    t := WorkerEnds(s, t);
  }

  lemma LedIsWellFormed(acts: seq<Action>, s: State, t: State)
    requires Exec(Init(true), acts) == Some(s) && Leads(s, t)
    ensures WellFormed(t.dispatcher)
  {
    RunKeepsInv(Init(true), acts);
    RunKeepsCalls(Init(true), acts);
    InstalledIsConstant(Init(true), acts);
    var more :| HonestRun(s, more) && Exec(s, more) == Some(t);
    RunKeepsCalls(s, more);
    InstalledIsConstant(s, more);
  }

  // ---------------------------------------------------------------- refusals and pauses

  /** A record is refused only by a stream that is closing or closed, or has no offset left. */
  lemma AdmissionIsExact(s: State, p: Payload)
    requires Reachable(s)
    ensures Step(s, Admit(p)).None? <==> s.control.closing || s.control.bufClosed || |s.records.ingested| > MAX_INT64
  {
    ReachableInv(s);
  }

  /** A paused connection that still runs has something in flight to wait for. */
  ghost predicate PauseInv(s: State)
  {
    s.conn.Some? && s.conn.value.paused && !s.conn.value.exited ==> s.records.flight != []
  }

  lemma AckKeepsPause(s: State, off: int)
    requires Inv(s) && PauseInv(s) && Step(s, ReceiveAck(off)).Some?
    ensures PauseInv(Step(s, ReceiveAck(off)).value)
  {
    var d, c := s.records, s.conn.value;
    if c.rx.lastAcked < off < Recorded(c.rx) {
      AckApplies(d, c, off);
    }
  }

  lemma EventKeepsPause(s: State)
    requires Inv(s) && PauseInv(s) && Step(s, HandleEvent).Some?
    ensures PauseInv(Step(s, HandleEvent).value)
  {
    EventApplies(s.records, s.conn.value);
  }

  lemma StepKeepsPause(s: State, a: Action)
    requires Inv(s) && PauseInv(s) && Step(s, a).Some?
    ensures PauseInv(Step(s, a).value)
  {
    if a.ReceiveAck? {
      AckKeepsPause(s, a.off);
    } else if a.HandleEvent? {
      EventKeepsPause(s);
    }
  }

  lemma {:induction false} RunKeepsPause(s: State, acts: seq<Action>)
    requires Inv(s) && PauseInv(s) && Exec(s, acts).Some?
    ensures PauseInv(Exec(s, acts).value)
    decreases |acts|
  {
    if acts != [] {
      StepKeepsPause(s, acts[0]);
      StepKeepsInv(s, acts[0]);
      RunKeepsPause(Step(s, acts[0]).value, acts[1..]);
    }
  }

  /** In every state a connection that was asked to pause has ended, or is still waiting for something in flight. */
  lemma PauseEndsWhenIdle(s: State)
    requires Reachable(s) && s.conn.Some? && s.conn.value.paused && s.records.flight == []
    ensures s.conn.value.exited
  {
    var hasCallback, acts :| Exec(Init(hasCallback), acts) == Some(s);
    RunKeepsPause(Init(hasCallback), acts);
  }

  /** A server's pause takes hold at once, and for as long as the connection lasts. */
  lemma PauseTakesHold(s: State, a: Action)
    requires Reachable(s) && s.conn.Some? && Step(s, a).Some? && Step(s, a).value.conn.Some?
    ensures Step(s, a).value.conn.value.paused <==> s.conn.value.paused || a.ReceivePause?
  {
  }

  // ---------------------------------------------------------------- the end reaches those who wait

  lemma {:induction false} RunKeepsTerminal(s: State, acts: seq<Action>, t: State)
    requires Exec(s, acts) == Some(t) && (s.control.wmTerminal <==> s.control.phase != Running)
    ensures t.control.wmTerminal <==> t.control.phase != Running
    decreases |acts|
  {
    if acts != [] {
      StepKeepsTerminal(s, acts[0], Step(s, acts[0]).value);
      RunKeepsTerminal(Step(s, acts[0]).value, acts[1..], t);
    }
  }

  lemma StepKeepsTerminal(s: State, a: Action, t: State)
    requires Step(s, a) == Some(t) && (s.control.wmTerminal <==> s.control.phase != Running)
    ensures t.control.wmTerminal <==> t.control.phase != Running
  {
  }

  /** Whoever waits for the watermark is told of the end if and only if the supervisor has given up. */
  lemma WaitersLearnOfTheEnd(hasCallback: bool, acts: seq<Action>, s: State)
    requires Exec(Init(hasCallback), acts) == Some(s)
    ensures s.control.wmTerminal <==> s.control.phase != Running
  {
    RunKeepsTerminal(Init(hasCallback), acts, s);
  }

  /** Close can always end the stream by itself, whether or not the supervisor would give up. */
  lemma CloseCanEnd(s: State)
    requires Reachable(s) && s.control.closing && s.control.phase == Running
    ensures exists t :: Leads(s, t)
              && t.control.phase == Done && t.control.cancelled && t.records.ingested == s.records.ingested
  {
    ReachableInv(s);
    LeadsNowhere(s);
    var t := Next(s, s, CancelSupervisor);
    LedKeepsInv(s, t);
    t := Disconnect(s, t);
    var u := t;
    t := Next(s, t, Leave);
    assert t.records.ingested == u.records.ingested;
  }

  // ---------------------------------------------------------------- inside Send

  ghost predicate SendGoesOn(s: State)
  {
    s.conn.Some? && s.conn.value.pc.Sending? ==> !s.conn.value.stopped
  }

  lemma StepKeepsSend(s: State, a: Action, t: State)
    requires SendGoesOn(s) && Step(s, a) == Some(t)
    ensures SendGoesOn(t)
  {
  }

  lemma {:induction false} RunKeepsSend(s: State, acts: seq<Action>, t: State)
    requires SendGoesOn(s) && Exec(s, acts) == Some(t)
    ensures SendGoesOn(t)
    decreases |acts|
  {
    if acts != [] {
      StepKeepsSend(s, acts[0], Step(s, acts[0]).value);
      RunKeepsSend(Step(s, acts[0]).value, acts[1..], t);
    }
  }

  /** A connection is not torn down while its sender is inside Send; the sender first reports how that ended. */
  lemma TeardownWaitsForSend(hasCallback: bool, acts: seq<Action>, s: State)
    requires Exec(Init(hasCallback), acts) == Some(s) && s.conn.Some? && s.conn.value.pc.Sending?
    ensures Step(s, Teardown).None?
  {
    RunKeepsSend(Init(hasCallback), acts, s);
  }
}
