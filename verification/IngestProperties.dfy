/**
 What the ingestion core promises over whole runs: acknowledged records are durable, nothing
 is lost or duplicated between the watermark and the hand-back of unacknowledged records, an
 honest server is never refused, the two channels between sender and receiver never block,
 and every ingested offset gets exactly one callback.
 */
module IngestProperties {
  import opened Common
  import opened IngestCore

  // ---------------------------------------------------------------- runs

  /** The state after performing `acts` one after the other, or None if one of them cannot happen. */
  function Exec(s: State, acts: seq<Action>): (r: Option<State>)
    decreases |acts|
  {
    if acts == [] then Some(s)
    else (match Step(s, acts[0]) case None => None case Some(t) => Exec(t, acts[1..]))
  }

  /** Safety over whole runs, whatever the server sends. */
  lemma {:induction false} RunKeepsInv(s: State, acts: seq<Action>)
    requires Inv(s) && Exec(s, acts).Some?
    ensures Inv(Exec(s, acts).value)
    decreases |acts|
  {
    if acts != [] {
      StepKeepsInv(s, acts[0]);
      RunKeepsInv(Step(s, acts[0]).value, acts[1..]);
    }
  }

  /** `s` is reached by some run, the server sending whatever it likes. */
  ghost predicate Reachable(s: State)
  {
    exists hasCallback, acts :: Exec(Init(hasCallback), acts) == Some(s)
  }

  lemma ReachableInv(s: State)
    requires Reachable(s)
    ensures Inv(s)
  {
    var hasCallback, acts :| Exec(Init(hasCallback), acts) == Some(s);
    RunKeepsInv(Init(hasCallback), acts);
  }

  /** What has been ingested is never rewritten, and the watermark never goes back. */
  lemma AckIsMonotone(d: Records, c: Conn, off: int)
    requires Ledger(d) && Link(d, c) && ReceiverStep(d, c, ReceiveAck(off)).Some?
    ensures var f := ReceiverStep(d, c, ReceiveAck(off)).value.1;
            f.Applied? ==> d.ingested <= f.records.ingested && d.wm <= f.records.wm
  {
    if c.rx.lastAcked < off < Recorded(c.rx) { AckApplies(d, c, off); }
  }

  lemma EventIsMonotone(d: Records, c: Conn)
    requires Ledger(d) && Link(d, c) && ReceiverStep(d, c, HandleEvent).Some?
    ensures var f := ReceiverStep(d, c, HandleEvent).value.1;
            f.Applied? ==> d.ingested <= f.records.ingested && d.wm <= f.records.wm
  {
    EventApplies(d, c);
  }

  lemma StepIsMonotone(s: State, a: Action)
    requires Inv(s) && Step(s, a).Some?
    ensures var t := Step(s, a).value;
            s.records.ingested <= t.records.ingested && s.records.wm <= t.records.wm
  {
    if a.HandleEvent? {
      EventIsMonotone(s.records, s.conn.value);
    } else if a.ReceiveAck? {
      AckIsMonotone(s.records, s.conn.value, a.off);
    }
  }

  lemma {:induction false} RunIsMonotone(s: State, acts: seq<Action>)
    requires Inv(s) && Exec(s, acts).Some?
    ensures var t := Exec(s, acts).value;
            s.records.ingested <= t.records.ingested && s.records.wm <= t.records.wm
    decreases |acts|
  {
    if acts != [] {
      StepIsMonotone(s, acts[0]);
      StepKeepsInv(s, acts[0]);
      RunIsMonotone(Step(s, acts[0]).value, acts[1..]);
    }
  }

  // ---------------------------------------------------------------- what was ingested

  /** The payloads given to Ingest in a run, in order; this is about the run alone, not about what its steps do. */
  function Admitted(acts: seq<Action>): seq<Payload>
  {
    if acts == [] then []
    else (if acts[0].Admit? then [acts[0].payload] else []) + Admitted(acts[1..])
  }

  lemma StepIngests(s: State, a: Action)
    requires Inv(s) && Step(s, a).Some?
    ensures Step(s, a).value.records.ingested == s.records.ingested + (if a.Admit? then [a.payload] else [])
  {
    if a.HandleEvent? || a.ReceiveAck? {
      ReceiverFrame(s, a);
    }
  }

  lemma AdmittedFirst(was: seq<Payload>, acts: seq<Action>)
    requires acts != []
    ensures was + Admitted(acts) == was + (if acts[0].Admit? then [acts[0].payload] else []) + Admitted(acts[1..])
  {
  }

  lemma {:induction false} RunIngests(s: State, acts: seq<Action>, t: State)
    requires Inv(s) && Exec(s, acts) == Some(t)
    ensures t.records.ingested == s.records.ingested + Admitted(acts)
    decreases |acts|
  {
    if acts != [] {
      StepIngests(s, acts[0]);
      StepKeepsInv(s, acts[0]);
      AdmittedFirst(s.records.ingested, acts);
      RunIngests(Step(s, acts[0]).value, acts[1..], t);
    }
  }

  /** Every run records exactly what was ingested in it: record o is what the call that got offset o was given. */
  lemma IngestedIsAdmitted(hasCallback: bool, acts: seq<Action>)
    requires Exec(Init(hasCallback), acts).Some?
    ensures Exec(Init(hasCallback), acts).value.records.ingested == Admitted(acts)
  {
    RunIngests(Init(hasCallback), acts, Exec(Init(hasCallback), acts).value);
    assert [] + Admitted(acts) == Admitted(acts);
  }

  // ---------------------------------------------------------------- durability

  /** An honest server acknowledges only what it has made durable on this connection. */
  ghost predicate Honest(s: State, a: Action)
  {
    a.ReceiveAck? && a.off >= 0 && s.conn.Some? ==> a.off < s.conn.value.durable
  }

  ghost predicate HonestRun(s: State, acts: seq<Action>)
    decreases |acts|
  {
    acts != [] ==> Honest(s, acts[0]) && (Step(s, acts[0]).Some? ==> HonestRun(Step(s, acts[0]).value, acts[1..]))
  }

  /** Everything below `n` is durable, as ingested. */
  ghost predicate DurableBelow(ingested: seq<Payload>, stored: set<Item>, n: int)
  {
    n <= |ingested| && forall o :: 0 <= o < n ==> Item(o, ingested[o]) in stored
  }

  /** Where durability is known to reach: what the live connection made durable, or the watermark. */
  function Frontier(s: State): int
  {
    if s.conn.Some? then s.conn.value.base + s.conn.value.durable else s.records.wm + 1
  }

  ghost predicate Durability(s: State)
  {
    && DurableBelow(s.records.ingested, s.stored, Frontier(s))
    && s.records.wm < Frontier(s)
    && (s.conn.Some? ==> s.conn.value.rx.lastAcked < s.conn.value.durable && s.conn.value.rx.pendingAck < s.conn.value.durable)
  }

  lemma PersistKeepsDurability(s: State)
    requires Inv(s) && Durability(s) && Step(s, Persist).Some?
    ensures Durability(Step(s, Persist).value)
  {
    var c := s.conn.value;
    assert c.wire[c.durable] == Item(c.base + c.durable, s.records.ingested[c.base + c.durable]);
  }

  /** The receiver's variables after an event or an honest ack still trail what is durable. */
  lemma ReceiverTrailsDurable(s: State, a: Action)
    requires Inv(s) && Durability(s) && Honest(s, a) && Step(s, a).Some?
    requires a.HandleEvent? || a.ReceiveAck?
    ensures var rx := Step(s, a).value.conn.value.rx;
            rx.lastAcked < s.conn.value.durable && rx.pendingAck < s.conn.value.durable
    ensures Step(s, a).value.records.wm < Frontier(s)
  {
    if a.ReceiveAck? {
      AckTrailsDurable(s, a.off);
    } else {
      EventTrailsDurable(s);
    }
  }

  lemma AckTrailsDurable(s: State, off: int)
    requires Inv(s) && Durability(s) && Honest(s, ReceiveAck(off)) && Step(s, ReceiveAck(off)).Some?
    ensures var rx := Step(s, ReceiveAck(off)).value.conn.value.rx;
            rx.lastAcked < s.conn.value.durable && rx.pendingAck < s.conn.value.durable
    ensures Step(s, ReceiveAck(off)).value.records.wm < Frontier(s)
  {
    if s.conn.value.rx.lastAcked < off < Recorded(s.conn.value.rx) {
      AckApplies(s.records, s.conn.value, off);
    }
  }

  lemma EventTrailsDurable(s: State)
    requires Inv(s) && Durability(s) && Step(s, HandleEvent).Some?
    ensures var rx := Step(s, HandleEvent).value.conn.value.rx;
            rx.lastAcked < s.conn.value.durable && rx.pendingAck < s.conn.value.durable
    ensures Step(s, HandleEvent).value.records.wm < Frontier(s)
  {
    EventApplies(s.records, s.conn.value);
  }

  /** Steps of the receiver leave the server's side of the connection and the ingested records alone. */
  lemma ReceiverFrame(s: State, a: Action)
    requires Inv(s) && Step(s, a).Some?
    requires a.HandleEvent? || a.ReceiveAck?
    ensures var t := Step(s, a).value;
            && t.conn.Some? && t.conn.value.base == s.conn.value.base && t.conn.value.durable == s.conn.value.durable
            && t.records.ingested == s.records.ingested && t.stored == s.stored
  {
    if a.HandleEvent? {
      EventKeepsLink(s.records, s.conn.value);
    } else {
      AckKeepsLink(s.records, s.conn.value, a.off);
    }
  }

  lemma StepKeepsDurability(s: State, a: Action)
    requires Inv(s) && Durability(s) && Honest(s, a) && Step(s, a).Some?
    ensures Durability(Step(s, a).value)
  {
    if a.Persist? {
      PersistKeepsDurability(s);
    } else if a.HandleEvent? || a.ReceiveAck? {
      ReceiverTrailsDurable(s, a);
      ReceiverFrame(s, a);
    } else {
      OtherStepFrame(s, a);
      StepIsMonotone(s, a);
    }
  }

  lemma OtherStepFrame(s: State, a: Action)
    requires Inv(s) && Durability(s) && Step(s, a).Some?
    requires !a.Persist? && !a.HandleEvent? && !a.ReceiveAck?
    ensures var t := Step(s, a).value;
            && t.stored == s.stored && t.records.wm < Frontier(t) <= Frontier(s)
            && (t.conn.Some? ==> t.conn.value.rx.lastAcked < t.conn.value.durable && t.conn.value.rx.pendingAck < t.conn.value.durable)
  {
  }

  lemma {:induction false} RunKeepsDurability(s: State, acts: seq<Action>)
    requires Inv(s) && Durability(s) && HonestRun(s, acts) && Exec(s, acts).Some?
    ensures Inv(Exec(s, acts).value) && Durability(Exec(s, acts).value)
    decreases |acts|
  {
    if acts != [] {
      StepKeepsInv(s, acts[0]);
      StepKeepsDurability(s, acts[0]);
      RunKeepsDurability(Step(s, acts[0]).value, acts[1..]);
    }
  }

  /** `s` is reached by some run in which the server is honest. */
  ghost predicate HonestlyReachable(s: State)
  {
    exists hasCallback, acts :: HonestRun(Init(hasCallback), acts) && Exec(Init(hasCallback), acts) == Some(s)
  }

  lemma HonestlyReachableInv(s: State)
    requires HonestlyReachable(s)
    ensures Inv(s) && Durability(s)
  {
    var hasCallback, acts :| HonestRun(Init(hasCallback), acts) && Exec(Init(hasCallback), acts) == Some(s);
    RunKeepsDurability(Init(hasCallback), acts);
  }

  lemma TargetIsStored(s: State, acts: seq<Action>)
    requires HonestlyReachable(s) && HonestRun(s, acts) && Exec(s, acts).Some?
    requires Exec(s, acts).value.records.wm >= s.control.lastEnqueued
    ensures forall o :: 0 <= o < |s.records.ingested| ==>
              Item(o, s.records.ingested[o]) in Exec(s, acts).value.stored
  {
    HonestlyReachableInv(s);
    RunKeepsDurability(s, acts);
    RunIsMonotone(s, acts);
    var t := Exec(s, acts).value;
    assert forall o :: 0 <= o < |s.records.ingested| ==> s.records.ingested[o] == t.records.ingested[o];
  }

  /**
   Flush.  It reads lastEnqueued as its target and returns nil once the watermark has reached
   it.  By then the server durably holds every record given to Ingest before the call, under its
   offset, however many connections broke in between.
   */
  lemma FlushMeansDurable(hasCallback: bool, before: seq<Action>, s: State, during: seq<Action>, t: State)
    requires HonestRun(Init(hasCallback), before) && Exec(Init(hasCallback), before) == Some(s)
    requires HonestRun(s, during) && Exec(s, during) == Some(t)
    requires t.records.wm >= s.control.lastEnqueued
    ensures forall o :: 0 <= o < |Admitted(before)| ==> Item(o, Admitted(before)[o]) in t.stored
  {
    assert HonestlyReachable(s);
    TargetIsStored(s, during);
    IngestedIsAdmitted(hasCallback, before);
  }

  // ---------------------------------------------------------------- an honest server is not refused

  /**
   An ack an honest server sends is refused, ending the connection, exactly when it is for the
   message whose Send failed on this connection: that message may be durable although its
   sender was told otherwise.
   */
  lemma HonestAckRefusedIff(s: State, off: int)
    requires HonestlyReachable(s) && s.conn.Some?
    requires 0 <= off < s.conn.value.durable
    requires ReceiverStep(s.records, s.conn.value, ReceiveAck(off)).Some?
    ensures var c := s.conn.value;
            ReceiverStep(s.records, c, ReceiveAck(off)).value.1.Refused?
            <==> c.pc.Reported? && !c.pc.ok && off == c.physical
  {
    HonestlyReachableInv(s);
    var d, c := s.records, s.conn.value;
    if c.rx.lastAcked < off < Recorded(c.rx) {
      AckApplies(d, c, off);
    }
  }

  /**
   An ack that arrives while its message is still being sent is held.  When the receiver handles
   the completion of that send, it is applied in full if the send reports no error; otherwise
   it is dropped, honest or not, and the watermark stays where it was.
   */
  lemma HeldAckIsAppliedExactly(s: State)
    requires Reachable(s) && s.conn.Some? && Step(s, HandleEvent).Some?
    requires s.conn.value.rx.pendingAck >= 0 && s.conn.value.events[0].Completed?
    ensures var t := Step(s, HandleEvent).value; var c := s.conn.value;
            && (t.records.wm == c.base + c.rx.pendingAck <==> c.events[0].ok)
            && t.conn.value.rx.pendingAck == -1
            && (!c.events[0].ok ==> t.records == s.records && t.dispatcher == s.dispatcher)
  {
    ReachableInv(s);
    var d, c := s.records, s.conn.value;
    RecordKeepsLink(d, c);
    EventApplies(d, c);
  }

  /** The receiver of the live connection holds an ack for message `off` until its send completes. */
  predicate HoldsAck(s: State, off: int)
  {
    s.conn.Some? && !s.conn.value.exited && 0 <= off == s.conn.value.rx.pendingAck
  }

  /** The receiver handles that the send of the message completed without error. */
  predicate CompletesOk(c: Conn, a: Action)
  {
    a.HandleEvent? && c.events != [] && c.events[0].Completed? && c.events[0].ok
  }

  /**
   It handles that the send failed; it ends on an error of its own, without looking at the send;
   or a response is malformed or acknowledges what comes after the message being sent.
   */
  predicate DropsHeld(c: Conn, a: Action)
  {
    || (a.HandleEvent? && c.events != [] && c.events[0].Completed? && !c.events[0].ok)
    || a == ExitReceiver(false)
    || (a.ReceiveAck? && (a.off < 0 || a.off > c.rx.pendingAck))
  }

  /** A held ack is for the message being sent, which comes right after those recorded and is in flight. */
  lemma HeldIsBeingSent(d: Records, c: Conn)
    requires Ledger(d) && Link(d, c) && !c.exited && c.rx.pendingAck >= 0
    ensures c.rx.pendingAck == c.rx.sendingPhysical == c.physical == Recorded(c.rx)
    ensures c.events == [] || (|c.events| == 1 && c.events[0].Completed? && c.events[0].physical == c.physical)
    ensures c.rx.lastAcked < c.rx.pendingAck && d.wm == c.base + c.rx.lastAcked && |d.flight| > c.rx.pendingAck - c.rx.lastAcked - 1
  {
  }

  lemma HeldThroughEvent(s: State, off: int)
    requires Inv(s) && HoldsAck(s, off) && Step(s, HandleEvent).Some?
    ensures var t, c := Step(s, HandleEvent).value, s.conn.value;
      && (if CompletesOk(c, HandleEvent) then t.records.wm == c.base + off
          else DropsHeld(c, HandleEvent) && t.records == s.records)
      && !HoldsAck(t, off)
  {
    HeldIsBeingSent(s.records, s.conn.value);
    RecordKeepsLink(s.records, s.conn.value);
    EventApplies(s.records, s.conn.value);
  }

  lemma HeldThroughAck(s: State, off: int, n: int)
    requires Inv(s) && HoldsAck(s, off) && Step(s, ReceiveAck(n)).Some?
    ensures var t, c := Step(s, ReceiveAck(n)).value, s.conn.value;
      && t.records.wm < c.base + off
      && if DropsHeld(c, ReceiveAck(n)) then t.records == s.records && !HoldsAck(t, off)
         else HoldsAck(t, off) && t.conn.value.base == c.base
  {
    var d, c := s.records, s.conn.value;
    HeldIsBeingSent(d, c);
    if c.rx.lastAcked < n < off {
      AckApplies(d, c, n);
    }
  }

  lemma HeldThroughOther(s: State, off: int, a: Action)
    requires Inv(s) && HoldsAck(s, off) && Step(s, a).Some? && !a.HandleEvent? && !a.ReceiveAck?
    ensures var t := Step(s, a).value;
      && t.records.wm == s.records.wm && (a == ExitReceiver(false) ==> t.records == s.records)
      && (HoldsAck(t, off) <==> a != ExitReceiver(false))
      && (HoldsAck(t, off) ==> t.conn.value.base == s.conn.value.base)
  {
    HeldIsBeingSent(s.records, s.conn.value);
  }

  /** Over any step a held ack is kept, applied or lost; which one is decided by the step, and a loss changes no record. */
  lemma HeldAckStep(s: State, off: int, a: Action)
    requires Inv(s) && HoldsAck(s, off) && Step(s, a).Some?
    ensures var t, c := Step(s, a).value, s.conn.value;
      && s.records.wm < c.base + off
      && (t.records.wm >= c.base + off <==> CompletesOk(c, a))
      && (!HoldsAck(t, off) && t.records.wm < c.base + off <==> DropsHeld(c, a))
      && (DropsHeld(c, a) ==> t.records == s.records)
      && (HoldsAck(t, off) ==> t.conn.value.base == c.base && t.records.wm < c.base + off)
  {
    HeldIsBeingSent(s.records, s.conn.value);
    if a.HandleEvent? {
      HeldThroughEvent(s, off);
    } else if a.ReceiveAck? {
      HeldThroughAck(s, off, a.off);
    } else {
      HeldThroughOther(s, off, a);
    }
  }

  ghost predicate HeldUntil(s: State, off: int, acts: seq<Action>, k: nat)
    requires k <= |acts|
  {
    forall j :: 0 <= j <= k ==> Exec(s, acts[..j]).Some? && HoldsAck(Exec(s, acts[..j]).value, off)
  }

  /** In this step the ack for the message at `mark` is applied or lost. */
  ghost predicate LetsGo(u: State, a: Action, mark: int)
  {
    && u.conn.Some? && Step(u, a).Some?
    && (Step(u, a).value.records.wm >= mark <==> CompletesOk(u.conn.value, a))
    && (Step(u, a).value.records.wm < mark <==> DropsHeld(u.conn.value, a))
  }

  lemma HeldOneMore(s: State, off: int, acts: seq<Action>, m: nat)
    requires acts != [] && m < |acts| && HoldsAck(s, off) && Step(s, acts[0]).Some?
    requires HeldUntil(Step(s, acts[0]).value, off, acts[1..], m)
    ensures HeldUntil(s, off, acts, m + 1)
    ensures Exec(s, acts[..m + 1]) == Exec(Step(s, acts[0]).value, acts[1..][..m])
  {
    forall j | 0 < j <= m + 1 ensures Exec(s, acts[..j]) == Exec(Step(s, acts[0]).value, acts[1..][..j - 1]) {
      assert acts[..j][1..] == acts[1..][..j - 1];
    }
    assert Exec(s, acts[..0]) == Some(s);
  }

  /**
   Over any run an ack is held up to some step k.  If the run goes on, step k lets it go, with the
   watermark moved to it unless the step is one of those that drop it, and exactly then.
   */
  lemma {:induction false} HeldAckIsLostExactly(s: State, off: int, acts: seq<Action>) returns (k: nat)
    requires Inv(s) && HoldsAck(s, off) && Exec(s, acts).Some?
    ensures k <= |acts| && HeldUntil(s, off, acts, k)
    ensures k < |acts| ==> LetsGo(Exec(s, acts[..k]).value, acts[k], s.conn.value.base + off)
    decreases |acts|
  {
    k := 0;
    assert Exec(s, acts[..0]) == Some(s);
    if acts != [] {
      var t := Step(s, acts[0]).value;
      HeldAckStep(s, off, acts[0]);
      if HoldsAck(t, off) {
        StepKeepsInv(s, acts[0]);
        var m := HeldAckIsLostExactly(t, off, acts[1..]);
        HeldOneMore(s, off, acts, m);
        k := m + 1;
      }
    }
  }

  lemma {:induction false} ExecSnoc(s: State, acts: seq<Action>, a: Action)
    requires Exec(s, acts).Some? && HonestRun(s, acts) && Honest(Exec(s, acts).value, a)
    ensures Exec(s, acts + [a]) == Step(Exec(s, acts).value, a)
    ensures HonestRun(s, acts + [a])
    decreases |acts|
  {
    if acts == [] {
      assert acts + [a] == [a];
      assert [a][1..] == [];
    } else {
      assert (acts + [a])[1..] == acts[1..] + [a];
      ExecSnoc(Step(s, acts[0]).value, acts[1..], a);
    }
  }

  lemma HonestlyGoesOn(s: State, a: Action, t: State)
    requires HonestlyReachable(s) && Honest(s, a) && Step(s, a) == Some(t)
    ensures HonestlyReachable(t)
  {
    var hasCallback, acts :| HonestRun(Init(hasCallback), acts) && Exec(Init(hasCallback), acts) == Some(s);
    ExecSnoc(Init(hasCallback), acts, a);
  }

  lemma RecordIsPublished(p: Payload, s: State) returns (t: State)
    requires HonestlyReachable(s) && s.records == Records([Item(0, p)], [], [], -1, [p]) && !s.control.cancelled
    requires s.conn == Some(Conn(Idle, false, 0, [], 0, Receiver(-1, -1, -1, -1, 0, []), false, false, [], 0, 0))
    ensures HonestlyReachable(t) && t.conn.Some? && t.records == Records([], [Item(0, p)], [], -1, [p])
    ensures Item(0, p) in t.stored && t.control == s.control
    ensures var it := Item(0, p);
      t.conn.value == Conn(Sending(it), false, 0, [Started(0, 0)], 0, Receiver(-1, -1, -1, -1, 0, []), false, false, [it], 1, 0)
  {
    t := HonestStep(s, TakeNext);
    t := HonestStep(t, Publish);
    t := HonestStep(t, Persist);
  }

  /** A record is admitted and sent, and the server makes it durable. */
  lemma RecordIsSent(p: Payload) returns (s: State)
    ensures HonestlyReachable(s) && s.conn.Some? && s.records == Records([], [Item(0, p)], [], -1, [p])
    ensures Item(0, p) in s.stored && s.control == Control(1, false, 0, false, false, false, false, Running)
    ensures var it := Item(0, p);
      s.conn.value == Conn(Sending(it), false, 0, [Started(0, 0)], 0, Receiver(-1, -1, -1, -1, 0, []), false, false, [it], 1, 0)
  {
    assert HonestRun(Init(false), []) && Exec(Init(false), []) == Some(Init(false));
    s := HonestStep(Init(false), Admit(p));
    s := HonestStep(s, Open);
    s := RecordIsPublished(p, s);
  }

  lemma HonestStep(s: State, a: Action) returns (t: State)
    requires HonestlyReachable(s) && !a.ReceiveAck? && Step(s, a).Some?
    ensures Step(s, a) == Some(t) && HonestlyReachable(t)
  {
    t := Step(s, a).value;
    HonestlyGoesOn(s, a, t);
  }

  /** It does happen: the send reports an error, yet the server has the record, and its ack is refused. */
  lemma HonestAckCanBeRefused(p: Payload) returns (s: State)
    ensures HonestlyReachable(s) && s.conn.Some? && 0 < s.conn.value.durable
    ensures var r := ReceiverStep(s.records, s.conn.value, ReceiveAck(0)); r.Some? && r.value.1.Refused?
  {
    s := RecordIsSent(p);
    s := HonestStep(s, SendReturns(false));
    s := HonestStep(s, HandleEvent);
    s := HonestStep(s, HandleEvent);
  }

  /** The receiver holds the ack of a record that is durable, and the send has not returned. */
  lemma AckIsHeld(p: Payload) returns (s: State)
    ensures HonestlyReachable(s) && HoldsAck(s, 0) && 0 < s.conn.value.durable && Item(0, p) in s.stored
    ensures s.records == Records([], [Item(0, p)], [], -1, [p])
    ensures s.control == Control(1, false, 0, false, false, false, false, Running)
    ensures var it := Item(0, p);
      s.conn.value == Conn(Sending(it), false, 0, [], 0, Receiver(-1, 0, 0, 0, 0, []), false, false, [it], 1, 0)
  {
    var sent := RecordIsSent(p);
    var heard := HonestStep(sent, HandleEvent);
    s := Step(heard, ReceiveAck(0)).value;
    HonestlyGoesOn(heard, ReceiveAck(0), s);
  }

  /** So does the other: the ack comes first and is held, the send then reports an error, and the ack is dropped. */
  lemma HonestAckCanBeDropped(p: Payload) returns (s: State)
    ensures HonestlyReachable(s) && s.conn.Some? && Step(s, HandleEvent).Some?
    ensures s.conn.value.rx.pendingAck == 0 < s.conn.value.durable
    ensures s.conn.value.events[0].Completed? && !s.conn.value.events[0].ok
  {
    s := AckIsHeld(p);
    s := HonestStep(s, SendReturns(false));
  }

  /**
   And the third: the receiver ends on an error while it holds the ack, and a record that was sent
   without error and is stored is queued again.
   */
  lemma HeldAckCanBeLost(p: Payload) returns (s: State, t: State)
    ensures HonestlyReachable(s) && HoldsAck(s, 0) && 0 < s.conn.value.durable && HonestlyReachable(t)
    ensures DropsHeld(s.conn.value, ExitReceiver(false))
    ensures Exec(s, [ExitReceiver(false), SendReturns(true), StopSender, Teardown, Open]) == Some(t)
    ensures t.records.wm == -1 && t.records.queue == [Item(0, p)] && Item(0, p) in t.stored
  {
    s := AckIsHeld(p);
    var stopped := EndsUnresolved(s);
    t := Reopens(stopped);
    ExecConcat(s, [ExitReceiver(false), SendReturns(true), StopSender], stopped, [Teardown, Open]);
    assert [ExitReceiver(false), SendReturns(true), StopSender] + [Teardown, Open]
        == [ExitReceiver(false), SendReturns(true), StopSender, Teardown, Open];
  }

  lemma EndsUnresolved(s: State) returns (t: State)
    requires HonestlyReachable(s) && s.conn.Some? && s.conn.value.pc.Sending? && s.conn.value.events == []
    ensures HonestlyReachable(t) && Exec(s, [ExitReceiver(false), SendReturns(true), StopSender]) == Some(t)
    ensures t.conn.Some? && t.conn.value.stopped && t.conn.value.exited
    ensures t.records == s.records && t.control == s.control && t.stored == s.stored
  {
    var ended := HonestStep(s, ExitReceiver(false));
    t := SendsAndStops(ended);
    ExecThen(s, ExitReceiver(false), ended, [SendReturns(true), StopSender], t);
  }

  lemma SendsAndStops(s: State) returns (t: State)
    requires HonestlyReachable(s) && s.conn.Some? && s.conn.value.pc.Sending? && s.conn.value.events == []
    ensures HonestlyReachable(t) && Exec(s, [SendReturns(true), StopSender]) == Some(t)
    ensures t.conn.Some? && t.conn.value.stopped && t.conn.value.exited == s.conn.value.exited
    ensures t.records == s.records && t.control == s.control && t.stored == s.stored
  {
    var sent := HonestStep(s, SendReturns(true));
    t := HonestStep(sent, StopSender);
    assert Exec(t, []) == Some(t);
    ExecThen(sent, StopSender, t, [], t);
    ExecThen(s, SendReturns(true), sent, [StopSender], t);
  }

  lemma {:induction false} ExecConcat(s: State, a: seq<Action>, t: State, b: seq<Action>)
    requires Exec(s, a) == Some(t)
    ensures Exec(s, a + b) == Exec(t, b)
    decreases |a|
  {
    if a == [] {
      assert a + b == b;
    } else {
      assert (a + b)[1..] == a[1..] + b;
      ExecConcat(Step(s, a[0]).value, a[1..], t, b);
    }
  }

  lemma ExecThen(s: State, a: Action, t: State, rest: seq<Action>, u: State)
    requires Step(s, a) == Some(t) && Exec(t, rest) == Some(u)
    ensures Exec(s, [a] + rest) == Some(u)
  {
    assert ([a] + rest)[1..] == rest;
  }

  lemma Reopens(s: State) returns (t: State)
    requires HonestlyReachable(s) && s.control.phase == Running
    requires s.conn.Some? && s.conn.value.stopped && s.conn.value.exited
    ensures HonestlyReachable(t) && Exec(s, [Teardown, Open]) == Some(t)
    ensures t.records == s.records.(queue := s.records.flight + s.records.queue, flight := []) && t.stored == s.stored
  {
    var down := HonestStep(s, Teardown);
    t := HonestStep(down, Open);
    assert Exec(t, []) == Some(t);
    ExecThen(down, Open, t, [], t);
    ExecThen(s, Teardown, down, [Open], t);
  }

  /** An honest server's further acks cannot be the reason. */
  lemma HonestAcksDropNothing(s: State, off: int, n: nat)
    requires HonestlyReachable(s) && HoldsAck(s, off) && Honest(s, ReceiveAck(n))
    ensures !DropsHeld(s.conn.value, ReceiveAck(n))
  {
    HonestlyReachableInv(s);
    HeldIsBeingSent(s.records, s.conn.value);
  }

  /**
   Neither channel ever blocks: there is room for the sender's start and completion reports,
   and for the receiver's turn token, whenever one is to be put in; and a completion is never
   out of sequence.
   */
  lemma ChannelsNeverBlock(s: State)
    requires Reachable(s) && s.conn.Some?
    ensures var c := s.conn.value;
            && (c.pc.Got? || c.pc.Sending? ==> |c.events| < 2)
            && (c.events != [] && c.events[0].Completed? ==> c.consumed == 0)
            && (c.events != [] && c.events[0].Completed? ==> c.events[0].physical == Recorded(c.rx))
            && (c.events != [] && !c.exited ==> Step(s, HandleEvent).Some?)
  {
    ReachableInv(s);
  }

  // ---------------------------------------------------------------- conservation and replay

  /** The records of `payloads` above the watermark, in offset order. */
  function Above(payloads: seq<Payload>, wm: int): (items: seq<Item>)
    requires -1 <= wm < |payloads|
  {
    seq(|payloads| - wm - 1, i requires 0 <= i < |payloads| - wm - 1 => Item(wm + 1 + i, payloads[wm + 1 + i]))
  }

  function Unacked(d: Records): (items: seq<Item>)
    requires -1 <= d.wm < |d.ingested|
  {
    Above(d.ingested, d.wm)
  }

  lemma LedgerIsUnacked(d: Records)
    requires Ledger(d)
    ensures d.retained + (d.flight + d.queue) == Unacked(d)
  {
    SliceConcat(d.flight, d.queue, d.ingested, d.wm + 1 + |d.retained|);
    SliceConcat(d.retained, d.flight + d.queue, d.ingested, d.wm + 1);
    var all, u := d.retained + (d.flight + d.queue), Unacked(d);
    assert |all| == |u|;
    assert forall i :: 0 <= i < |u| ==> all[i] == u[i];
  }

  /**
   A reconnect replays: all unacknowledged records and nothing else are queued again, in
   order, and the physical offsets of the new connection start at the first of them.
   */
  lemma ReconnectReplaysUnacked(s: State)
    requires Reachable(s) && Step(s, Open).Some?
    ensures var t := Step(s, Open).value;
            && -1 <= s.records.wm < |s.records.ingested|
            && t.records.queue == Unacked(s.records) && t.conn.value.base == s.records.wm + 1 && t.conn.value.wire == []
  {
    ReachableInv(s);
    RequeueIsUnacked(s.records);
    NothingRetained(s);
  }

  lemma RequeueIsUnacked(d: Records)
    requires Ledger(d)
    ensures -1 <= d.wm < |d.ingested| && (d.retained == [] ==> d.flight + d.queue == Unacked(d))
  {
    LedgerIsUnacked(d);
    assert [] + (d.flight + d.queue) == d.flight + d.queue;
  }

  lemma NothingRetained(s: State)
    requires Phases(s) && s.control.phase == Running
    ensures s.records.retained == []
  {
  }

  /** On every connection, physical offset k carries the record with logical offset base + k, as it was given to Ingest. */
  lemma WireInOrder(hasCallback: bool, acts: seq<Action>, s: State, k: nat)
    requires Exec(Init(hasCallback), acts) == Some(s) && s.conn.Some? && k < |s.conn.value.wire|
    ensures var c := s.conn.value;
            && 0 <= c.base + k < |Admitted(acts)|
            && c.wire[k] == Item(c.base + k, Admitted(acts)[c.base + k])
  {
    RunKeepsInv(Init(hasCallback), acts);
    IngestedIsAdmitted(hasCallback, acts);
  }

  lemma DoneStep(s: State, a: Action)
    requires Phases(s) && s.control.phase == Done && Step(s, a).Some?
    ensures var t := Step(s, a).value;
            t.control.phase == Done && t.records.ingested == s.records.ingested && t.records.wm == s.records.wm
  {
  }

  /** Once the supervisor is done, no step admits or acknowledges anything. */
  lemma {:induction false} DoneIsFinal(s: State, acts: seq<Action>)
    requires Inv(s) && s.control.phase == Done && Exec(s, acts).Some?
    ensures var t := Exec(s, acts).value;
            t.control.phase == Done && t.records.ingested == s.records.ingested && t.records.wm == s.records.wm
    decreases |acts|
  {
    if acts != [] {
      DoneStep(s, acts[0]);
      StepKeepsInv(s, acts[0]);
      DoneIsFinal(Step(s, acts[0]).value, acts[1..]);
    }
  }

  lemma RetainedIsStable(s: State, later: seq<Action>)
    requires Inv(s) && s.control.phase == Done && Exec(s, later).Some?
    ensures -1 <= s.records.wm < |s.records.ingested|
    ensures var t := Exec(s, later).value;
            Step(t, ReadUnacked).Some? && Step(t, ReadUnacked).value.records.retained == Unacked(s.records)
  {
    RunKeepsInv(s, later);
    DoneIsFinal(s, later);
    LedgerIsUnacked(s.records);
    LedgerIsUnacked(Exec(s, later).value.records);
    assert Unacked(Exec(s, later).value.records) == Unacked(s.records);
  }

  /**
   GetUnackedBatches.  After a close or a terminal failure it returns exactly the records that
   were given to Ingest and never acknowledged, in order, none lost and none twice, and every
   later call returns the same, whatever happens in between.
   */
  lemma UnackedIsExactAndStable(hasCallback: bool, before: seq<Action>, s: State, later: seq<Action>, t: State)
    requires Exec(Init(hasCallback), before) == Some(s) && s.control.phase == Done && Exec(s, later) == Some(t)
    ensures -1 <= s.records.wm < |Admitted(before)|
    ensures Step(s, ReadUnacked).Some? && Step(t, ReadUnacked).Some?
    ensures Step(s, ReadUnacked).value.records.retained == Above(Admitted(before), s.records.wm)
    ensures Step(t, ReadUnacked).value.records.retained == Above(Admitted(before), s.records.wm)
  {
    RunKeepsInv(Init(hasCallback), before);
    IngestedIsAdmitted(hasCallback, before);
    assert Exec(s, []) == Some(s);
    RetainedIsStable(s, []);
    RetainedIsStable(s, later);
  }
}
