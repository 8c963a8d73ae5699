/**
 What whole runs of an Arrow stream of the Rust core do, beyond conserving rows: the batches
 taken are those the calls were given, a pause stops sending, without recovery there is one
 connection, and from every state the stream can deliver what it holds or be closed.
 */
module ArrowProgress {
  import opened Common
  import opened ArrowReplay

  // ---------------------------------------------------------------- what was taken

  /**
   The batches a run queues and does not take out again, going on from `taken` with a call that
   has numbered `current`; this is about the run alone, not about what its steps do.
   */
  function TakenBy(recovery: bool, taken: seq<seq<Row>>, current: Option<seq<Row>>, run: seq<Action>): seq<seq<Row>>
    decreases |run|
  {
    if run == [] then taken
    else
      match run[0]
      case Number(rows) => TakenBy(recovery, taken, Some(rows), run[1..])
      case Queue => TakenBy(recovery, taken + (if current.Some? then [current.value] else []), None, run[1..])
      case DropCall => TakenBy(recovery, taken, None, run[1..])
      case SendFails =>
        TakenBy(recovery, if recovery || taken == [] then taken else taken[..|taken| - 1], None, run[1..])
      case _ => TakenBy(recovery, taken, current, run[1..])
  }

  function Current(c: Call): Option<seq<Row>>
  {
    if c.Numbered? then Some(c.rows) else None
  }

  lemma {:induction false} RunTakes(s: State, run: seq<Action>, s': State)
    requires Run(s, run) == Some(s')
    ensures s'.taken == TakenBy(s.recovery, s.taken, Current(s.call), run)
    decreases |run|
  {
    if run != [] {
      var t := Step(s, run[0]).value;
      StepTakes(s, run[0], t);
      RunTakes(t, run[1..], s');
      assert TakenBy(s.recovery, s.taken, Current(s.call), run)
          == TakenBy(t.recovery, t.taken, Current(t.call), run[1..]);
    }
  }

  lemma StepTakes(s: State, a: Action, t: State)
    requires Step(s, a) == Some(t)
    ensures t.recovery == s.recovery
    ensures t.taken ==
      if a.Queue? && Current(s.call).Some? then s.taken + [Current(s.call).value]
      else if a.SendFails? && !s.recovery && s.taken != [] then s.taken[..|s.taken| - 1]
      else s.taken
    ensures Current(t.call) ==
      if a.Number? then Some(a.rows)
      else if a.Queue? || a.DropCall? || a.SendFails? then None
      else Current(s.call)
    ensures a.Queue? ==> Current(s.call).Some?
  {
    if !(a.Number? || a.Queue? || a.DropCall? || a.SendFails?) {
      OthersTakeNothing(s, a, t);
    }
  }

  lemma OthersTakeNothing(s: State, a: Action, t: State)
    requires Step(s, a) == Some(t) && !(a.Number? || a.Queue? || a.DropCall? || a.SendFails?)
    ensures t.recovery == s.recovery && t.taken == s.taken && Current(t.call) == Current(s.call)
  {
    if a.Send? || a.FindsNoSender? || a.Ack? || a.Pause? || a.HalfClose? || a.Break? {
      ConnectionTakesNothing(s, a, t);
    } else {
      SupervisorTakesNothing(s, a, t);
    }
  }

  lemma ConnectionTakesNothing(s: State, a: Action, t: State)
    requires Step(s, a) == Some(t) && (a.Send? || a.FindsNoSender? || a.Ack? || a.Pause? || a.HalfClose? || a.Break?)
    ensures t.recovery == s.recovery && t.taken == s.taken && Current(t.call) == Current(s.call)
  {
  }

  lemma SupervisorTakesNothing(s: State, a: Action, t: State)
    requires Step(s, a) == Some(t)
    requires a.Recover? || a.Connect? || a.Rebuild? || a.ReplaySend? || a.AbandonAttempt? || a.Commit?
             || a.StartClose? || a.Abort? || a.DetachSender? || a.Finalize? || a.MoveToFailed?
    ensures t.recovery == s.recovery && t.taken == s.taken && t.call == s.call
  {
  }

  /** Every run takes exactly the batches its calls were given. */
  lemma TakenIsGiven(recovery: bool, run: seq<Action>, s: State)
    requires Run(Init(recovery), run) == Some(s)
    ensures s.taken == TakenBy(recovery, [], None, run)
  {
    RunTakes(Init(recovery), run, s);
  }

  // ---------------------------------------------------------------- pauses, and streams without recovery

  /** Paused, and not replaying. */
  ghost predicate Resting(s: State)
  {
    Inv(s) && s.paused && !s.phase.Replaying?
  }

  lemma RestingSendsNothing(s: State, a: Action, t: State)
    requires Resting(s) && Step(s, a) == Some(t) && !a.Rebuild?
    ensures t.paused && !t.phase.Replaying? && t.wire == s.wire && t.submitted == s.submitted
  {
  }

  lemma {:induction false} RestingRun(s: State, run: seq<Action>, t: State)
    requires Resting(s) && Careful(s, run) && Run(s, run) == Some(t) && Rebuild !in run
    ensures t.wire == s.wire && t.submitted == s.submitted
    decreases |run|
  {
    if run != [] {
      var u := Step(s, run[0]).value;
      RestingSendsNothing(s, run[0], u);
      StepKeepsInv(s, run[0], u);
      RestingRun(u, run[1..], t);
    }
  }

  /**
   After the pause of a rotation, a half-close or the start of recovery nothing is handed to the
   connection until a replacement takes over, so the acknowledgments waited for cannot recede.
   */
  lemma PauseStopsSending(s: State, recovery: bool, run: seq<Action>, a: Action, t: State, later: seq<Action>, u: State)
    requires Reached(s, recovery, run) && (a.Pause? || a.HalfClose? || a.Recover?) && Step(s, a) == Some(t)
    requires Careful(t, later) && Run(t, later) == Some(u) && Rebuild !in later
    ensures u.wire == s.wire && u.submitted == s.submitted
  {
    ReachedIsInv(s, recovery, run);
    StepKeepsInv(s, a, t);
    RestingRun(t, later, u);
  }

  lemma {:induction false} StaysOnFirst(s: State, run: seq<Action>, t: State)
    requires !s.recovery && s.settled == [] && !(s.phase.Recovering? || s.phase.Ready? || s.phase.Replaying?)
    requires Run(s, run) == Some(t)
    ensures t.settled == []
    decreases |run|
  {
    if run != [] {
      var u := Step(s, run[0]).value;
      FirstStep(s, run[0], u);
      StaysOnFirst(u, run[1..], t);
    }
  }

  lemma FirstStep(s: State, a: Action, t: State)
    requires !s.recovery && !(s.phase.Recovering? || s.phase.Ready? || s.phase.Replaying?) && Step(s, a) == Some(t)
    ensures t.settled == s.settled && !t.recovery && !(t.phase.Recovering? || t.phase.Ready? || t.phase.Replaying?)
  {
  }

  /** With recovery switched off the first connection is the only one. */
  lemma NoRecoveryNoReplay(run: seq<Action>, s: State)
    requires Run(Init(false), run) == Some(s)
    ensures s.settled == [] && !s.phase.Replaying?
  {
    StaysOnFirst(Init(false), run, s);
    NeverReplays(Init(false), run, s);
  }

  lemma {:induction false} NeverReplays(s: State, run: seq<Action>, t: State)
    requires !s.recovery && !(s.phase.Recovering? || s.phase.Ready? || s.phase.Replaying?) && Run(s, run) == Some(t)
    ensures !t.phase.Replaying?
    decreases |run|
  {
    if run != [] {
      var u := Step(s, run[0]).value;
      FirstStep(s, run[0], u);
      NeverReplays(u, run[1..], t);
    }
  }

  // ---------------------------------------------------------------- going on

  /** A run in which no call is dropped leads from `s` to `t`. */
  ghost predicate Leads(s: State, t: State)
  {
    exists run :: NoDrops(run) && Run(s, run) == Some(t)
  }

  lemma LeadsNowhere(s: State)
    ensures Leads(s, s)
  {
    assert NoDrops([]) && Run(s, []) == Some(s);
  }

  lemma Next(s0: State, s: State, a: Action) returns (t: State)
    requires Leads(s0, s) && Step(s, a).Some? && !a.DropCall?
    ensures Step(s, a) == Some(t) && Leads(s0, t)
  {
    var run :| NoDrops(run) && Run(s0, run) == Some(s);
    var run';
    run', t := Onward(s0, run, s, a);
    assert NoDrops(run');
  }

  lemma LedIsInv(s0: State, t: State)
    requires Inv(s0) && Leads(s0, t)
    ensures Inv(t)
  {
    var run :| NoDrops(run) && Run(s0, run) == Some(t);
    NoDropsIsCareful(s0, run);
    RunKeepsInv(s0, run, t);
  }

  /** With recovery no batch taken is given up on the way. */
  lemma LedKeepsTaken(s: State, t: State)
    requires Leads(s, t) && s.recovery
    ensures s.taken <= t.taken
  {
    var run :| NoDrops(run) && Run(s, run) == Some(t);
    TakenGrows(s, run, t);
  }

  lemma {:induction false} TakenGrows(s: State, run: seq<Action>, t: State)
    requires Run(s, run) == Some(t) && s.recovery
    ensures s.taken <= t.taken
    decreases |run|
  {
    if run != [] {
      var u := Step(s, run[0]).value;
      StepTakes(s, run[0], u);
      TakenGrows(u, run[1..], t);
    }
  }

  /** The call in between, if any, ends. */
  lemma CallEnds(s0: State, s: State) returns (t: State)
    requires Inv(s0) && Leads(s0, s)
    ensures Leads(s0, t) && Inv(t) && t.call.NoCall?
    ensures t.phase == s.phase && t.closing == s.closing && t.recovery == s.recovery
  {
    t := s;
    LedIsInv(s0, t);
    if t.call.Numbered? {
      t := Next(s0, t, Queue);
      LedIsInv(s0, t);
    }
    if t.call.Queued? {
      var a := EndOf(t);
      t := Next(s0, t, a);
      LedIsInv(s0, t);
    }
  }

  /** How a call that has queued its batch ends. */
  lemma EndOf(s: State) returns (a: Action)
    requires Inv(s) && s.call.Queued?
    ensures !a.DropCall? && Step(s, a).Some? && Step(s, a).value.call.NoCall?
    ensures var t := Step(s, a).value; t.phase == s.phase && t.closing == s.closing && t.recovery == s.recovery
  {
    a := if !s.attached then FindsNoSender else if s.open then Send else SendFails;
  }

  /** A replacement connection comes up, with everything still to be sent again. */
  lemma Replaces(s0: State, s: State) returns (t: State)
    requires Inv(s0) && Leads(s0, s) && s.call.NoCall? && s.recovery && !s.closing
    requires !s.phase.Torn? && !s.phase.Closed?
    ensures Leads(s0, t) && t.phase.Replaying? && t.open && !t.closing && t.call.NoCall?
  {
    t := LosesConnection(s0, s);
    t := Next(s0, t, Connect);
    RebuildStarts(t);
    t := Next(s0, t, Rebuild);
  }

  lemma RebuildStarts(s: State)
    requires s.phase.Ready? && s.call.NoCall?
    ensures Step(s, Rebuild).Some?
    ensures var t := Step(s, Rebuild).value; t.phase.Replaying? && t.open && t.closing == s.closing && t.call.NoCall?
  {
  }

  lemma LosesConnection(s0: State, s: State) returns (t: State)
    requires Leads(s0, s) && s.call.NoCall? && s.recovery && !s.closing && !s.phase.Torn? && !s.phase.Closed?
    ensures Leads(s0, t) && t.phase.Recovering? && !t.closing && t.call.NoCall?
  {
    t := s;
    if t.phase.Live? {
      t := Next(s0, t, Recover);
    } else if !t.phase.Recovering? {
      t := Next(s0, t, AbandonAttempt);
    }
  }

  lemma {:induction false} ReplayEnds(s0: State, s: State) returns (t: State)
    requires Leads(s0, s) && s.phase.Replaying? && s.open && !s.closing && s.call.NoCall?
    ensures Leads(s0, t) && t.phase.Live? && t.open && !t.paused && !t.closing && t.call.NoCall?
    decreases |s.phase.todo|
  {
    if s.phase.todo == [] {
      t := Next(s0, s, Commit);
    } else {
      t := Next(s0, s, ReplaySend);
      t := ReplayEnds(s0, t);
    }
  }

  lemma AllAckedLeavesNothing(s: State)
    requires Inv(s) && s.phase.Live? && s.acked == |s.wire| && Unsent(s.pending, |s.wire|) == []
    ensures s.pending == []
  {
  }

  lemma AcksAll(s0: State, s: State) returns (t: State)
    requires Inv(s0) && Leads(s0, s) && TakesSends(s) && s.call.NoCall?
    ensures Leads(s0, t) && t.pending == [] && Inv(t) && t.phase.Live?
  {
    LedIsInv(s0, s);
    t := s;
    if |s.wire| > 0 {
      t := Next(s0, s, Ack(|s.wire|));
      LedIsInv(s0, t);
      AckLeavesSent(s, t);
    }
    AllAckedLeavesNothing(t);
  }

  lemma AckLeavesSent(s: State, t: State)
    requires Inv(s) && TakesSends(s) && s.call.NoCall? && |s.wire| > 0 && Step(s, Ack(|s.wire|)) == Some(t)
    ensures t.wire == s.wire && t.acked == |t.wire| && Unsent(t.pending, |t.wire|) == [] && t.phase.Live?
  {
    var d := AckSplits(s, |s.wire|);
  }

  /**
   Unless it is closing or may not recover, the stream can bring every row it has taken to be
   acknowledged, whatever has happened to its connections.
   */
  lemma EverythingCanBeAcknowledged(s: State, recovery: bool, run: seq<Action>)
    requires Reached(s, recovery, run) && s.recovery && !s.closing && !s.phase.Torn? && !s.phase.Closed?
    ensures exists t :: Leads(s, t) && t.phase.Live? && s.taken <= t.taken && Flat(t.taken) == Acknowledged(t)
  {
    ReachedIsInv(s, recovery, run);
    LeadsNowhere(s);
    var t := CallEnds(s, s);
    t := Replaces(s, t);
    t := ReplayEnds(s, t);
    t := AcksAll(s, t);
    InvIsConserved(t);
    LedKeepsTaken(s, t);
    assert Left(t) == [];
  }

  /** And it can always be closed, with everything unacknowledged handed back. */
  lemma StreamCanClose(s: State, recovery: bool, run: seq<Action>)
    requires Reached(s, recovery, run)
    ensures exists t :: Leads(s, t) && t.phase.Closed? && Flat(t.taken) == Acknowledged(t) + Flat(t.failed)
  {
    ReachedIsInv(s, recovery, run);
    LeadsNowhere(s);
    var t := CallEnds(s, s);
    if !t.phase.Closed? {
      t := TearsDown(s, t);
    }
    t := Next(s, t, MoveToFailed);
    LedIsInv(s, t);
    InvIsConserved(t);
    assert Left(t) == t.failed;
  }

  lemma TearsDown(s0: State, s: State) returns (t: State)
    requires Leads(s0, s) && s.call.NoCall? && !s.phase.Closed?
    ensures Leads(s0, t) && t.phase.Closed?
  {
    t := Next(s0, s, StartClose);
    if !t.phase.Torn? {
      t := Next(s0, t, Abort);
    }
    t := Next(s0, t, Finalize);
  }

  // ---------------------------------------------------------------- what can happen

  /** A call can find the connection broken; its batch is replayed on the next one. */
  lemma BrokenSendIsReplayed() returns (s: State)
    ensures Leads(Init(true), s) && s.phase.Live? && s.taken == [[[1]]] && s.wire == [[1]] && s.acked == 0
  {
    var s0 := Init(true);
    LeadsNowhere(s0);
    s := Next(s0, s0, Number([[1]]));
    s := Next(s0, s, Queue);
    s := Next(s0, s, Break);
    s := Next(s0, s, SendFails);
    s := Next(s0, s, Recover);
    s := Next(s0, s, Connect);
    s := ReplaysOne(s0, s);
  }

  lemma ReplaysOne(s0: State, s: State) returns (t: State)
    requires Leads(s0, s) && s.phase == Ready(0) && s.call.NoCall? && s.wire == [] && s.settled == []
    requires s.pending == [Pending([[1]], 0, 0, 1)] && s.acked == 0
    ensures Leads(s0, t) && t.phase.Live? && t.taken == s.taken && t.wire == [[1]] && t.acked == 0
  {
    var p := Pending([[1]], 0, 0, 1);
    assert [p][1..] == [];
    assert Rebuilt([p], 0, 0) == [p];
    assert Contents([p])[0] == p.rows;
    assert Contents([p]) == [p.rows];
    t := Next(s0, s, Rebuild);
    t := Next(s0, t, ReplaySend);
    t := Next(s0, t, Commit);
  }

  /** And in a teardown it can find the sender gone. */
  lemma TornCallFindsNoSender() returns (s: State)
    ensures Leads(Init(true), s) && s.call.Queued? && !s.attached && s.pending != []
  {
    var s0 := Init(true);
    LeadsNowhere(s0);
    s := Next(s0, s0, Number([[1]]));
    s := Next(s0, s, Queue);
    s := Next(s0, s, StartClose);
    s := Next(s0, s, Abort);
    s := Next(s0, s, DetachSender);
  }
}
