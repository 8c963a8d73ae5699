/**
 When the .NET stream's lifetime protocol is safe, and when it is not.

 EndAsyncOperation decrements the counter and then sets the drained event.  A set that comes
 late, after a new operation has begun and reset the event, is the one thing that breaks the
 protocol: runs without such a stale set are safe, a run in which the two halves are not
 separated has none, and from a state with a pending stale set a use after free can be reached.
 */
module StreamSafety {
  import opened Common
  import opened StreamLifetime

  /** Thread a.t is about to set the drained event although operations are in flight. */
  predicate IsStaleSet(s: State, a: Action)
  {
    a.Go? && a.t in s.threads && s.threads[a.t].AsyncSignal? && s.w.inflight != 0
  }

  ghost predicate Clean(s: State, acts: seq<Action>)
    decreases |acts|
  {
    acts != [] ==> !IsStaleSet(s, acts[0]) && (Step(s, acts[0]).Some? ==> Clean(Step(s, acts[0]).value, acts[1..]))
  }

  ghost predicate CleanlyReachable(s: State)
  {
    exists acts :: Clean(Init(), acts) && Exec(Init(), acts) == Some(s)
  }

  /** The event, once set, can be believed; a writer that believed it sees no operation; nobody holds a retired pointer. */
  ghost predicate Gate(w: Wrapper, threads: map<Tid, Pc>)
  {
    && (w.drained && w.inflight != 0 ==> exists t :: t in threads && threads[t].AsyncReset?)
    && (forall t :: t in threads && PassedWait(threads[t]) ==> w.inflight == 0)
    && (!w.ptr ==> forall t :: t in threads ==> !Uses(threads[t]))
  }

  predicate GateEffect(w: Wrapper, w': Wrapper, pc: Pc, pc': Pc)
  {
    && (Uses(pc') && !Uses(pc) ==> w.ptr && w'.ptr && (HoldsRead(pc) || HoldsWrite(pc)))
    && (PassedWait(pc') && !PassedWait(pc) ==> HoldsWrite(pc) && w.drained && w' == w)
    && (w.ptr && !w'.ptr ==> pc.RetireIn? && !Uses(pc') && w'.inflight == w.inflight)
    && (w'.inflight > w.inflight ==> pc.AsyncGot? && w'.inflight == w.inflight + 1)
    && (w'.inflight < w.inflight ==> pc.AsyncEnd? && w'.inflight == w.inflight - 1)
    && (pc.AsyncReset? ==> !w'.drained)
    && (w'.drained && !w.drained ==> pc.AsyncSignal? && w'.inflight == w.inflight)
    && (pc.AsyncGot? && w.inflight == 0 ==> pc'.AsyncReset?)
    && (PassedWait(pc) ==> w'.inflight == w.inflight)
  }

  lemma StepGateEffect(w: Wrapper, t: Tid, pc: Pc, closed: bool)
    requires Advance(w, t, pc, closed).Some?
    ensures var (w', pc') := Advance(w, t, pc, closed).value; GateEffect(w, w', pc, pc')
  {
    SyncCloseGate(w, t, pc);
    AsyncGate(w, t, pc);
    RetireGate(w, t, pc, closed);
    RecreateGate(w, t, pc, closed);
  }

  lemma SyncCloseGate(w: Wrapper, t: Tid, pc: Pc)
    ensures SyncStep(w, t, pc).Some? ==> var (w', pc') := SyncStep(w, t, pc).value; GateEffect(w, w', pc, pc')
    ensures CloseStep(w, t, pc).Some? ==> var (w', pc') := CloseStep(w, t, pc).value; GateEffect(w, w', pc, pc')
  {
  }

  lemma AsyncGate(w: Wrapper, t: Tid, pc: Pc)
    ensures AsyncStep(w, t, pc).Some? ==> var (w', pc') := AsyncStep(w, t, pc).value; GateEffect(w, w', pc, pc')
  {
  }

  lemma RetireGate(w: Wrapper, t: Tid, pc: Pc, closed: bool)
    ensures RetireStep(w, t, pc, closed).Some? ==>
              var (w', pc') := RetireStep(w, t, pc, closed).value; GateEffect(w, w', pc, pc')
  {
  }

  lemma RecreateGate(w: Wrapper, t: Tid, pc: Pc, made: bool)
    ensures RecreateStep(w, t, pc, made).Some? ==>
              var (w', pc') := RecreateStep(w, t, pc, made).value; GateEffect(w, w', pc, pc')
  {
  }

  lemma NativeIsCounted(w: Wrapper, threads: map<Tid, Pc>, t: Tid)
    requires Counting(w, threads) && t in threads && IsCounted(threads[t])
    ensures w.inflight > 0
  {
    assert t in Counted(threads);
  }

  /** While `t` holds the write lock and nothing is in flight, nobody uses the pointer but `t`. */
  lemma WriterIsAlone(w: Wrapper, threads: map<Tid, Pc>, t: Tid, u: Tid)
    requires Locks(w, threads) && Counting(w, threads) && w.inflight == 0
    requires t in threads && HoldsWrite(threads[t]) && u in threads && u != t
    ensures !Uses(threads[u]) && !HoldsRead(threads[u]) && !HoldsWrite(threads[u])
  {
    if threads[u].AsyncNative? {
      NativeIsCounted(w, threads, u);
    }
  }

  lemma GateKept(w: Wrapper, w': Wrapper, threads: map<Tid, Pc>, t: Tid, pc': Pc)
    requires t in threads && Locks(w, threads) && Counting(w, threads) && Gate(w, threads)
    requires GateEffect(w, w', threads[t], pc')
    requires threads[t].AsyncSignal? ==> w.inflight == 0
    ensures Gate(w', threads[t := pc'])
  {
    var pc, threads' := threads[t], threads[t := pc'];
    if pc.AsyncEnd? { NativeIsCounted(w, threads, t); }
    if w'.drained && w'.inflight != 0 {
      if w.drained && w.inflight != 0 {
        var u :| u in threads && threads[u].AsyncReset?;
        assert u != t;
        assert threads'[u].AsyncReset?;
      } else {
        assert threads'[t].AsyncReset?;
      }
    }
    forall u | u in threads' && PassedWait(threads'[u]) ensures w'.inflight == 0 {
      if u == t && !PassedWait(pc) {
        assert forall v :: v in threads && threads[v].AsyncReset? ==> v == t;
      } else {
        assert PassedWait(threads[u]);
        assert u != t ==> !pc.AsyncGot?;
      }
    }
    if w.ptr && !w'.ptr {
      assert PassedWait(pc);
      forall u | u in threads' ensures !Uses(threads'[u]) {
        if u != t { WriterIsAlone(w, threads, t, u); }
      }
    }
  }

  lemma CallKeepsGate(w: Wrapper, threads: map<Tid, Pc>, t: Tid, start: Pc)
    requires t !in threads && IsStart(start) && Gate(w, threads)
    ensures Gate(w, threads[t := start])
  {
    assert !PassedWait(start) && !Uses(start);
    if w.drained && w.inflight != 0 {
      var u :| u in threads && threads[u].AsyncReset?;
      assert threads[t := start][u].AsyncReset?;
    }
  }

  lemma StepKeepsGate(s: State, a: Action)
    requires Inv(s) && Gate(s.w, s.threads) && Step(s, a).Some? && !IsStaleSet(s, a)
    ensures var s' := Step(s, a).value; Inv(s') && Gate(s'.w, s'.threads)
  {
    StepKeepsInv(s, a);
    match a {
      case Call(t, start) => CallKeepsGate(s.w, s.threads, t, start);
      case Go(t, closed) =>
        StepGateEffect(s.w, t, s.threads[t], closed);
        var (w', pc') := Advance(s.w, t, s.threads[t], closed).value;
        GateKept(s.w, w', s.threads, t, pc');
    }
  }

  lemma {:induction false} RunKeepsGate(s: State, acts: seq<Action>)
    requires Inv(s) && Gate(s.w, s.threads) && Clean(s, acts) && Exec(s, acts).Some?
    ensures var s' := Exec(s, acts).value; Inv(s') && Gate(s'.w, s'.threads)
    decreases |acts|
  {
    if acts != [] {
      StepKeepsGate(s, acts[0]);
      RunKeepsGate(Step(s, acts[0]).value, acts[1..]);
    }
  }

  lemma CleanlyReachableGate(s: State)
    requires CleanlyReachable(s)
    ensures Inv(s) && Gate(s.w, s.threads)
  {
    var acts :| Clean(Init(), acts) && Exec(Init(), acts) == Some(s);
    assert Inv(Init()) && Gate(Init().w, Init().threads);
    RunKeepsGate(Init(), acts);
  }

  // ---------------------------------------------------------------- safety of clean runs

  /** A native call runs, or is outstanding, on a handle that was freed. */
  ghost predicate UseAfterFree(s: State)
  {
    s.w.freed > 0 && exists t :: t in s.threads && InNative(s.threads[t])
  }

  /** No interleaving of any number of calls without a stale set runs a native call on the freed handle. */
  lemma NoUseAfterFree(s: State)
    requires CleanlyReachable(s)
    ensures !UseAfterFree(s)
  {
    CleanlyReachableGate(s);
  }

  /**
   A retiring or closing thread that got past the drained wait under the write lock sees no
   operation in flight, and as long as it holds the lock none begins.
   */
  lemma WriterSeesNoOperation(s: State, t: Tid, a: Action)
    requires CleanlyReachable(s) && t in s.threads && PassedWait(s.threads[t])
    requires Step(s, a).Some? && a.t != t
    ensures forall u :: u in s.threads ==> !IsCounted(s.threads[u])
    ensures Step(s, a).value.w.inflight == 0
  {
    CleanlyReachableGate(s);
    forall u | u in s.threads ensures !IsCounted(s.threads[u]) {
      if IsCounted(s.threads[u]) { NativeIsCounted(s.w, s.threads, u); }
    }
    if a.Go? {
      StepGateEffect(s.w, a.t, s.threads[a.t], a.answer);
    }
  }

  /** The native close inside the synchronous Close overlaps no other native call, not even a detached close. */
  lemma CloseIsExclusive(s: State, t: Tid, u: Tid)
    requires CleanlyReachable(s) && t in s.threads && s.threads[t].CloseNative?
    requires u in s.threads && u != t
    ensures !InNative(s.threads[u])
  {
    CleanlyReachableGate(s);
    WriterIsAlone(s.w, s.threads, t, u);
  }

  // ---------------------------------------------------------------- an atomic EndAsyncOperation is clean

  /** Every decrement to zero is followed at once by the same thread's set of the event. */
  ghost predicate EndIsAtomic(s: State, acts: seq<Action>)
    decreases |acts|
  {
    acts != [] && Step(s, acts[0]).Some? ==>
      var s' := Step(s, acts[0]).value;
      && (acts[0].t in s'.threads && s'.threads[acts[0].t].AsyncSignal? && |acts| > 1 ==> acts[1].Go? && acts[1].t == acts[0].t)
      && EndIsAtomic(s', acts[1..])
  }

  /** Only `acts[0]`'s own thread, if any, still has to signal, and then nothing is in flight. */
  ghost predicate NoneButNextSignals(s: State, acts: seq<Action>)
  {
    forall t :: t in s.threads && s.threads[t].AsyncSignal? ==>
      s.w.inflight == 0 && (acts != [] ==> acts[0].Go? && acts[0].t == t)
  }

  lemma StepSignals(w: Wrapper, t: Tid, pc: Pc, closed: bool)
    requires Advance(w, t, pc, closed).Some?
    ensures var (w', pc') := Advance(w, t, pc, closed).value; pc'.AsyncSignal? ==> w'.inflight == 0 && !pc.AsyncSignal?
  {
    StepEffect(w, t, pc, closed);
  }

  lemma {:induction false} AtomicEndIsClean(s: State, acts: seq<Action>)
    requires EndIsAtomic(s, acts) && NoneButNextSignals(s, acts)
    ensures Clean(s, acts)
    decreases |acts|
  {
    if acts != [] && Step(s, acts[0]).Some? {
      var a := acts[0];
      var s' := Step(s, a).value;
      if a.Go? { StepSignals(s.w, a.t, s.threads[a.t], a.answer); }
      forall t | t in s'.threads && s'.threads[t].AsyncSignal?
        ensures s'.w.inflight == 0 && (acts[1..] != [] ==> acts[1..][0].Go? && acts[1..][0].t == t)
      {
        assert s'.threads == s.threads[a.t := s'.threads[a.t]];
      }
      AtomicEndIsClean(s', acts[1..]);
    }
  }

  /** With EndAsyncOperation taken as one step, every run is safe. */
  lemma AtomicEndIsSafe(acts: seq<Action>)
    requires EndIsAtomic(Init(), acts) && Exec(Init(), acts).Some?
    ensures !UseAfterFree(Exec(Init(), acts).value)
  {
    AtomicEndIsClean(Init(), acts);
    NoUseAfterFree(Exec(Init(), acts).value);
  }

  // ---------------------------------------------------------------- one asynchronous call at a time is clean

  predicate IsAsync(pc: Pc)
  {
    pc.AsyncStart? || pc.AsyncIn? || pc.AsyncChecked? || pc.AsyncGot? || pc.AsyncReset? || pc.AsyncOut?
    || pc.AsyncNative? || pc.AsyncEnd? || pc.AsyncSignal?
  }

  /** An asynchronous call is made only when no other is still running. */
  ghost predicate OneAtATime(s: State, acts: seq<Action>)
    decreases |acts|
  {
    acts != [] && Step(s, acts[0]).Some? ==>
      && (acts[0].Call? && acts[0].start.AsyncStart? ==> forall u :: u in s.threads ==> !IsAsync(s.threads[u]))
      && OneAtATime(Step(s, acts[0]).value, acts[1..])
  }

  ghost predicate OneAsync(s: State)
  {
    forall t, u :: t in s.threads && u in s.threads && IsAsync(s.threads[t]) && IsAsync(s.threads[u]) ==> t == u
  }

  lemma AsyncStaysAsync(w: Wrapper, t: Tid, pc: Pc, answer: bool)
    requires Advance(w, t, pc, answer).Some? && !IsAsync(pc)
    ensures !IsAsync(Advance(w, t, pc, answer).value.1)
  {
  }

  /** Whoever sets the event is the only asynchronous call, and no longer counted. */
  lemma OneAsyncIsNotStale(s: State, a: Action)
    requires Inv(s) && OneAsync(s)
    ensures !IsStaleSet(s, a)
  {
    if a.Go? && a.t in s.threads && s.threads[a.t].AsyncSignal? {
      assert Counted(s.threads) == {};
    }
  }

  lemma OneAsyncKept(s: State, a: Action)
    requires OneAsync(s) && Step(s, a).Some?
    requires a.Call? && a.start.AsyncStart? ==> forall u :: u in s.threads ==> !IsAsync(s.threads[u])
    ensures OneAsync(Step(s, a).value)
  {
    if a.Go? && !IsAsync(s.threads[a.t]) { AsyncStaysAsync(s.w, a.t, s.threads[a.t], a.answer); }
  }

  lemma {:induction false} OneAtATimeIsClean(s: State, acts: seq<Action>)
    requires Inv(s) && OneAsync(s) && OneAtATime(s, acts)
    ensures Clean(s, acts)
    decreases |acts|
  {
    if acts != [] {
      var a := acts[0];
      OneAsyncIsNotStale(s, a);
      if Step(s, a).Some? {
        OneAsyncKept(s, a);
        StepKeepsInv(s, a);
        OneAtATimeIsClean(Step(s, a).value, acts[1..]);
      }
    }
  }

  /** A caller that makes one asynchronous call at a time is safe, whatever else runs beside it. */
  lemma OneAtATimeIsSafe(acts: seq<Action>)
    requires OneAtATime(Init(), acts) && Exec(Init(), acts).Some?
    ensures !UseAfterFree(Exec(Init(), acts).value)
  {
    OneAtATimeIsClean(Init(), acts);
    NoUseAfterFree(Exec(Init(), acts).value);
  }

  // ---------------------------------------------------------------- a waiting writer is never stuck

  function Outstanding(threads: map<Tid, Pc>): set<Tid>
  {
    set t | t in threads && threads[t].AsyncNative?
  }

  function Ending(threads: map<Tid, Pc>): set<Tid>
  {
    set t | t in threads && threads[t].AsyncEnd?
  }

  /** What still has to happen before the event is set for good: operations, decrements and sets. */
  function Remaining(threads: map<Tid, Pc>): nat
  {
    3 * |Outstanding(threads)| + 2 * |Ending(threads)| + |Signalling(threads)|
  }

  predicate Waits(pc: Pc)
  {
    pc.CloseWait? || pc.RetireWait?
  }

  function Weight(pc: Pc): nat
  {
    if pc.AsyncNative? then 3 else if pc.AsyncEnd? then 2 else if pc.AsyncSignal? then 1 else 0
  }

  lemma OutstandingMoves(threads: map<Tid, Pc>, t: Tid, pc: Pc)
    ensures |Outstanding(threads[t := pc])|
         == |Outstanding(threads)| + (if pc.AsyncNative? then 1 else 0) - (if t in threads && threads[t].AsyncNative? then 1 else 0)
  {
    var c := Outstanding(threads);
    SetMoves(c, t);
    assert Outstanding(threads[t := pc]) == if pc.AsyncNative? then c + {t} else c - {t};
  }

  lemma EndingMoves(threads: map<Tid, Pc>, t: Tid, pc: Pc)
    ensures |Ending(threads[t := pc])|
         == |Ending(threads)| + (if pc.AsyncEnd? then 1 else 0) - (if t in threads && threads[t].AsyncEnd? then 1 else 0)
  {
    var c := Ending(threads);
    SetMoves(c, t);
    assert Ending(threads[t := pc]) == if pc.AsyncEnd? then c + {t} else c - {t};
  }

  lemma RemainingMoves(threads: map<Tid, Pc>, t: Tid, pc: Pc)
    ensures Remaining(threads[t := pc]) == Remaining(threads) + Weight(pc) - (if t in threads then Weight(threads[t]) else 0)
  {
    OutstandingMoves(threads, t, pc);
    EndingMoves(threads, t, pc);
    SignallingMoves(threads, t, pc);
    assert t in Signalling(threads) <==> t in threads && threads[t].AsyncSignal?;
  }

  /**
   While a writer waits for the event nothing new can begin: every step of an operation, of
   its end or of its pending set lowers the measure, and no step of anyone else raises it.
   */
  lemma WaitingMakesProgress(s: State, t: Tid, a: Action)
    requires Inv(s) && t in s.threads && Waits(s.threads[t])
    requires Step(s, a).Some? && a.t != t
    ensures var s' := Step(s, a).value;
            && s'.threads[t] == s.threads[t]
            && Remaining(s'.threads) <= Remaining(s.threads)
            && (a.Go? && Weight(s.threads[a.t]) > 0 ==> Remaining(s'.threads) < Remaining(s.threads))
  {
    var s' := Step(s, a).value;
    RemainingMoves(s.threads, a.t, s'.threads[a.t]);
    if a.Go? {
      StepWeight(s.w, a.t, s.threads[a.t], a.answer);
      assert s.w.writer == Some(t);
    }
  }

  lemma StepWeight(w: Wrapper, t: Tid, pc: Pc, closed: bool)
    requires Advance(w, t, pc, closed).Some?
    ensures var pc' := Advance(w, t, pc, closed).value.1;
            Weight(pc') < Weight(pc) || (Weight(pc) == 0 && (Weight(pc') > 0 ==> HoldsRead(pc) || HoldsWrite(pc)))
  {
  }

  /**
   The writer is never stuck: either the event is set and it can go on, or some operation is
   outstanding, ending or about to signal, and that thread's next step is possible.
   */
  lemma WaiterIsNeverStuck(s: State, t: Tid)
    requires Inv(s) && t in s.threads && Waits(s.threads[t])
    ensures Remaining(s.threads) == 0 ==> Step(s, Go(t, false)).Some?
    ensures Step(s, Go(t, false)).None? ==>
              exists u :: u in s.threads && Weight(s.threads[u]) > 0 && Step(s, Go(u, false)).Some?
  {
    if !s.w.drained {
      var u :| u in Counted(s.threads) + Signalling(s.threads);
      HelperGoesOn(s, t, u);
      NothingRemains(s.threads, u);
    }
  }

  /** Whoever is counted or signalling beside a waiting writer holds no lock and can go on. */
  lemma HelperGoesOn(s: State, t: Tid, u: Tid)
    requires Locks(s.w, s.threads) && t in s.threads && Waits(s.threads[t])
    requires u in s.threads && (IsCounted(s.threads[u]) || s.threads[u].AsyncSignal?)
    ensures Weight(s.threads[u]) > 0 && Step(s, Go(u, false)).Some?
  {
    assert s.w.writer == Some(t);
  }

  lemma NothingRemains(threads: map<Tid, Pc>, u: Tid)
    requires u in threads && Weight(threads[u]) > 0
    ensures Remaining(threads) > 0
  {
    assert u in Outstanding(threads) || u in Ending(threads) || u in Signalling(threads);
  }
}
