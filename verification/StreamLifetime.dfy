/**
 The lifetime protocol of the .NET stream wrapper around one native handle: synchronous calls
 under a read lock, asynchronous calls counted in flight after the lock is released, a drained
 event a writer waits for, and four competing ways to retire the handle.

 Every interlocked operation, lock operation, event operation and native call is a step of its
 own; any number of threads interleave.  A thread id stands for one call on the wrapper.
 */
module StreamLifetime {
  import opened Common

  type Tid = nat

  /** The ways to retire the handle. */
  datatype Kind = Dispose | DisposeAsync | Finalize | Recreate

  /** What a call is about to do next. */
  datatype Pc =
    | SyncStart                  // EnterReadLock
    | SyncIn                     // read _disposed
    | SyncChecked                // read _ptr
    | SyncNative                 // inside the native call
    | SyncOut                    // ExitReadLock
    | AsyncStart(write: bool)    // EnterReadLock or EnterWriteLock
    | AsyncIn(write: bool)       // read _disposed
    | AsyncChecked(write: bool)  // read _ptr
    | AsyncGot(write: bool)      // Increment
    | AsyncReset(write: bool)    // Increment returned 1: Reset
    | AsyncOut(write: bool, begun: bool) // the finally: exit the lock
    | AsyncNative                // the native operation is outstanding
    | AsyncEnd                   // it finished, faulted or could not be started: Decrement
    | AsyncSignal                // Decrement returned 0: Set
    | CloseStart                 // EnterWriteLock
    | CloseWait                  // wait for drained
    | CloseIn                    // read _disposed
    | CloseChecked               // read _ptr
    | CloseNative                // inside IsClosed / Close
    | CloseOut                   // ExitWriteLock
    | ReadStart                  // RecreateStream reads NativePointer: EnterReadLock
    | ReadIn                     // read _disposed
    | ReadChecked                // read _ptr
    | ReadOut(got: bool)         // ExitReadLock, with the pointer or an exception
    | Making                     // SdkRecreateStream makes the replacement; then Recreate
    | RetireStart(kind: Kind)    // CompareExchange on _disposed
    | RetireClaimed(kind: Kind)  // EnterWriteLock
    | RetireWait(kind: Kind)     // wait for drained
    | RetireIn(kind: Kind)       // Exchange _ptr with zero
    | RetireOwned(kind: Kind)    // native IsClosed, lock held
    | RetireClosing(kind: Kind)  // native close; DisposeAsync has released the lock
    | RetireFree(kind: Kind)     // native free; DisposeAsync has released the lock
    | RetireOut(kind: Kind)      // ExitWriteLock
    | RetireDone(kind: Kind)
    | Done

  /**
   The wrapper's fields, its lock and the native heap.  `ptr` is whether _ptr still holds the
   handle.  `freed` counts native frees and `winner` is the call whose compare-and-swap
   succeeded; both are history.
   */
  datatype Wrapper = Wrapper(
    ptr: bool, disposed: bool, inflight: int, drained: bool,
    readers: set<Tid>, writer: Option<Tid>, freed: nat, winner: Option<Tid>)

  datatype State = State(w: Wrapper, threads: map<Tid, Pc>)

  function Init(): (s: State)
  {
    State(Wrapper(true, false, 0, true, {}, None, 0, None), map[])
  }

  // ---------------------------------------------------------------- steps

  /** The wrapper after a step and where the stepping thread is then. */
  type Outcome = Option<(Wrapper, Pc)>

  function EnterRead(w: Wrapper, t: Tid, pc: Pc): Outcome
  {
    if w.writer.Some? then None else Some((w.(readers := w.readers + {t}), pc))
  }

  function EnterWrite(w: Wrapper, t: Tid, pc: Pc): Outcome
  {
    if w.writer.Some? || w.readers != {} then None else Some((w.(writer := Some(t)), pc))
  }

  function ExitRead(w: Wrapper, t: Tid, pc: Pc): Outcome
  {
    Some((w.(readers := w.readers - {t}), pc))
  }

  function ExitWrite(w: Wrapper, pc: Pc): Outcome
  {
    Some((w.(writer := None), pc))
  }

  /** WithReadLock */
  function SyncStep(w: Wrapper, t: Tid, pc: Pc): Outcome
  {
    match pc
    case SyncStart => EnterRead(w, t, SyncIn)
    case SyncIn => Some((w, if w.disposed then SyncOut else SyncChecked))
    case SyncChecked => Some((w, if w.ptr then SyncNative else SyncOut))
    case SyncNative => Some((w, SyncOut))
    case SyncOut => ExitRead(w, t, Done)
    case _ => None
  }

  /** WithAsyncLock: BeginAsyncOperation, the native operation, EndAsyncOperation */
  function AsyncStep(w: Wrapper, t: Tid, pc: Pc): Outcome
  {
    match pc
    case AsyncStart(wr) => if wr then EnterWrite(w, t, AsyncIn(wr)) else EnterRead(w, t, AsyncIn(wr))
    case AsyncIn(wr) => Some((w, if w.disposed then AsyncOut(wr, false) else AsyncChecked(wr)))
    case AsyncChecked(wr) => Some((w, if w.ptr then AsyncGot(wr) else AsyncOut(wr, false)))
    case AsyncGot(wr) =>
      Some((w.(inflight := w.inflight + 1), if w.inflight + 1 == 1 then AsyncReset(wr) else AsyncOut(wr, true)))
    case AsyncReset(wr) => Some((w.(drained := false), AsyncOut(wr, true)))
    case AsyncOut(wr, begun) =>
      var pc' := if begun then AsyncNative else Done;
      if wr then ExitWrite(w, pc') else ExitRead(w, t, pc')
    case AsyncNative => Some((w, AsyncEnd))
    case AsyncEnd => Some((w.(inflight := w.inflight - 1), if w.inflight - 1 == 0 then AsyncSignal else Done))
    case AsyncSignal => Some((w.(drained := true), Done))
    case _ => None
  }

  /** Close, the synchronous one */
  function CloseStep(w: Wrapper, t: Tid, pc: Pc): Outcome
  {
    match pc
    case CloseStart => EnterWrite(w, t, CloseWait)
    case CloseWait => if w.drained then Some((w, CloseIn)) else None
    case CloseIn => Some((w, if w.disposed then CloseOut else CloseChecked))
    case CloseChecked => Some((w, if w.ptr then CloseNative else CloseOut))
    case CloseNative => Some((w, CloseOut))
    case CloseOut => ExitWrite(w, Done)
    case _ => None
  }

  /** Dispose, DisposeAsync, the finalizer and Recreate; `closed` is what the native IsClosed answers */
  function RetireStep(w: Wrapper, t: Tid, pc: Pc, closed: bool): Outcome
  {
    match pc
    case RetireStart(k) =>
      if w.disposed then Some((w, Done)) else Some((w.(disposed := true, winner := Some(t)), RetireClaimed(k)))
    case RetireClaimed(k) => EnterWrite(w, t, RetireWait(k))
    case RetireWait(k) => if w.drained then Some((w, RetireIn(k))) else None
    case RetireIn(k) =>
      Some((w.(ptr := false),
            if !w.ptr then RetireOut(k) else if k.Dispose? || k.DisposeAsync? then RetireOwned(k) else RetireFree(k)))
    case RetireOwned(k) =>
      var pc' := if closed then RetireFree(k) else RetireClosing(k);
      if k.DisposeAsync? then ExitWrite(w, pc') else Some((w, pc'))
    case RetireClosing(k) => Some((w, RetireFree(k)))
    case RetireFree(k) =>
      Some((w.(freed := w.freed + 1), if k.DisposeAsync? then RetireDone(k) else RetireOut(k)))
    case RetireOut(k) => ExitWrite(w, RetireDone(k))
    case _ => None
  }

  /** RecreateStream up to its call of Recreate; `made` is whether the native library can make a replacement. */
  function RecreateStep(w: Wrapper, t: Tid, pc: Pc, made: bool): Outcome
  {
    match pc
    case ReadStart => EnterRead(w, t, ReadIn)
    case ReadIn => Some((w, if w.disposed then ReadOut(false) else ReadChecked))
    case ReadChecked => Some((w, ReadOut(w.ptr)))
    case ReadOut(got) => ExitRead(w, t, if got then Making else Done)
    case Making => Some((w, if made then RetireStart(Recreate) else Done))
    case _ => None
  }

  /** A run is a sequence of new calls and steps of calls already made. */
  datatype Action = Call(t: Tid, start: Pc) | Go(t: Tid, answer: bool)

  predicate IsStart(pc: Pc)
  {
    pc.SyncStart? || pc.AsyncStart? || pc.CloseStart? || pc.ReadStart? || (pc.RetireStart? && !pc.kind.Recreate?)
  }

  /** In RecreateStream, before Recreate. */
  predicate Reads(pc: Pc)
  {
    pc.ReadStart? || pc.ReadIn? || pc.ReadChecked? || pc.ReadOut? || pc.Making?
  }

  function Advance(w: Wrapper, t: Tid, pc: Pc, closed: bool): Outcome
  {
    if pc.SyncStart? || pc.SyncIn? || pc.SyncChecked? || pc.SyncNative? || pc.SyncOut? then SyncStep(w, t, pc)
    else if pc.CloseStart? || pc.CloseWait? || pc.CloseIn? || pc.CloseChecked? || pc.CloseNative? || pc.CloseOut? then
      CloseStep(w, t, pc)
    else if Retires(pc) || pc.RetireStart? then RetireStep(w, t, pc, closed)
    else if Reads(pc) then RecreateStep(w, t, pc, closed)
    else AsyncStep(w, t, pc)
  }

  function Step(s: State, a: Action): (r: Option<State>)
  {
    match a
    case Call(t, start) =>
      if t in s.threads || !IsStart(start) then None else Some(s.(threads := s.threads[t := start]))
    case Go(t, closed) =>
      if t !in s.threads then None
      else (match Advance(s.w, t, s.threads[t], closed)
            case None => None
            case Some((w, pc)) => Some(State(w, s.threads[t := pc])))
  }

  // ---------------------------------------------------------------- what a position implies

  predicate HoldsRead(pc: Pc)
  {
    pc.SyncIn? || pc.SyncChecked? || pc.SyncNative? || pc.SyncOut?
    || pc.ReadIn? || pc.ReadChecked? || pc.ReadOut?
    || ((pc.AsyncIn? || pc.AsyncChecked? || pc.AsyncGot? || pc.AsyncReset? || pc.AsyncOut?) && !pc.write)
  }

  predicate HoldsWrite(pc: Pc)
  {
    || ((pc.AsyncIn? || pc.AsyncChecked? || pc.AsyncGot? || pc.AsyncReset? || pc.AsyncOut?) && pc.write)
    || pc.CloseWait? || pc.CloseIn? || pc.CloseChecked? || pc.CloseNative? || pc.CloseOut?
    || pc.RetireWait? || pc.RetireIn? || pc.RetireOwned? || pc.RetireOut?
    || ((pc.RetireClosing? || pc.RetireFree?) && !pc.kind.DisposeAsync?)
  }

  /** Begun and not yet ended. */
  predicate IsCounted(pc: Pc)
  {
    pc.AsyncReset? || (pc.AsyncOut? && pc.begun) || pc.AsyncNative? || pc.AsyncEnd?
  }

  /** Has won the compare-and-swap. */
  predicate Retires(pc: Pc)
  {
    pc.RetireClaimed? || pc.RetireWait? || pc.RetireIn? || pc.RetireOwned? || pc.RetireClosing? || pc.RetireFree?
    || pc.RetireOut? || pc.RetireDone?
  }

  /** Has taken the pointer out. */
  predicate Exchanged(pc: Pc)
  {
    pc.RetireOwned? || pc.RetireClosing? || pc.RetireFree? || pc.RetireOut? || pc.RetireDone?
  }

  predicate HasFreed(pc: Pc)
  {
    pc.RetireOut? || pc.RetireDone?
  }

  /** Is inside a native call on the handle, or has one outstanding. */
  predicate InNative(pc: Pc)
  {
    pc.SyncNative? || pc.AsyncNative? || pc.CloseNative? || pc.RetireOwned? || pc.RetireClosing?
  }

  /** Works with a pointer read from _ptr, other than the retiring call. */
  predicate Uses(pc: Pc)
  {
    pc.SyncNative? || pc.CloseNative? || pc.AsyncGot? || pc.AsyncReset? || (pc.AsyncOut? && pc.begun) || pc.AsyncNative?
  }

  /** Holds the write lock having seen the drained event. */
  predicate PassedWait(pc: Pc)
  {
    HoldsWrite(pc) && !pc.CloseWait? && !pc.RetireWait?
    && !pc.AsyncIn? && !pc.AsyncChecked? && !pc.AsyncGot? && !pc.AsyncReset? && !pc.AsyncOut?
  }

  // ---------------------------------------------------------------- invariants that hold at any granularity

  ghost predicate Locks(w: Wrapper, threads: map<Tid, Pc>)
  {
    && (forall t :: t in w.readers ==> t in threads && HoldsRead(threads[t]))
    && (forall t :: t in threads && HoldsRead(threads[t]) ==> t in w.readers)
    && (forall t :: t in threads && HoldsWrite(threads[t]) ==> w.writer == Some(t))
    && (w.writer.Some? ==> w.readers == {} && w.writer.value in threads && HoldsWrite(threads[w.writer.value]))
  }

  /** The retiring call is unique; it alone takes the pointer out and frees it. */
  ghost predicate Retirement(w: Wrapper, threads: map<Tid, Pc>)
  {
    && (w.disposed <==> w.winner.Some?)
    && (forall t :: t in threads && Retires(threads[t]) ==> w.winner == Some(t))
    && (w.winner.Some? ==> w.winner.value in threads && Retires(threads[w.winner.value]))
    && (w.ptr <==> w.winner.None? || !Exchanged(threads[w.winner.value]))
    && w.freed == (if w.winner.Some? && HasFreed(threads[w.winner.value]) then 1 else 0)
  }

  function Counted(threads: map<Tid, Pc>): set<Tid>
  {
    set t | t in threads && IsCounted(threads[t])
  }

  function Signalling(threads: map<Tid, Pc>): set<Tid>
  {
    set t | t in threads && threads[t].AsyncSignal?
  }

  /** The counter is the number of operations begun and not ended. */
  ghost predicate Counting(w: Wrapper, threads: map<Tid, Pc>)
  {
    w.inflight == |Counted(threads)|
  }

  /** The event is unset only while someone is counted or still has to set it. */
  ghost predicate Signals(w: Wrapper, threads: map<Tid, Pc>)
  {
    w.drained || Counted(threads) + Signalling(threads) != {}
  }

  ghost predicate Inv(s: State)
  {
    Locks(s.w, s.threads) && Retirement(s.w, s.threads) && Counting(s.w, s.threads) && Signals(s.w, s.threads)
  }

  // ---------------------------------------------------------------- what one step changes

  /** The lock changes hands exactly as the thread's position says. */
  predicate LockEffect(w: Wrapper, w': Wrapper, t: Tid, pc: Pc, pc': Pc)
  {
    && w'.readers == (if HoldsRead(pc') == HoldsRead(pc) then w.readers
                      else if HoldsRead(pc') then w.readers + {t} else w.readers - {t})
    && w'.writer == (if HoldsWrite(pc') == HoldsWrite(pc) then w.writer else if HoldsWrite(pc') then Some(t) else None)
    && (HoldsRead(pc') && !HoldsRead(pc) ==> w.writer.None?)
    && (HoldsWrite(pc') && !HoldsWrite(pc) ==> w.writer.None? && w.readers == {})
    && !(HoldsRead(pc') && HoldsWrite(pc)) && !(HoldsWrite(pc') && HoldsRead(pc))
  }

  predicate CountEffect(w: Wrapper, w': Wrapper, pc: Pc, pc': Pc)
  {
    && w'.inflight == w.inflight + (if IsCounted(pc') then 1 else 0) - (if IsCounted(pc) then 1 else 0)
    && w'.drained == (if pc.AsyncReset? then false else if pc.AsyncSignal? then true else w.drained)
    && (pc'.AsyncSignal? <==> pc.AsyncEnd? && w'.inflight == 0)
    && (pc.AsyncReset? ==> IsCounted(pc'))
    && (pc'.AsyncReset? <==> pc.AsyncGot? && w'.inflight == 1)
    && (IsCounted(pc') && !IsCounted(pc) ==> pc.AsyncGot?)
    && (IsCounted(pc) && !IsCounted(pc') ==> pc.AsyncEnd?)
  }

  predicate RetireEffect(w: Wrapper, w': Wrapper, t: Tid, pc: Pc, pc': Pc)
  {
    && (Retires(pc) ==> Retires(pc'))
    && (Retires(pc') && !Retires(pc) ==> !w.disposed)
    && w'.winner == (if Retires(pc') && !Retires(pc) then Some(t) else w.winner)
    && w'.disposed == (w.disposed || (Retires(pc') && !Retires(pc)))
    && (Exchanged(pc) ==> Exchanged(pc')) && (Exchanged(pc') ==> Retires(pc))
    && w'.ptr == (w.ptr && !(Exchanged(pc') && !Exchanged(pc)))
    && (HasFreed(pc) ==> HasFreed(pc'))
    && (HasFreed(pc') && !HasFreed(pc) && Exchanged(pc) ==> w'.freed == w.freed + 1)
    && (HasFreed(pc') && !HasFreed(pc) && !Exchanged(pc) ==> !w.ptr)
    && (HasFreed(pc') == HasFreed(pc) ==> w'.freed == w.freed)
  }

  predicate Effect(w: Wrapper, w': Wrapper, t: Tid, pc: Pc, pc': Pc)
  {
    LockEffect(w, w', t, pc, pc') && CountEffect(w, w', pc, pc') && RetireEffect(w, w', t, pc, pc')
  }

  lemma StepEffect(w: Wrapper, t: Tid, pc: Pc, closed: bool)
    requires Advance(w, t, pc, closed).Some?
    ensures var (w', pc') := Advance(w, t, pc, closed).value; Effect(w, w', t, pc, pc')
  {
    if SyncStep(w, t, pc).Some? {
      SyncLocks(w, t, pc); SyncCounts(w, t, pc); SyncRetires(w, t, pc);
    } else if CloseStep(w, t, pc).Some? {
      CloseLocks(w, t, pc); CloseCounts(w, t, pc); CloseRetires(w, t, pc);
    } else if RetireStep(w, t, pc, closed).Some? {
      RetiringLocks(w, t, pc, closed); RetiringCounts(w, t, pc, closed); RetiringRetires(w, t, pc, closed);
    } else if RecreateStep(w, t, pc, closed).Some? {
      RecreateEffect(w, t, pc, closed);
    } else {
      AsyncLocks(w, t, pc); AsyncCounts(w, t, pc); AsyncRetires(w, t, pc);
    }
  }

  lemma RecreateEffect(w: Wrapper, t: Tid, pc: Pc, made: bool)
    requires RecreateStep(w, t, pc, made).Some?
    ensures var (w', pc') := RecreateStep(w, t, pc, made).value; Effect(w, w', t, pc, pc')
  {
  }

  lemma SyncLocks(w: Wrapper, t: Tid, pc: Pc)
    requires SyncStep(w, t, pc).Some?
    ensures var (w', pc') := SyncStep(w, t, pc).value; LockEffect(w, w', t, pc, pc')
  {
  }

  lemma SyncCounts(w: Wrapper, t: Tid, pc: Pc)
    requires SyncStep(w, t, pc).Some?
    ensures var (w', pc') := SyncStep(w, t, pc).value; CountEffect(w, w', pc, pc')
  {
  }

  lemma SyncRetires(w: Wrapper, t: Tid, pc: Pc)
    requires SyncStep(w, t, pc).Some?
    ensures var (w', pc') := SyncStep(w, t, pc).value; RetireEffect(w, w', t, pc, pc')
  {
  }

  lemma CloseLocks(w: Wrapper, t: Tid, pc: Pc)
    requires CloseStep(w, t, pc).Some?
    ensures var (w', pc') := CloseStep(w, t, pc).value; LockEffect(w, w', t, pc, pc')
  {
  }

  lemma CloseCounts(w: Wrapper, t: Tid, pc: Pc)
    requires CloseStep(w, t, pc).Some?
    ensures var (w', pc') := CloseStep(w, t, pc).value; CountEffect(w, w', pc, pc')
  {
  }

  lemma CloseRetires(w: Wrapper, t: Tid, pc: Pc)
    requires CloseStep(w, t, pc).Some?
    ensures var (w', pc') := CloseStep(w, t, pc).value; RetireEffect(w, w', t, pc, pc')
  {
  }

  lemma AsyncLocks(w: Wrapper, t: Tid, pc: Pc)
    requires AsyncStep(w, t, pc).Some?
    ensures var (w', pc') := AsyncStep(w, t, pc).value; LockEffect(w, w', t, pc, pc')
  {
  }

  lemma AsyncCounts(w: Wrapper, t: Tid, pc: Pc)
    requires AsyncStep(w, t, pc).Some?
    ensures var (w', pc') := AsyncStep(w, t, pc).value; CountEffect(w, w', pc, pc')
  {
  }

  lemma AsyncRetires(w: Wrapper, t: Tid, pc: Pc)
    requires AsyncStep(w, t, pc).Some?
    ensures var (w', pc') := AsyncStep(w, t, pc).value; RetireEffect(w, w', t, pc, pc')
  {
  }

  lemma RetiringLocks(w: Wrapper, t: Tid, pc: Pc, closed: bool)
    requires RetireStep(w, t, pc, closed).Some?
    ensures var (w', pc') := RetireStep(w, t, pc, closed).value; LockEffect(w, w', t, pc, pc')
  {
  }

  lemma RetiringCounts(w: Wrapper, t: Tid, pc: Pc, closed: bool)
    requires RetireStep(w, t, pc, closed).Some?
    ensures var (w', pc') := RetireStep(w, t, pc, closed).value; CountEffect(w, w', pc, pc')
  {
  }

  lemma RetiringRetires(w: Wrapper, t: Tid, pc: Pc, closed: bool)
    requires RetireStep(w, t, pc, closed).Some?
    ensures var (w', pc') := RetireStep(w, t, pc, closed).value; RetireEffect(w, w', t, pc, pc')
  {
  }

  // ---------------------------------------------------------------- kept by every step

  lemma LocksKept(w: Wrapper, w': Wrapper, threads: map<Tid, Pc>, t: Tid, pc': Pc)
    requires t in threads && Locks(w, threads) && LockEffect(w, w', t, threads[t], pc')
    ensures Locks(w', threads[t := pc'])
  {
  }

  lemma RetirementKept(w: Wrapper, w': Wrapper, threads: map<Tid, Pc>, t: Tid, pc': Pc)
    requires t in threads && Retirement(w, threads) && RetireEffect(w, w', t, threads[t], pc')
    ensures Retirement(w', threads[t := pc'])
  {
  }

  lemma SetMoves(c: set<Tid>, t: Tid)
    ensures |c + {t}| == |c| + (if t in c then 0 else 1)
    ensures |c - {t}| == |c| - (if t in c then 1 else 0)
  {
    if t in c {
      assert c + {t} == c;
      assert |c - {t}| == |c| - 1;
    } else {
      assert c - {t} == c;
      assert |c + {t}| == |c| + 1;
    }
  }

  /** How moving one thread changes the set of counted threads. */
  lemma CountedMoves(threads: map<Tid, Pc>, t: Tid, pc: Pc)
    ensures Counted(threads[t := pc]) == (if IsCounted(pc) then Counted(threads) + {t} else Counted(threads) - {t})
    ensures |Counted(threads[t := pc])| == |Counted(threads)| + (if IsCounted(pc) then 1 else 0) - (if t in Counted(threads) then 1 else 0)
  {
    var c, c' := Counted(threads), Counted(threads[t := pc]);
    forall x ensures x in c' <==> (if x == t then IsCounted(pc) else x in c) {
    }
    assert c' == (if IsCounted(pc) then c + {t} else c - {t});
    SetMoves(c, t);
  }

  lemma SignallingMoves(threads: map<Tid, Pc>, t: Tid, pc: Pc)
    ensures Signalling(threads[t := pc]) == (if pc.AsyncSignal? then Signalling(threads) + {t} else Signalling(threads) - {t})
  {
    var c, c' := Signalling(threads), Signalling(threads[t := pc]);
    forall x ensures x in c' <==> (if x == t then pc.AsyncSignal? else x in c) {
    }
  }

  lemma CountingKept(w: Wrapper, w': Wrapper, threads: map<Tid, Pc>, t: Tid, pc': Pc)
    requires t in threads && Counting(w, threads) && Signals(w, threads) && CountEffect(w, w', threads[t], pc')
    ensures Counting(w', threads[t := pc']) && Signals(w', threads[t := pc'])
  {
    CountedMoves(threads, t, pc');
    SignallingMoves(threads, t, pc');
    assert t in Counted(threads) <==> IsCounted(threads[t]);
    var c, g := Counted(threads), Signalling(threads);
    if IsCounted(pc') {
      assert t in Counted(threads[t := pc']);
    } else if pc'.AsyncSignal? {
      assert t in Signalling(threads[t := pc']);
    } else if !w'.drained {
      var x :| x in c + g;
      if x == t && t in c {
        assert w'.inflight != 0;
        assert |c - {t}| > 0;
      }
      assert Counted(threads[t := pc']) + Signalling(threads[t := pc']) == (c - {t}) + (g - {t});
      if |c - {t}| > 0 {
        var y :| y in c - {t};
      } else {
        assert x in g;
        assert x != t;
        assert x in g - {t};
      }
    }
  }

  /** A call that has not done anything yet changes nothing. */
  lemma CallKeepsLocks(w: Wrapper, threads: map<Tid, Pc>, t: Tid, start: Pc)
    requires t !in threads && IsStart(start) && Locks(w, threads)
    ensures Locks(w, threads[t := start])
  {
    assert !HoldsRead(start) && !HoldsWrite(start);
  }

  lemma CallKeepsCounted(threads: map<Tid, Pc>, t: Tid, start: Pc)
    requires t !in threads && IsStart(start)
    ensures Counted(threads[t := start]) == Counted(threads) && Signalling(threads[t := start]) == Signalling(threads)
  {
    assert !IsCounted(start) && !start.AsyncSignal?;
    CountedMoves(threads, t, start);
    SignallingMoves(threads, t, start);
    assert Counted(threads) - {t} == Counted(threads);
    assert Signalling(threads) - {t} == Signalling(threads);
  }

  /** Whatever the interleaving, and with every atomic operation split apart, the invariant is kept. */
  lemma StepKeepsInv(s: State, a: Action)
    requires Inv(s) && Step(s, a).Some?
    ensures Inv(Step(s, a).value)
  {
    match a {
      case Call(t, start) =>
        CallKeepsLocks(s.w, s.threads, t, start);
        CallKeepsCounted(s.threads, t, start);
      case Go(t, closed) =>
        StepEffect(s.w, t, s.threads[t], closed);
        var (w', pc') := Advance(s.w, t, s.threads[t], closed).value;
        LocksKept(s.w, w', s.threads, t, pc');
        RetirementKept(s.w, w', s.threads, t, pc');
        CountingKept(s.w, w', s.threads, t, pc');
    }
  }

  function Exec(s: State, acts: seq<Action>): (r: Option<State>)
    decreases |acts|
  {
    if acts == [] then Some(s)
    else (match Step(s, acts[0]) case None => None case Some(t) => Exec(t, acts[1..]))
  }

  lemma {:induction false} RunKeepsInv(s: State, acts: seq<Action>)
    requires Inv(s) && Exec(s, acts).Some?
    ensures Inv(Exec(s, acts).value)
    decreases |acts|
  {
    if acts != [] {
      StepKeepsInv(s, acts[0]);
      RunKeepsInv(Step(s, acts[0]).value, acts[1..]);
    }
  }

  ghost predicate Reachable(s: State)
  {
    exists acts :: Exec(Init(), acts) == Some(s)
  }

  lemma ReachableInv(s: State)
    requires Reachable(s)
    ensures Inv(s)
  {
    var acts :| Exec(Init(), acts) == Some(s);
    assert Inv(Init());
    RunKeepsInv(Init(), acts);
  }

  /**
   Single free, at the finest granularity: at most one retiring call gets past the
   compare-and-swap, the handle is freed at most once, and it has been freed exactly once when
   the winning call has run to its end, whichever of the four kinds it is.
   */
  lemma FreedAtMostOnce(s: State, t: Tid, u: Tid)
    requires Reachable(s) && t in s.threads && u in s.threads
    ensures s.w.freed <= 1
    ensures Retires(s.threads[t]) && Retires(s.threads[u]) ==> t == u
    ensures s.threads[t].RetireDone? ==> s.w.freed == 1 && !s.w.ptr
    ensures !s.w.disposed ==> s.w.freed == 0 && s.w.ptr
  {
    ReachableInv(s);
  }

  /** The in-flight counter is exactly the number of asynchronous operations begun and not yet ended. */
  lemma CounterIsExact(s: State)
    requires Reachable(s)
    ensures s.w.inflight == |Counted(s.threads)|
    ensures s.w.inflight == 0 <==> forall t :: t in s.threads ==> !IsCounted(s.threads[t])
  {
    ReachableInv(s);
    assert forall t :: t in s.threads && IsCounted(s.threads[t]) ==> t in Counted(s.threads);
    if s.w.inflight != 0 {
      var t :| t in Counted(s.threads);
    }
  }
}
