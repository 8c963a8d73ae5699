/**
 What a late set of the drained event does to the .NET stream's lifetime protocol: from which
 states, with such a set still to come, a use after free can be reached, and that such states
 can be reached from the start.
 */
module StreamStaleSet {
  import opened Common
  import opened StreamLifetime
  import opened StreamSafety

  // ---------------------------------------------------------------- runs between states

  ghost predicate Leads(s: State, s': State)
  {
    exists acts :: Exec(s, acts) == Some(s')
  }

  lemma {:induction false} ExecSnoc(s: State, acts: seq<Action>, a: Action)
    requires Exec(s, acts).Some?
    ensures Exec(s, acts + [a]) == Step(Exec(s, acts).value, a)
    decreases |acts|
  {
    if acts == [] {
      assert acts + [a] == [a];
      assert [a][1..] == [];
    } else {
      assert (acts + [a])[1..] == acts[1..] + [a];
      ExecSnoc(Step(s, acts[0]).value, acts[1..], a);
    }
  }

  lemma LeadsOn(s: State, s': State, a: Action) returns (s'': State)
    requires Leads(s, s') && Step(s', a).Some?
    ensures Step(s', a) == Some(s'') && Leads(s, s'')
  {
    s'' := Step(s', a).value;
    var acts :| Exec(s, acts) == Some(s');
    ExecSnoc(s, acts, a);
  }

  lemma LeadsNowhere(s: State)
    ensures Leads(s, s)
  {
    assert Exec(s, []) == Some(s);
  }

  // ---------------------------------------------------------------- an event that can no longer be believed

  ghost predicate NoReset(s: State)
  {
    forall t :: t in s.threads ==> !s.threads[t].AsyncReset?
  }

  /** The event is set, and stays so, or somebody is about to set it. */
  ghost predicate Pending(s: State)
  {
    (exists t :: t in s.threads && s.threads[t].AsyncSignal?) || (s.w.drained && NoReset(s))
  }

  /** Thread `e` is counted and waits where it is, so that nobody else's increment resets the event. */
  ghost predicate Doomed(s: State, e: Tid)
  {
    Inv(s) && Pending(s) && e in s.threads && (s.threads[e].AsyncNative? || s.threads[e].AsyncEnd?)
  }

  lemma NoNewReset(s: State, e: Tid, a: Action)
    requires Counting(s.w, s.threads) && e in s.threads && IsCounted(s.threads[e])
    requires a.Go? && a.t in s.threads && a.t != e && Step(s, a).Some?
    ensures !Step(s, a).value.threads[a.t].AsyncReset?
  {
    StepEffect(s.w, a.t, s.threads[a.t], a.answer);
    if s.threads[a.t].AsyncGot? { NativeIsCounted(s.w, s.threads, e); }
  }

  lemma StepKeepsDoom(s: State, e: Tid, a: Action)
    requires Doomed(s, e) && Step(s, a).Some? && (a.Go? ==> a.t != e)
    requires a.Go? && s.threads[a.t].AsyncSignal? ==> NoReset(s)
    ensures Doomed(Step(s, a).value, e) && Step(s, a).value.threads[e] == s.threads[e]
  {
    StepKeepsInv(s, a);
    if a.Go? {
      StepKeepsPending(s, e, a);
    } else {
      CallKeepsPending(s, a);
    }
  }

  lemma StepKeepsPending(s: State, e: Tid, a: Action)
    requires Doomed(s, e) && a.Go? && Step(s, a).Some? && a.t != e
    requires s.threads[a.t].AsyncSignal? ==> NoReset(s)
    ensures Pending(Step(s, a).value)
  {
    var s' := Step(s, a).value;
    StepEffect(s.w, a.t, s.threads[a.t], a.answer);
    NoNewReset(s, e, a);
    if t :| t in s.threads && s.threads[t].AsyncSignal? && a.t != t {
      assert s'.threads[t].AsyncSignal?;
    }
  }

  lemma CallKeepsPending(s: State, a: Action)
    requires Pending(s) && a.Call? && Step(s, a).Some?
    ensures Pending(Step(s, a).value)
  {
    var s' := Step(s, a).value;
    if t :| t in s.threads && s.threads[t].AsyncSignal? {
      assert s'.threads[t].AsyncSignal?;
    }
  }

  lemma DoomGoesOn(s0: State, s: State, e: Tid, a: Action) returns (s': State)
    requires Leads(s0, s) && Doomed(s, e) && Step(s, a).Some? && (a.Go? ==> a.t != e)
    requires a.Go? && s.threads[a.t].AsyncSignal? ==> NoReset(s)
    ensures Step(s, a) == Some(s') && Leads(s0, s') && Doomed(s', e) && s'.threads[e] == s.threads[e]
  {
    StepKeepsDoom(s, e, a);
    s' := LeadsOn(s0, s, a);
  }

  // ---------------------------------------------------------------- letting go of the lock

  /** Steps that whoever holds a lock without retiring the stream is from giving it back. */
  function Rank(pc: Pc): nat
  {
    match pc
    case SyncIn => 4 case SyncChecked => 3 case SyncNative => 2 case SyncOut => 1
    case ReadIn => 3 case ReadChecked => 2 case ReadOut(_) => 1
    case AsyncIn(_) => 5 case AsyncChecked(_) => 4 case AsyncGot(_) => 3 case AsyncReset(_) => 2 case AsyncOut(_, _) => 1
    case CloseWait => 5 case CloseIn => 4 case CloseChecked => 3 case CloseNative => 2 case CloseOut => 1
    case _ => 0
  }

  /** What a holder's next step is to be: nearer to letting go, and of no consequence for retiring. */
  ghost predicate Nearer(w: Wrapper, pc: Pc, w': Wrapper, pc': Pc)
  {
    && Rank(pc') < Rank(pc) && w'.ptr == w.ptr && w'.disposed == w.disposed && w'.winner == w.winner
    && (if Rank(pc') > 0 then HoldsRead(pc') == HoldsRead(pc) && HoldsWrite(pc') == HoldsWrite(pc)
        else !HoldsRead(pc') && !HoldsWrite(pc'))
  }

  lemma SyncRankDrops(w: Wrapper, t: Tid, pc: Pc)
    requires pc.SyncIn? || pc.SyncChecked? || pc.SyncNative? || pc.SyncOut?
    ensures Advance(w, t, pc, true) == SyncStep(w, t, pc)
    ensures SyncStep(w, t, pc).Some? && var (w', pc') := SyncStep(w, t, pc).value; Nearer(w, pc, w', pc')
  {
  }

  lemma ReadRankDrops(w: Wrapper, t: Tid, pc: Pc)
    requires pc.ReadIn? || pc.ReadChecked? || pc.ReadOut?
    ensures Advance(w, t, pc, true) == RecreateStep(w, t, pc, true)
    ensures RecreateStep(w, t, pc, true).Some? && var (w', pc') := RecreateStep(w, t, pc, true).value; Nearer(w, pc, w', pc')
  {
  }

  lemma CloseRankDrops(w: Wrapper, t: Tid, pc: Pc)
    requires pc.CloseWait? || pc.CloseIn? || pc.CloseChecked? || pc.CloseNative? || pc.CloseOut?
    requires pc.CloseWait? ==> w.drained
    ensures Advance(w, t, pc, true) == CloseStep(w, t, pc)
    ensures CloseStep(w, t, pc).Some? && var (w', pc') := CloseStep(w, t, pc).value; Nearer(w, pc, w', pc')
  {
  }

  lemma AsyncRankDrops(w: Wrapper, t: Tid, pc: Pc)
    requires pc.AsyncIn? || pc.AsyncChecked? || pc.AsyncGot? || pc.AsyncReset? || pc.AsyncOut?
    ensures AsyncStep(w, t, pc).Some? && var (w', pc') := AsyncStep(w, t, pc).value; Nearer(w, pc, w', pc')
  {
  }

  lemma AsyncAdvances(w: Wrapper, t: Tid, pc: Pc)
    requires pc.AsyncIn? || pc.AsyncChecked? || pc.AsyncGot? || pc.AsyncReset? || pc.AsyncOut?
    ensures Advance(w, t, pc, true) == AsyncStep(w, t, pc)
  {
  }

  lemma RankDrops(w: Wrapper, t: Tid, pc: Pc)
    requires Rank(pc) > 0 && (pc.CloseWait? ==> w.drained)
    ensures Advance(w, t, pc, true).Some? && var (w', pc') := Advance(w, t, pc, true).value; Nearer(w, pc, w', pc')
  {
    if pc.SyncIn? || pc.SyncChecked? || pc.SyncNative? || pc.SyncOut? {
      SyncRankDrops(w, t, pc);
    } else if pc.ReadIn? || pc.ReadChecked? || pc.ReadOut? {
      ReadRankDrops(w, t, pc);
    } else if pc.CloseWait? || pc.CloseIn? || pc.CloseChecked? || pc.CloseNative? || pc.CloseOut? {
      CloseRankDrops(w, t, pc);
    } else {
      AsyncAdvances(w, t, pc);
      AsyncRankDrops(w, t, pc);
    }
  }

  lemma RankOfHolder(pc: Pc)
    requires HoldsRead(pc) || (HoldsWrite(pc) && !Retires(pc))
    ensures Rank(pc) > 0 && !Retires(pc) && !pc.AsyncSignal? && !pc.AsyncNative? && !pc.AsyncEnd?
  {
  }

  lemma SetStep(s: State, t: Tid)
    requires t in s.threads && s.threads[t].AsyncSignal?
    ensures Step(s, Go(t, true)) == Some(State(s.w.(drained := true), s.threads[t := Done]))
  {
  }

  /** If the event is not set, somebody, `t`, sets it. */
  lemma Sets(s0: State, s: State, e: Tid) returns (s': State, t: Tid)
    requires Leads(s0, s) && Doomed(s, e) && NoReset(s)
    ensures Leads(s0, s') && Doomed(s', e) && s'.threads[e] == s.threads[e]
    ensures (s' == s && s.w.drained)
         || (t in s.threads && s.threads[t].AsyncSignal? && s' == State(s.w.(drained := true), s.threads[t := Done]))
  {
    if s.w.drained {
      s', t := s, e;
    } else {
      t :| t in s.threads && s.threads[t].AsyncSignal?;
      SetStep(s, t);
      s' := DoomGoesOn(s0, s, e, Go(t, true));
    }
  }

  /** While a writer waits, nobody is about to reset the event. */
  lemma WaitersSeeNoReset(s: State, h: Tid)
    requires Locks(s.w, s.threads) && h in s.threads && (s.threads[h].CloseWait? || Retires(s.threads[h])) && HoldsWrite(s.threads[h])
    ensures NoReset(s)
  {
  }

  /** Nothing that retiring looks at has changed, and `h` has left the lock. */
  ghost predicate Left(s: State, s': State, h: Tid)
  {
    && s'.w.ptr == s.w.ptr && s'.w.disposed == s.w.disposed && s'.w.winner == s.w.winner
    && s'.w.readers == s.w.readers - {h} && s'.w.writer == (if s.w.writer == Some(h) then None else s.w.writer)
  }

  lemma {:induction false} Leaves(s0: State, s: State, e: Tid, h: Tid) returns (s': State)
    requires Leads(s0, s) && Doomed(s, e) && h in s.threads && h != e && Rank(s.threads[h]) > 0
    ensures Leads(s0, s') && Doomed(s', e) && s'.threads[e] == s.threads[e] && Left(s, s', h)
    decreases Rank(s.threads[h])
  {
    var ready, t := s, h;
    if s.threads[h].CloseWait? {
      WaitersSeeNoReset(s, h);
      ready, t := Sets(s0, s, e);
    }
    RankDrops(ready.w, h, ready.threads[h]);
    StepEffect(ready.w, h, ready.threads[h], true);
    s' := DoomGoesOn(s0, ready, e, Go(h, true));
    HoldsAsRanked(s, h);
    if Rank(s'.threads[h]) > 0 {
      s' := Leaves(s0, s', e, h);
    }
  }

  /** A thread with a rank holds exactly one of the two locks. */
  lemma HoldsAsRanked(s: State, h: Tid)
    requires Locks(s.w, s.threads) && h in s.threads && Rank(s.threads[h]) > 0
    ensures HoldsRead(s.threads[h]) != HoldsWrite(s.threads[h])
    ensures HoldsRead(s.threads[h]) ==> h in s.w.readers && s.w.writer.None?
    ensures HoldsWrite(s.threads[h]) ==> s.w.writer == Some(h) && s.w.readers == {}
  {
  }

  /** Everybody who holds a lock without retiring the stream can be made to leave. */
  lemma {:induction false} ReadersLeave(s0: State, s: State, e: Tid) returns (s': State)
    requires Leads(s0, s) && Doomed(s, e) && s.w.writer.None?
    ensures Leads(s0, s') && Doomed(s', e) && s'.threads[e] == s.threads[e]
    ensures s'.w.writer.None? && s'.w.readers == {}
    ensures s'.w.ptr == s.w.ptr && s'.w.disposed == s.w.disposed && s'.w.winner == s.w.winner
    decreases |s.w.readers|
  {
    if s.w.readers == {} {
      s' := s;
    } else {
      var h :| h in s.w.readers;
      RankOfHolder(s.threads[h]);
      s' := Leaves(s0, s, e, h);
      assert |s.w.readers - {h}| == |s.w.readers| - 1;
      s' := ReadersLeave(s0, s', e);
    }
  }

  lemma LockComesFree(s0: State, s: State, e: Tid) returns (s': State)
    requires Leads(s0, s) && Doomed(s, e)
    requires s.w.writer.Some? ==> !Retires(s.threads[s.w.writer.value])
    ensures Leads(s0, s') && Doomed(s', e) && s'.threads[e] == s.threads[e]
    ensures s'.w.writer.None? && s'.w.readers == {}
    ensures s'.w.ptr == s.w.ptr && s'.w.disposed == s.w.disposed && s'.w.winner == s.w.winner
  {
    s' := s;
    if s.w.writer.Some? {
      RankOfHolder(s.threads[s.w.writer.value]);
      s' := Leaves(s0, s, e, s.w.writer.value);
    }
    s' := ReadersLeave(s0, s', e);
  }

  // ---------------------------------------------------------------- the end

  /** From `s` a run leads to a use after free. */
  ghost predicate Fatal(s: State)
  {
    exists bad :: Leads(s, bad) && UseAfterFree(bad)
  }

  /** Once the pointer is taken, the retiring call frees it, whoever is still at work. */
  lemma {:induction false} TakenIsFatal(s0: State, s: State, u: Tid)
    requires Leads(s0, s) && Inv(s) && !s.w.ptr && u in s.threads && s.threads[u].AsyncNative?
    ensures Fatal(s0)
    decreases FreeRank(s.threads[s.w.winner.value])
  {
    var h := s.w.winner.value;
    if HasFreed(s.threads[h]) {
      assert UseAfterFree(s);
    } else {
      FreeRankDrops(s.w, h, s.threads[h]);
      StepKeepsInv(s, Go(h, true));
      var s' := LeadsOn(s0, s, Go(h, true));
      StepEffect(s.w, h, s.threads[h], true);
      TakenIsFatal(s0, s', u);
    }
  }

  function FreeRank(pc: Pc): nat
  {
    if pc.RetireOwned? then 3 else if pc.RetireClosing? then 2 else if pc.RetireFree? then 1 else 0
  }

  lemma FreeRankDrops(w: Wrapper, t: Tid, pc: Pc)
    requires Exchanged(pc) && !HasFreed(pc)
    ensures Advance(w, t, pc, true).Some?
    ensures var (w', pc') := Advance(w, t, pc, true).value; FreeRank(pc') < FreeRank(pc) && w'.ptr == w.ptr && w'.winner == w.winner
  {
  }

  lemma ClaimStep(w: Wrapper, v: Tid, k: Kind)
    requires !w.disposed
    ensures Advance(w, v, RetireStart(k), true) == Some((w.(disposed := true, winner := Some(v)), RetireClaimed(k)))
  {
  }

  lemma LockStep(w: Wrapper, h: Tid, k: Kind)
    requires w.writer.None? && w.readers == {}
    ensures Advance(w, h, RetireClaimed(k), true) == Some((w.(writer := Some(h)), RetireWait(k)))
  {
  }

  lemma WaitStep(w: Wrapper, h: Tid, k: Kind)
    requires w.drained
    ensures Advance(w, h, RetireWait(k), true) == Some((w, RetireIn(k)))
  {
  }

  lemma PointerGoes(w: Wrapper, h: Tid, pc: Pc)
    requires pc.RetireIn?
    ensures Advance(w, h, pc, true).Some? && !Advance(w, h, pc, true).value.0.ptr
  {
  }

  /** The retiring writer takes the pointer. */
  lemma WriterTakes(s0: State, s: State, u: Tid, h: Tid)
    requires Leads(s0, s) && Doomed(s, u) && s.threads[u].AsyncNative? && s.w.ptr
    requires h in s.threads && s.threads[h].RetireIn?
    ensures Fatal(s0)
  {
    PointerGoes(s.w, h, s.threads[h]);
    var s' := DoomGoesOn(s0, s, u, Go(h, true));
    TakenIsFatal(s0, s', u);
  }

  /** It gets past the wait. */
  lemma WaiterTakes(s0: State, s: State, u: Tid, h: Tid)
    requires Leads(s0, s) && Doomed(s, u) && s.threads[u].AsyncNative? && s.w.ptr
    requires h in s.threads && s.threads[h].RetireWait?
    ensures Fatal(s0)
  {
    WaitersSeeNoReset(s, h);
    var s', t := Sets(s0, s, u);
    WaitPasses(s0, s', u, h);
  }

  lemma WaitPasses(s0: State, s: State, u: Tid, h: Tid)
    requires Leads(s0, s) && Doomed(s, u) && s.threads[u].AsyncNative? && s.w.ptr && s.w.drained
    requires h in s.threads && s.threads[h].RetireWait?
    ensures Fatal(s0)
  {
    WaitStep(s.w, h, s.threads[h].kind);
    var s' := DoomGoesOn(s0, s, u, Go(h, true));
    WriterTakes(s0, s', u, h);
  }

  /** With the lock free, whoever has claimed the stream gets it. */
  lemma ClaimantTakes(s0: State, s: State, u: Tid, h: Tid)
    requires Leads(s0, s) && Doomed(s, u) && s.threads[u].AsyncNative? && s.w.ptr
    requires h in s.threads && s.threads[h].RetireClaimed? && s.w.writer.None? && s.w.readers == {}
    ensures Fatal(s0)
  {
    LockStep(s.w, h, s.threads[h].kind);
    var s' := DoomGoesOn(s0, s, u, Go(h, true));
    WaiterTakes(s0, s', u, h);
  }

  lemma FreshTid(threads: map<Tid, Pc>) returns (v: Tid)
    ensures v !in threads
  {
    v := 0;
    var rest := threads.Keys;
    while v in threads
      invariant rest <= threads.Keys && forall x :: x in threads && x !in rest ==> x < v
      decreases |rest|
    {
      rest := rest - {v};
      v := v + 1;
    }
  }

  /** With the lock free and the stream undisposed, a Dispose claims it. */
  lemma StarterTakes(s0: State, s: State, u: Tid, v: Tid)
    requires Leads(s0, s) && Doomed(s, u) && s.threads[u].AsyncNative? && s.w.ptr && !s.w.disposed
    requires v in s.threads && s.threads[v] == RetireStart(Dispose) && s.w.writer.None? && s.w.readers == {}
    ensures Fatal(s0)
  {
    ClaimStep(s.w, v, Dispose);
    var s' := DoomGoesOn(s0, s, u, Go(v, true));
    ClaimantTakes(s0, s', u, v);
  }

  lemma DisposeTakes(s0: State, s: State, u: Tid)
    requires Leads(s0, s) && Doomed(s, u) && s.threads[u].AsyncNative? && s.w.ptr
    requires !s.w.disposed && s.w.writer.None? && s.w.readers == {}
    ensures Fatal(s0)
  {
    var v := FreshTid(s.threads);
    var s' := DoomGoesOn(s0, s, u, Call(v, RetireStart(Dispose)));
    StarterTakes(s0, s', u, v);
  }

  /** An outstanding operation beside an event that can no longer be believed: a use after free follows in some run. */
  lemma OutstandingIsFatal(s0: State, s: State, u: Tid)
    requires Leads(s0, s) && Doomed(s, u) && s.threads[u].AsyncNative?
    ensures Fatal(s0)
  {
    if !s.w.ptr {
      TakenIsFatal(s0, s, u);
    } else if s.w.writer.Some? && Retires(s.threads[s.w.writer.value]) {
      RetiringTakes(s0, s, u);
    } else {
      var s' := LockComesFree(s0, s, u);
      if s'.w.disposed {
        ClaimantIsThere(s');
        ClaimantTakes(s0, s', u, s'.w.winner.value);
      } else {
        DisposeTakes(s0, s', u);
      }
    }
  }

  lemma RetiringTakes(s0: State, s: State, u: Tid)
    requires Leads(s0, s) && Doomed(s, u) && s.threads[u].AsyncNative? && s.w.ptr
    requires s.w.writer.Some? && Retires(s.threads[s.w.writer.value])
    ensures Fatal(s0)
  {
    var h := s.w.writer.value;
    if s.threads[h].RetireWait? {
      WaiterTakes(s0, s, u, h);
    } else {
      WriterTakes(s0, s, u, h);
    }
  }

  lemma ClaimantIsThere(s: State)
    requires Locks(s.w, s.threads) && Retirement(s.w, s.threads) && s.w.disposed && s.w.ptr && s.w.writer.None?
    ensures s.w.winner.Some? && s.w.winner.value in s.threads && s.threads[s.w.winner.value].RetireClaimed?
  {
  }

  // ---------------------------------------------------------------- exactly when

  /** Thread `u` has, or can still come to, an operation on the handle without looking at _disposed again. */
  predicate CanBegin(s: State, u: Tid)
  {
    u in s.threads &&
    var pc := s.threads[u];
    pc.AsyncNative? || (pc.AsyncOut? && pc.begun) || pc.AsyncReset? || pc.AsyncGot? || (pc.AsyncChecked? && s.w.ptr)
  }

  /** A late set still to come, and somebody who has or can come to an operation. */
  lemma {:induction false} BeginnerIsFatal(s0: State, s: State, t: Tid, u: Tid)
    requires Leads(s0, s) && Inv(s) && t in s.threads && s.threads[t].AsyncSignal? && CanBegin(s, u)
    ensures Fatal(s0)
    decreases Rank(s.threads[u])
  {
    if s.threads[u].AsyncNative? {
      OutstandingIsFatal(s0, s, u);
    } else {
      BeginnerStep(s, t, u);
      var s' := LeadsOn(s0, s, Go(u, true));
      BeginnerIsFatal(s0, s', t, u);
    }
  }

  lemma BeginnerStep(s: State, t: Tid, u: Tid)
    requires Inv(s) && t in s.threads && s.threads[t].AsyncSignal? && CanBegin(s, u) && !s.threads[u].AsyncNative?
    ensures Step(s, Go(u, true)).Some?
    ensures var s' := Step(s, Go(u, true)).value;
      && Inv(s') && s'.threads[t] == s.threads[t] && CanBegin(s', u) && Rank(s'.threads[u]) < Rank(s.threads[u])
  {
    BeginnerMoves(s.w, u, s.threads[u]);
    StepKeepsInv(s, Go(u, true));
  }

  lemma BeginnerMoves(w: Wrapper, u: Tid, pc: Pc)
    requires (pc.AsyncOut? && pc.begun) || pc.AsyncReset? || pc.AsyncGot? || (pc.AsyncChecked? && w.ptr)
    ensures AsyncStep(w, u, pc).Some? && Advance(w, u, pc, true) == AsyncStep(w, u, pc)
    ensures var (w', pc') := AsyncStep(w, u, pc).value;
      && (pc'.AsyncNative? || (pc'.AsyncOut? && pc'.begun) || pc'.AsyncReset? || pc'.AsyncGot?)
      && Rank(pc') < Rank(pc)
  {
  }

  /** Under the read lock, on the way to an operation. */
  predicate Begins(pc: Pc)
  {
    pc == AsyncIn(false) || pc == AsyncChecked(false) || pc == AsyncGot(false) || pc == AsyncOut(false, true)
  }

  lemma NewcomerStep(w: Wrapper, v: Tid, pc: Pc)
    requires Begins(pc) && w.ptr && !w.disposed && w.inflight > 0
    ensures AsyncStep(w, v, pc).Some? && Advance(w, v, pc, true) == AsyncStep(w, v, pc)
    ensures var (w', pc') := AsyncStep(w, v, pc).value;
      (Begins(pc') || pc'.AsyncNative?) && Rank(pc') < Rank(pc) && !w'.disposed
  {
  }

  lemma UndisposedHasPointer(s: State)
    requires Retirement(s.w, s.threads) && !s.w.disposed
    ensures s.w.ptr
  {
  }

  lemma CountedIsPositive(s: State, e: Tid)
    requires Doomed(s, e)
    ensures s.w.inflight > 0
  {
    NativeIsCounted(s.w, s.threads, e);
  }

  /** A newcomer under the read lock of an undisposed stream gets to its operation without resetting the event. */
  lemma {:induction false} NewcomerIsFatal(s0: State, s: State, e: Tid, v: Tid)
    requires Leads(s0, s) && Doomed(s, e) && !s.w.disposed && v != e && v in s.threads
    requires Begins(s.threads[v]) || s.threads[v].AsyncNative?
    ensures Fatal(s0)
    decreases Rank(s.threads[v])
  {
    if s.threads[v].AsyncNative? {
      OutstandingIsFatal(s0, s, v);
    } else {
      UndisposedHasPointer(s);
      CountedIsPositive(s, e);
      NewcomerStep(s.w, v, s.threads[v]);
      var s' := DoomGoesOn(s0, s, e, Go(v, true));
      NewcomerIsFatal(s0, s', e, v);
    }
  }

  lemma ReaderEnters(w: Wrapper, v: Tid)
    requires w.writer.None?
    ensures Advance(w, v, AsyncStart(false), true) == Some((w.(readers := w.readers + {v}), AsyncIn(false)))
  {
  }

  lemma NewcomerEnters(s0: State, s: State, e: Tid, v: Tid)
    requires Leads(s0, s) && Doomed(s, e) && !s.w.disposed && s.w.writer.None?
    requires v in s.threads && s.threads[v] == AsyncStart(false)
    ensures Fatal(s0)
  {
    ReaderEnters(s.w, v);
    var s' := DoomGoesOn(s0, s, e, Go(v, true));
    NewcomerIsFatal(s0, s', e, v);
  }

  lemma NewcomerCalls(s0: State, s: State, e: Tid)
    requires Leads(s0, s) && Doomed(s, e) && !s.w.disposed && s.w.writer.None?
    ensures Fatal(s0)
  {
    var v := FreshTid(s.threads);
    var s' := DoomGoesOn(s0, s, e, Call(v, AsyncStart(false)));
    NewcomerEnters(s0, s', e, v);
  }

  lemma UndisposedIsFatal(s0: State, s: State, e: Tid)
    requires Leads(s0, s) && Doomed(s, e) && !s.w.disposed
    ensures Fatal(s0)
  {
    UndisposedHasNoRetirer(s);
    var s' := LockComesFree(s0, s, e);
    NewcomerCalls(s0, s', e);
  }

  lemma UndisposedHasNoRetirer(s: State)
    requires Locks(s.w, s.threads) && Retirement(s.w, s.threads) && !s.w.disposed
    ensures forall h :: h in s.threads ==> !Retires(s.threads[h])
  {
  }

  // ---- and when not

  predicate UsesUnderLock(pc: Pc)
  {
    pc.SyncNative? || pc.CloseNative?
  }

  /** Whatever the event says, the lock alone keeps synchronous calls off a pointer that was taken. */
  ghost predicate LockGate(s: State)
  {
    !s.w.ptr ==> forall u :: u in s.threads ==> !UsesUnderLock(s.threads[u])
  }

  lemma LockGateEffect(w: Wrapper, t: Tid, pc: Pc, answer: bool)
    requires Advance(w, t, pc, answer).Some?
    ensures var (w', pc') := Advance(w, t, pc, answer).value;
      && (UsesUnderLock(pc') ==> w'.ptr) && (w'.ptr ==> w.ptr) && (w.ptr && !w'.ptr ==> HoldsWrite(pc))
  {
  }

  lemma StepKeepsLockGate(s: State, a: Action)
    requires Inv(s) && LockGate(s) && Step(s, a).Some?
    ensures LockGate(Step(s, a).value)
  {
    if a.Go? { LockGateEffect(s.w, a.t, s.threads[a.t], a.answer); }
  }

  lemma {:induction false} RunKeepsLockGate(s: State, acts: seq<Action>)
    requires Inv(s) && LockGate(s) && Exec(s, acts).Some?
    ensures Inv(Exec(s, acts).value) && LockGate(Exec(s, acts).value)
    decreases |acts|
  {
    if acts != [] {
      StepKeepsLockGate(s, acts[0]);
      StepKeepsInv(s, acts[0]);
      RunKeepsLockGate(Step(s, acts[0]).value, acts[1..]);
    }
  }

  /** The stream is claimed and nobody can come to an operation any more. */
  ghost predicate Over(s: State)
  {
    Inv(s) && LockGate(s) && s.w.disposed && forall u :: !CanBegin(s, u)
  }

  lemma BeginEffect(w: Wrapper, t: Tid, pc: Pc, answer: bool)
    requires Advance(w, t, pc, answer).Some? && w.disposed
    ensures var (w', pc') := Advance(w, t, pc, answer).value;
      && w'.disposed
      && (pc'.AsyncNative? || (pc'.AsyncOut? && pc'.begun) || pc'.AsyncReset? || pc'.AsyncGot? || pc'.AsyncChecked? ==>
            (pc.AsyncOut? && pc.begun) || pc.AsyncReset? || pc.AsyncGot? || (pc.AsyncChecked? && w.ptr))
  {
    StepEffect(w, t, pc, answer);
  }

  lemma StepKeepsOver(s: State, a: Action)
    requires Over(s) && Step(s, a).Some?
    ensures Over(Step(s, a).value)
  {
    StepKeepsInv(s, a);
    StepKeepsLockGate(s, a);
    var s' := Step(s, a).value;
    if a.Go? {
      assert !CanBegin(s, a.t);
      BeginEffect(s.w, a.t, s.threads[a.t], a.answer);
      LockGateEffect(s.w, a.t, s.threads[a.t], a.answer);
    }
    forall u ensures !CanBegin(s', u) { assert !CanBegin(s, u); }
  }

  lemma OverIsSafe(s: State)
    requires Over(s)
    ensures !UseAfterFree(s)
  {
    forall u | u in s.threads && s.w.freed > 0 ensures !InNative(s.threads[u]) {
      assert !CanBegin(s, u);
    }
  }

  lemma {:induction false} OverStaysSafe(s: State, acts: seq<Action>)
    requires Over(s) && Exec(s, acts).Some?
    ensures !UseAfterFree(Exec(s, acts).value)
    decreases |acts|
  {
    if acts == [] {
      OverIsSafe(s);
    } else {
      StepKeepsOver(s, acts[0]);
      OverStaysSafe(Step(s, acts[0]).value, acts[1..]);
    }
  }

  /**
   In every reachable state in which a thread still has to set the event although operations
   are counted, a use after free can follow exactly when the stream is not yet disposed or some
   asynchronous call is past its look at _disposed and not yet past its operation.
   */
  lemma StaleSetIsFatalExactly(s: State, t: Tid)
    requires Reachable(s) && t in s.threads && s.threads[t].AsyncSignal? && s.w.inflight != 0
    ensures IsStaleSet(s, Go(t, true))
    ensures Fatal(s) <==> !s.w.disposed || exists u :: CanBegin(s, u)
  {
    var acts :| Exec(Init(), acts) == Some(s);
    assert LockGate(Init());
    RunKeepsLockGate(Init(), acts);
    LeadsNowhere(s);
    if u :| CanBegin(s, u) {
      BeginnerIsFatal(s, s, t, u);
    } else if !s.w.disposed {
      assert Counted(s.threads) != {};
      var e :| e in Counted(s.threads);
      assert !CanBegin(s, e);
      UndisposedIsFatal(s, s, e);
    } else if Fatal(s) {
      var bad :| Leads(s, bad) && UseAfterFree(bad);
      var more :| Exec(s, more) == Some(bad);
      OverStaysSafe(s, more);
    }
  }

  // ---------------------------------------------------------------- and such states are reached

  /** Thread `t` alone goes on by one step, to `pc'`, leaving the wrapper as `w'`. */
  lemma GoesOn(s0: State, w: Wrapper, threads: map<Tid, Pc>, t: Tid, pc: Pc, closed: bool)
    requires Leads(s0, State(w, threads[t := pc])) && Advance(w, t, pc, closed).Some?
    ensures var (w', pc') := Advance(w, t, pc, closed).value; Leads(s0, State(w', threads[t := pc']))
  {
    var (w', pc') := Advance(w, t, pc, closed).value;
    var s' := LeadsOn(s0, State(w, threads[t := pc]), Go(t, closed));
    assert threads[t := pc][t := pc'] == threads[t := pc'];
  }

  lemma BeginGetsIn(s0: State, w: Wrapper, threads: map<Tid, Pc>, t: Tid)
    requires Leads(s0, State(w, threads[t := AsyncStart(false)])) && w.writer.None? && !w.disposed && w.ptr
    ensures Leads(s0, State(w.(readers := w.readers + {t}), threads[t := AsyncGot(false)]))
  {
    var w1 := w.(readers := w.readers + {t});
    GoesOn(s0, w, threads, t, AsyncStart(false), false);      // enters the read lock
    GoesOn(s0, w1, threads, t, AsyncIn(false), false);        // not disposed
    GoesOn(s0, w1, threads, t, AsyncChecked(false), false);   // has a pointer
  }

  lemma BeginCounts(s0: State, w: Wrapper, threads: map<Tid, Pc>, t: Tid)
    requires Leads(s0, State(w, threads[t := AsyncGot(false)])) && w.inflight == 0
    ensures Leads(s0, State(w.(inflight := 1, drained := false, readers := w.readers - {t}), threads[t := AsyncNative]))
  {
    var w1 := w.(inflight := 1);
    GoesOn(s0, w, threads, t, AsyncGot(false), false);                             // Increment
    GoesOn(s0, w1, threads, t, AsyncReset(false), false);                          // Reset
    GoesOn(s0, w1.(drained := false), threads, t, AsyncOut(false, true), false);   // leaves the lock
  }

  /** A new asynchronous call that nobody gets in the way of reaches its native operation. */
  lemma BeginAlone(s0: State, s: State, t: Tid)
    requires Leads(s0, s) && t !in s.threads && s.w.writer.None? && s.w.readers == {} && !s.w.disposed && s.w.ptr
    requires s.w.inflight == 0
    ensures Leads(s0, State(s.w.(inflight := 1, drained := false), s.threads[t := AsyncNative]))
  {
    var called := LeadsOn(s0, s, Call(t, AsyncStart(false)));
    BeginGetsIn(s0, s.w, s.threads, t);
    var w := s.w.(readers := s.w.readers + {t});
    BeginCounts(s0, w, s.threads, t);
    assert w.readers - {t} == s.w.readers;
  }

  /** Two overlapping asynchronous calls reach a state with a late set still to come. */
  lemma LateSetIsReached(s: State)
    requires s == State(Init().w.(inflight := 1, drained := false), map[][0 := AsyncSignal][1 := AsyncNative])
    ensures Reachable(s)
  {
    LeadsNowhere(Init());
    BeginAlone(Init(), Init(), 0);
    var w := Init().w.(inflight := 1, drained := false);
    GoesOn(Init(), w, map[], 0, AsyncNative, false); // the operation finishes
    GoesOn(Init(), w, map[], 0, AsyncEnd, false);    // Decrement returns 0
    BeginAlone(Init(), State(w.(inflight := 0), map[][0 := AsyncSignal]), 1);
  }

  /**
   With the decrement and the set as separate steps the protocol is not safe: two overlapping
   asynchronous calls and a Dispose reach a use after free.
   */
  lemma SplitEndIsUnsafe() returns (bad: State)
    ensures Reachable(bad) && UseAfterFree(bad)
  {
    var s := State(Init().w.(inflight := 1, drained := false), map[][0 := AsyncSignal][1 := AsyncNative]);
    LateSetIsReached(s);
    StaleSetIsFatalExactly(s, 0);
    bad :| Leads(s, bad) && UseAfterFree(bad);
    LeadsThrough(Init(), s, bad);
  }

  lemma LeadsThrough(s: State, s': State, s'': State)
    requires Leads(s, s') && Leads(s', s'')
    ensures Leads(s, s'')
  {
    var a :| Exec(s, a) == Some(s');
    var b :| Exec(s', b) == Some(s'');
    ExecConcat(s, a, b);
  }

  lemma {:induction false} ExecConcat(s: State, a: seq<Action>, b: seq<Action>)
    requires Exec(s, a).Some?
    ensures Exec(s, a + b) == Exec(Exec(s, a).value, b)
    decreases |a|
  {
    if a == [] {
      assert a + b == b;
    } else {
      assert (a + b)[1..] == a[1..] + b;
      ExecConcat(Step(s, a[0]).value, a[1..], b);
    }
  }
}
