/**
 What each call on the .NET wrapper does from its start to its end, in every run: the positions
 it passes are exactly those of its path, which depends only on what it found, and on the answers
 of the native library.  So no call returns without the native call it was made for, unless it
 found the stream disposed; and no run gets stuck.
 */
module StreamTrace {
  import opened Common
  import opened StreamLifetime
  import opened StreamSafety

  /** One step of a call: where it was, the wrapper it found there, and what the native library answered. */
  datatype Visit = Visit(pc: Pc, w: Wrapper, answer: bool)

  /** The steps call `t` takes in a run from `s`. */
  function Visits(s: State, acts: seq<Action>, t: Tid): seq<Visit>
    decreases |acts|
  {
    if acts == [] || Step(s, acts[0]).None? then []
    else
      var rest := Visits(Step(s, acts[0]).value, acts[1..], t);
      if acts[0].Go? && acts[0].t == t then [Visit(s.threads[t], s.w, acts[0].answer)] + rest else rest
  }

  /** How call `t` was made. */
  function StartOf(acts: seq<Action>, t: Tid): Option<Pc>
  {
    if acts == [] then None
    else if acts[0].Call? && acts[0].t == t then Some(acts[0].start)
    else StartOf(acts[1..], t)
  }

  // ---------------------------------------------------------------- the paths

  /** The wrapper was found disposed at step `k`. */
  predicate Disposed(vs: seq<Visit>, k: nat)
  {
    k < |vs| && vs[k].w.disposed
  }

  predicate Yes(vs: seq<Visit>, k: nat)
  {
    k < |vs| && vs[k].answer
  }

  /** `n` operations were in flight at step `k`. */
  predicate InFlight(vs: seq<Visit>, k: nat, n: int)
  {
    k < |vs| && vs[k].w.inflight == n
  }

  function SyncPath(disposed: bool): seq<Pc>
  {
    if disposed then [SyncStart, SyncIn, SyncOut, Done]
    else [SyncStart, SyncIn, SyncChecked, SyncNative, SyncOut, Done]
  }

  /** The operation that is `first` in flight resets the event, the `last` sets it. */
  function AsyncPath(write: bool, disposed: bool, first: bool, last: bool): seq<Pc>
  {
    if disposed then [AsyncStart(write), AsyncIn(write), AsyncOut(write, false), Done]
    else
      (if first then [AsyncStart(write), AsyncIn(write), AsyncChecked(write), AsyncGot(write), AsyncReset(write)]
       else [AsyncStart(write), AsyncIn(write), AsyncChecked(write), AsyncGot(write)]) +
      (if last then [AsyncOut(write, true), AsyncNative, AsyncEnd, AsyncSignal, Done]
       else [AsyncOut(write, true), AsyncNative, AsyncEnd, Done])
  }

  function ClosePath(disposed: bool): seq<Pc>
  {
    if disposed then [CloseStart, CloseWait, CloseIn, CloseOut, Done]
    else [CloseStart, CloseWait, CloseIn, CloseChecked, CloseNative, CloseOut, Done]
  }

  /** Only the first call to retire does anything; only disposal closes a stream that is not `closed`. */
  function RetirePath(k: Kind, disposed: bool, closed: bool): seq<Pc>
  {
    if disposed then [RetireStart(k), Done]
    else if k.Finalize? || k.Recreate? then
      [RetireStart(k), RetireClaimed(k), RetireWait(k), RetireIn(k), RetireFree(k), RetireOut(k), RetireDone(k)]
    else
      (if closed then
         [RetireStart(k), RetireClaimed(k), RetireWait(k), RetireIn(k), RetireOwned(k)]
       else
         [RetireStart(k), RetireClaimed(k), RetireWait(k), RetireIn(k), RetireOwned(k), RetireClosing(k)]) +
      (if k.Dispose? then [RetireFree(k), RetireOut(k), RetireDone(k)] else [RetireFree(k), RetireDone(k)])
  }

  function RecreatePath(disposed: bool, made: bool, overtaken: bool): seq<Pc>
  {
    if disposed then [ReadStart, ReadIn, ReadOut(false), Done]
    else
      [ReadStart, ReadIn, ReadChecked, ReadOut(true), Making] +
      if made then RetirePath(Recreate, overtaken, true) else [Done]
  }

  function AsyncPathOf(write: bool, vs: seq<Visit>): seq<Pc>
  {
    var first := InFlight(vs, 3, 0);
    AsyncPath(write, Disposed(vs, 1), first, InFlight(vs, if first then 7 else 6, 1))
  }

  function RecreatePathOf(vs: seq<Visit>): seq<Pc>
  {
    RecreatePath(Disposed(vs, 1), Yes(vs, 4), Disposed(vs, 5))
  }

  /** The path of a call from `start`, given what it found on the way. */
  function Path(start: Pc, vs: seq<Visit>): seq<Pc>
  {
    match start
    case SyncStart => SyncPath(Disposed(vs, 1))
    case AsyncStart(write) => AsyncPathOf(write, vs)
    case CloseStart => ClosePath(Disposed(vs, 2))
    case ReadStart => RecreatePathOf(vs)
    case RetireStart(kind) => RetirePath(kind, Disposed(vs, 0), Yes(vs, 4))
    case _ => []
  }

  /** Nobody waits for the event in vain. */
  predicate Passes(v: Visit)
  {
    Waits(v.pc) ==> v.w.drained
  }

  /** The steps so far are the beginning of the path, and `pc` comes next. */
  predicate Along(vs: seq<Visit>, pc: Pc, path: seq<Pc>)
  {
    |vs| < |path| && pc == path[|vs|] && forall i :: 0 <= i < |vs| ==> vs[i].pc == path[i] && Passes(vs[i])
  }

  predicate Returned(pc: Pc)
  {
    pc.Done? || pc.RetireDone?
  }

  // ---------------------------------------------------------------- the pointer stays while it is looked at

  /** Under its lock, has found the wrapper undisposed. */
  predicate Looks(pc: Pc)
  {
    pc.SyncChecked? || pc.AsyncChecked? || pc.CloseChecked? || pc.ReadChecked?
  }

  ghost predicate Held(s: State)
  {
    forall t :: t in s.threads && Looks(s.threads[t]) ==> s.w.ptr
  }

  lemma StepLooks(w: Wrapper, t: Tid, pc: Pc, answer: bool)
    requires Advance(w, t, pc, answer).Some?
    ensures var (w', pc') := Advance(w, t, pc, answer).value;
            && (Looks(pc') ==> !w.disposed && w'.ptr == w.ptr)
            && (w.ptr && !w'.ptr ==> pc.RetireIn?)
  {
  }

  lemma StepKeepsHeld(s: State, a: Action, s': State)
    requires Inv(s) && Held(s) && Step(s, a) == Some(s')
    ensures Held(s')
  {
    if a.Go? {
      StepLooks(s.w, a.t, s.threads[a.t], a.answer);
      if s.threads[a.t].RetireIn? {
        assert s.w.writer == Some(a.t);
      }
    }
  }

  // ---------------------------------------------------------------- one step on the path

  /** Under its lock, or retiring alone, a call finds the pointer where it was. */
  predicate Sees(w: Wrapper, pc: Pc)
  {
    Looks(pc) || pc.RetireIn? ==> w.ptr
  }

  /** Where the step of a synchronous call leads. */
  predicate SyncMove(v: Visit, pc: Pc)
  {
    && (v.pc.SyncStart? ==> pc == SyncIn)
    && (v.pc.SyncIn? ==> pc == if v.w.disposed then SyncOut else SyncChecked)
    && (v.pc.SyncChecked? ==> pc == SyncNative)
    && (v.pc.SyncNative? ==> pc == SyncOut)
    && (v.pc.SyncOut? ==> pc == Done)
    && !v.pc.Done?
  }

  lemma SyncMoves(w: Wrapper, t: Tid, pc: Pc, answer: bool)
    requires Sees(w, pc) && Advance(w, t, pc, answer).Some?
    ensures SyncMove(Visit(pc, w, answer), Advance(w, t, pc, answer).value.1)
  {
  }

  lemma SyncAlong(vs: seq<Visit>, v: Visit, pc: Pc)
    requires Along(vs, v.pc, SyncPath(Disposed(vs, 1))) && SyncMove(v, pc)
    ensures Along(vs + [v], pc, SyncPath(Disposed(vs + [v], 1)))
  {
  }

  predicate CloseMove(v: Visit, pc: Pc)
  {
    && (v.pc.CloseStart? ==> pc == CloseWait)
    && (v.pc.CloseWait? ==> pc == CloseIn && v.w.drained)
    && (v.pc.CloseIn? ==> pc == if v.w.disposed then CloseOut else CloseChecked)
    && (v.pc.CloseChecked? ==> pc == CloseNative)
    && (v.pc.CloseNative? ==> pc == CloseOut)
    && (v.pc.CloseOut? ==> pc == Done)
    && !v.pc.Done?
  }

  lemma CloseMoves(w: Wrapper, t: Tid, pc: Pc, answer: bool)
    requires Sees(w, pc) && Advance(w, t, pc, answer).Some?
    ensures CloseMove(Visit(pc, w, answer), Advance(w, t, pc, answer).value.1)
  {
  }

  lemma CloseAlong(vs: seq<Visit>, v: Visit, pc: Pc)
    requires Along(vs, v.pc, ClosePath(Disposed(vs, 2))) && CloseMove(v, pc)
    ensures Along(vs + [v], pc, ClosePath(Disposed(vs + [v], 2)))
  {
  }

  predicate AsyncMove(v: Visit, pc: Pc)
  {
    && (v.pc.AsyncStart? ==> pc == AsyncIn(v.pc.write))
    && (v.pc.AsyncIn? ==> pc == if v.w.disposed then AsyncOut(v.pc.write, false) else AsyncChecked(v.pc.write))
    && (v.pc.AsyncChecked? ==> pc == AsyncGot(v.pc.write))
    && (v.pc.AsyncGot? ==> pc == if v.w.inflight == 0 then AsyncReset(v.pc.write) else AsyncOut(v.pc.write, true))
    && (v.pc.AsyncReset? ==> pc == AsyncOut(v.pc.write, true))
    && (v.pc.AsyncOut? ==> pc == if v.pc.begun then AsyncNative else Done)
    && (v.pc.AsyncNative? ==> pc == AsyncEnd)
    && (v.pc.AsyncEnd? ==> pc == if v.w.inflight == 1 then AsyncSignal else Done)
    && (v.pc.AsyncSignal? ==> pc == Done)
    && !v.pc.Done?
  }

  lemma AsyncMoves(w: Wrapper, t: Tid, pc: Pc, answer: bool)
    requires Sees(w, pc) && Advance(w, t, pc, answer).Some?
    ensures AsyncMove(Visit(pc, w, answer), Advance(w, t, pc, answer).value.1)
  {
  }

  lemma AsyncAlong(vs: seq<Visit>, v: Visit, pc: Pc, write: bool)
    requires Along(vs, v.pc, AsyncPathOf(write, vs)) && AsyncMove(v, pc)
    ensures Along(vs + [v], pc, AsyncPathOf(write, vs + [v]))
  {
    if |vs| < 4 {
      BeginAlong(vs, v, pc, write);
    } else {
      EndAlong(vs, v, pc, write, InFlight(vs, 3, 0));
    }
  }

  lemma BeginAlong(vs: seq<Visit>, v: Visit, pc: Pc, write: bool)
    requires Along(vs, v.pc, AsyncPathOf(write, vs)) && AsyncMove(v, pc) && |vs| < 4
    ensures Along(vs + [v], pc, AsyncPathOf(write, vs + [v]))
  {
  }

  lemma EndAlong(vs: seq<Visit>, v: Visit, pc: Pc, write: bool, first: bool)
    requires |vs| >= 4 && first == (vs[3].w.inflight == 0) && !vs[1].w.disposed
    requires Along(vs, v.pc, AsyncPath(write, false, first, InFlight(vs, if first then 7 else 6, 1)))
    requires AsyncMove(v, pc)
    ensures Along(vs + [v], pc, AsyncPath(write, false, first, InFlight(vs + [v], if first then 7 else 6, 1)))
  {
    var k := if first then 7 else 6;
    if |vs| < k {
      OperationAlong(vs, v, pc, write, first);
    } else if |vs| == k {
      DecrementAlong(vs, v, pc, write, first, k);
    } else {
      SignalAlong(vs, v, pc, write, first, k);
    }
  }

  lemma OperationAlong(vs: seq<Visit>, v: Visit, pc: Pc, write: bool, first: bool)
    requires 4 <= |vs| < (if first then 7 else 6)
    requires Along(vs, v.pc, AsyncPath(write, false, first, false)) && AsyncMove(v, pc)
    ensures Along(vs + [v], pc, AsyncPath(write, false, first, InFlight(vs + [v], if first then 7 else 6, 1)))
  {
  }

  lemma DecrementAlong(vs: seq<Visit>, v: Visit, pc: Pc, write: bool, first: bool, k: nat)
    requires |vs| == k == (if first then 7 else 6)
    requires Along(vs, v.pc, AsyncPath(write, false, first, false)) && AsyncMove(v, pc)
    ensures Along(vs + [v], pc, AsyncPath(write, false, first, v.w.inflight == 1))
  {
  }

  lemma SignalAlong(vs: seq<Visit>, v: Visit, pc: Pc, write: bool, first: bool, k: nat)
    requires |vs| > k == (if first then 7 else 6)
    requires Along(vs, v.pc, AsyncPath(write, false, first, vs[k].w.inflight == 1)) && AsyncMove(v, pc)
    ensures Along(vs + [v], pc, AsyncPath(write, false, first, vs[k].w.inflight == 1))
  {
  }

  predicate RetireMove(v: Visit, pc: Pc)
  {
    && (v.pc.RetireStart? ==> pc == if v.w.disposed then Done else RetireClaimed(v.pc.kind))
    && (v.pc.RetireClaimed? ==> pc == RetireWait(v.pc.kind))
    && (v.pc.RetireWait? ==> pc == RetireIn(v.pc.kind) && v.w.drained)
    && (v.pc.RetireIn? ==>
          pc == if v.pc.kind.Finalize? || v.pc.kind.Recreate? then RetireFree(v.pc.kind) else RetireOwned(v.pc.kind))
    && (v.pc.RetireOwned? ==> pc == if v.answer then RetireFree(v.pc.kind) else RetireClosing(v.pc.kind))
    && (v.pc.RetireClosing? ==> pc == RetireFree(v.pc.kind))
    && (v.pc.RetireFree? ==> pc == if v.pc.kind.DisposeAsync? then RetireDone(v.pc.kind) else RetireOut(v.pc.kind))
    && (v.pc.RetireOut? ==> pc == RetireDone(v.pc.kind))
    && !v.pc.Done? && !v.pc.RetireDone?
  }

  lemma RetireMoves(w: Wrapper, t: Tid, pc: Pc, answer: bool)
    requires Sees(w, pc) && Advance(w, t, pc, answer).Some?
    ensures RetireMove(Visit(pc, w, answer), Advance(w, t, pc, answer).value.1)
  {
  }

  lemma RetireAlong(vs: seq<Visit>, v: Visit, pc: Pc, k: Kind)
    requires Along(vs, v.pc, RetirePath(k, Disposed(vs, 0), Yes(vs, 4))) && RetireMove(v, pc)
    ensures Along(vs + [v], pc, RetirePath(k, Disposed(vs + [v], 0), Yes(vs + [v], 4)))
  {
    if k.Finalize? || k.Recreate? {
      FreeAlong(vs, v, pc, k);
    } else if |vs| < 5 {
      DisposalBegins(vs, v, pc, k);
    } else {
      DisposalEnds(vs, v, pc, k, vs[4].answer);
    }
  }

  lemma DisposalBegins(vs: seq<Visit>, v: Visit, pc: Pc, k: Kind)
    requires (k.Dispose? || k.DisposeAsync?) && |vs| < 5
    requires Along(vs, v.pc, RetirePath(k, Disposed(vs, 0), Yes(vs, 4))) && RetireMove(v, pc)
    ensures Along(vs + [v], pc, RetirePath(k, Disposed(vs + [v], 0), Yes(vs + [v], 4)))
  {
  }

  lemma DisposalEnds(vs: seq<Visit>, v: Visit, pc: Pc, k: Kind, closed: bool)
    requires (k.Dispose? || k.DisposeAsync?) && |vs| >= 5
    requires Along(vs, v.pc, RetirePath(k, false, closed)) && RetireMove(v, pc)
    ensures Along(vs + [v], pc, RetirePath(k, false, closed))
  {
  }

  lemma FreeAlong(vs: seq<Visit>, v: Visit, pc: Pc, k: Kind)
    requires k.Finalize? || k.Recreate?
    requires Along(vs, v.pc, RetirePath(k, Disposed(vs, 0), Yes(vs, 4))) && RetireMove(v, pc)
    ensures Along(vs + [v], pc, RetirePath(k, Disposed(vs + [v], 0), Yes(vs + [v], 4)))
  {
  }

  predicate ReadMove(v: Visit, pc: Pc)
  {
    && (v.pc.ReadStart? ==> pc == ReadIn)
    && (v.pc.ReadIn? ==> pc == if v.w.disposed then ReadOut(false) else ReadChecked)
    && (v.pc.ReadChecked? ==> pc == ReadOut(true))
    && (v.pc.ReadOut? ==> pc == if v.pc.got then Making else Done)
    && (v.pc.Making? ==> pc == if v.answer then RetireStart(Recreate) else Done)
    && !v.pc.Done?
  }

  lemma ReadMoves(w: Wrapper, t: Tid, pc: Pc, answer: bool)
    requires Sees(w, pc) && Advance(w, t, pc, answer).Some?
    ensures ReadMove(Visit(pc, w, answer), Advance(w, t, pc, answer).value.1)
  {
  }

  lemma RecreateAlong(vs: seq<Visit>, v: Visit, pc: Pc)
    requires Along(vs, v.pc, RecreatePathOf(vs)) && ReadMove(v, pc) && RetireMove(v, pc)
    ensures Along(vs + [v], pc, RecreatePathOf(vs + [v]))
  {
    if |vs| < 5 {
      ReadAlong(vs, v, pc);
    } else if |vs| == 5 {
      ClaimAlong(vs, v, pc);
    } else {
      ReplaceAlong(vs, v, pc);
    }
  }

  lemma ReadAlong(vs: seq<Visit>, v: Visit, pc: Pc)
    requires Along(vs, v.pc, RecreatePathOf(vs)) && ReadMove(v, pc) && |vs| < 5
    ensures Along(vs + [v], pc, RecreatePathOf(vs + [v]))
  {
  }

  lemma ClaimAlong(vs: seq<Visit>, v: Visit, pc: Pc)
    requires Along(vs, v.pc, RecreatePathOf(vs)) && ReadMove(v, pc) && RetireMove(v, pc) && |vs| == 5
    ensures Along(vs + [v], pc, RecreatePathOf(vs + [v]))
  {
  }

  lemma ReplaceAlong(vs: seq<Visit>, v: Visit, pc: Pc)
    requires Along(vs, v.pc, RecreatePathOf(vs)) && ReadMove(v, pc) && RetireMove(v, pc) && |vs| > 5
    ensures Along(vs + [v], pc, RecreatePathOf(vs + [v]))
  {
  }

  lemma StepAlong(vs: seq<Visit>, w: Wrapper, t: Tid, pc: Pc, answer: bool, start: Pc)
    requires IsStart(start) && Along(vs, pc, Path(start, vs)) && Sees(w, pc) && Advance(w, t, pc, answer).Some?
    ensures var vs' := vs + [Visit(pc, w, answer)]; Along(vs', Advance(w, t, pc, answer).value.1, Path(start, vs'))
  {
    var v, pc' := Visit(pc, w, answer), Advance(w, t, pc, answer).value.1;
    match start {
      case SyncStart =>
        SyncMoves(w, t, pc, answer);
        SyncAlong(vs, v, pc');
      case CloseStart =>
        CloseMoves(w, t, pc, answer);
        CloseAlong(vs, v, pc');
      case AsyncStart(write) =>
        AsyncMoves(w, t, pc, answer);
        AsyncAlong(vs, v, pc', write);
      case ReadStart =>
        ReadMoves(w, t, pc, answer);
        RetireMoves(w, t, pc, answer);
        RecreateAlong(vs, v, pc');
      case RetireStart(kind) =>
        RetireMoves(w, t, pc, answer);
        RetireAlong(vs, v, pc', kind);
    }
  }

  // ---------------------------------------------------------------- whole runs

  ghost predicate OnPath(s: State, t: Tid, start: Pc, vs: seq<Visit>)
  {
    IsStart(start) && t in s.threads && Along(vs, s.threads[t], Path(start, vs))
  }

  lemma OwnStep(s: State, a: Action, s': State, start: Pc, vs: seq<Visit>)
    requires Inv(s) && Held(s) && Step(s, a) == Some(s') && a.Go? && OnPath(s, a.t, start, vs)
    ensures OnPath(s', a.t, start, vs + [Visit(s.threads[a.t], s.w, a.answer)])
  {
    StepAlong(vs, s.w, a.t, s.threads[a.t], a.answer, start);
  }

  lemma OthersStep(s: State, a: Action, s': State, t: Tid, start: Pc, vs: seq<Visit>)
    requires Step(s, a) == Some(s') && OnPath(s, t, start, vs) && (a.Go? ==> a.t != t)
    ensures OnPath(s', t, start, vs)
  {
  }

  lemma VisitsSplit(s: State, acts: seq<Action>, t: Tid, past: seq<Visit>)
    requires acts != [] && Step(s, acts[0]).Some?
    ensures var a, rest := acts[0], Visits(Step(s, acts[0]).value, acts[1..], t);
            past + Visits(s, acts, t)
              == (if a.Go? && a.t == t then past + [Visit(s.threads[t], s.w, a.answer)] else past) + rest
  {
    var a, rest := acts[0], Visits(Step(s, acts[0]).value, acts[1..], t);
    if a.Go? && a.t == t {
      var v := Visit(s.threads[t], s.w, a.answer);
      assert past + ([v] + rest) == past + [v] + rest;
    }
  }

  lemma {:induction false} RunAlong(s: State, acts: seq<Action>, s': State, t: Tid, start: Pc,
                                    past: seq<Visit>, vs: seq<Visit>)
    requires Inv(s) && Held(s) && Exec(s, acts) == Some(s') && OnPath(s, t, start, past)
    requires vs == past + Visits(s, acts, t)
    ensures OnPath(s', t, start, vs)
    decreases |acts|
  {
    if acts == [] {
      assert vs == past;
    } else {
      var a, u := acts[0], Step(s, acts[0]).value;
      StepKeepsInv(s, a);
      StepKeepsHeld(s, a, u);
      VisitsSplit(s, acts, t, past);
      if a.Go? && a.t == t {
        OwnStep(s, a, u, start, past);
        RunAlong(u, acts[1..], s', t, start, past + [Visit(s.threads[t], s.w, a.answer)], vs);
      } else {
        OthersStep(s, a, u, t, start, past);
        RunAlong(u, acts[1..], s', t, start, past, vs);
      }
    }
  }

  lemma {:induction false} CallAlong(s: State, acts: seq<Action>, s': State, t: Tid)
    requires Inv(s) && Held(s) && Exec(s, acts) == Some(s') && t !in s.threads && t in s'.threads
    ensures StartOf(acts, t).Some? && OnPath(s', t, StartOf(acts, t).value, Visits(s, acts, t))
    decreases |acts|
  {
    var a, u := acts[0], Step(s, acts[0]).value;
    StepKeepsInv(s, a);
    StepKeepsHeld(s, a, u);
    if a.t == t {
      assert OnPath(u, t, a.start, []);
      RunAlong(u, acts[1..], s', t, a.start, [], Visits(s, acts, t));
    } else {
      CallAlong(u, acts[1..], s', t);
    }
  }

  /** Call `t`, made as `start` in the run `acts` from a new wrapper, is now at `pc` and took the steps `vs`. */
  ghost predicate Made(acts: seq<Action>, t: Tid, start: Pc, vs: seq<Visit>, pc: Pc)
  {
    && Exec(Init(), acts).Some? && t in Exec(Init(), acts).value.threads
    && StartOf(acts, t) == Some(start) && vs == Visits(Init(), acts, t)
    && pc == Exec(Init(), acts).value.threads[t]
  }

  /** In every run each call has taken its path so far, whatever the others do. */
  lemma EveryCallKeepsToItsPath(acts: seq<Action>, t: Tid, start: Pc, vs: seq<Visit>, pc: Pc)
    requires Made(acts, t, start, vs, pc)
    ensures IsStart(start) && Along(vs, pc, Path(start, vs))
  {
    assert Inv(Init()) && Held(Init());
    CallAlong(Init(), acts, Exec(Init(), acts).value, t);
  }

  /** Some step was at `pc`. */
  predicate Was(vs: seq<Visit>, pc: Pc)
  {
    exists i :: 0 <= i < |vs| && vs[i].pc == pc
  }

  /**
   A synchronous call that has returned, or is about to give back the lock, has made its native
   call if and only if it found the wrapper undisposed under the lock.
   */
  lemma SyncMakesItsCallExactly(acts: seq<Action>, t: Tid, vs: seq<Visit>, pc: Pc)
    requires Made(acts, t, SyncStart, vs, pc) && (pc.SyncOut? || pc.Done?)
    ensures |vs| > 1 && vs[1].pc.SyncIn? && (Was(vs, SyncNative) <==> !vs[1].w.disposed)
  {
    EveryCallKeepsToItsPath(acts, t, SyncStart, vs, pc);
    if !Disposed(vs, 1) { assert vs[3].pc.SyncNative?; }
  }

  /** Likewise Close, which looks once the operations in flight have ended. */
  lemma CloseClosesExactly(acts: seq<Action>, t: Tid, vs: seq<Visit>, pc: Pc)
    requires Made(acts, t, CloseStart, vs, pc) && (pc.CloseOut? || pc.Done?)
    ensures |vs| > 2 && vs[1].pc.CloseWait? && vs[1].w.drained
    ensures vs[2].pc.CloseIn? && (Was(vs, CloseNative) <==> !vs[2].w.disposed)
  {
    EveryCallKeepsToItsPath(acts, t, CloseStart, vs, pc);
    if !Disposed(vs, 2) { assert vs[4].pc.CloseNative?; }
  }

  /**
   An asynchronous call that has returned has had its native operation, counted, if and only if
   it found the wrapper undisposed.
   */
  lemma AsyncMakesItsCallExactly(acts: seq<Action>, t: Tid, write: bool, vs: seq<Visit>, pc: Pc)
    requires Made(acts, t, AsyncStart(write), vs, pc) && (pc.AsyncEnd? || pc.AsyncSignal? || pc.Done?)
    ensures |vs| > 1 && vs[1].pc.AsyncIn? && (Was(vs, AsyncNative) <==> !vs[1].w.disposed)
    ensures Was(vs, AsyncNative) <==> Was(vs, AsyncGot(write))
  {
    EveryCallKeepsToItsPath(acts, t, AsyncStart(write), vs, pc);
    if !Disposed(vs, 1) {
      assert vs[3].pc.AsyncGot?;
      assert vs[if InFlight(vs, 3, 0) then 6 else 5].pc.AsyncNative?;
    }
  }

  /** A call that retires the wrapper frees the handle if and only if it came first, once nothing was in flight. */
  lemma RetiringFreesExactly(acts: seq<Action>, t: Tid, k: Kind, vs: seq<Visit>, pc: Pc)
    requires Made(acts, t, RetireStart(k), vs, pc) && (pc.RetireOut? || pc.RetireDone? || pc.Done?)
    ensures |vs| > 0 && vs[0].pc.RetireStart? && (Was(vs, RetireFree(k)) <==> !vs[0].w.disposed)
    ensures !vs[0].w.disposed ==> |vs| > 4 && vs[2].pc.RetireWait? && vs[2].w.drained && vs[3].pc.RetireIn?
  {
    EveryCallKeepsToItsPath(acts, t, RetireStart(k), vs, pc);
    if !Disposed(vs, 0) {
      assert vs[if k.Finalize? || k.Recreate? then 4 else if Yes(vs, 4) then 5 else 6].pc.RetireFree?;
    }
  }

  /**
   Before the free a disposal that came first asks whether the stream is closed, and closes it
   if and only if the answer is no.
   */
  lemma DisposalClosesExactly(acts: seq<Action>, t: Tid, k: Kind, vs: seq<Visit>, pc: Pc)
    requires Made(acts, t, RetireStart(k), vs, pc) && (pc.RetireOut? || pc.RetireDone?)
    requires k.Dispose? || k.DisposeAsync?
    ensures |vs| > 5 && vs[4].pc.RetireOwned?
    ensures vs[5].pc == if vs[4].answer then RetireFree(k) else RetireClosing(k)
    ensures Was(vs, RetireClosing(k)) <==> !vs[4].answer
    ensures !vs[4].answer ==> |vs| > 6 && vs[6].pc.RetireFree?
  {
    EveryCallKeepsToItsPath(acts, t, RetireStart(k), vs, pc);
  }

  /** The finalizer asks nothing and closes nothing; it only frees. */
  lemma FinalizerOnlyFrees(acts: seq<Action>, t: Tid, vs: seq<Visit>, pc: Pc)
    requires Made(acts, t, RetireStart(Finalize), vs, pc)
    ensures !Was(vs, RetireOwned(Finalize)) && !Was(vs, RetireClosing(Finalize))
  {
    EveryCallKeepsToItsPath(acts, t, RetireStart(Finalize), vs, pc);
  }

  /**
   RecreateStream asks for a replacement if and only if it found the wrapper undisposed, and
   retires the wrapper if and only if it was given one.
   */
  lemma RecreateMakesExactly(acts: seq<Action>, t: Tid, vs: seq<Visit>, pc: Pc)
    requires Made(acts, t, ReadStart, vs, pc) && Returned(pc)
    ensures |vs| > 1 && vs[1].pc.ReadIn? && (Was(vs, Making) <==> !vs[1].w.disposed)
    ensures !vs[1].w.disposed ==> |vs| > 4 && vs[4].pc.Making? && (Was(vs, RetireStart(Recreate)) <==> vs[4].answer)
  {
    EveryCallKeepsToItsPath(acts, t, ReadStart, vs, pc);
    if !Disposed(vs, 1) {
      assert vs[4].pc.Making?;
      if Yes(vs, 4) { assert vs[5].pc.RetireStart?; }
    }
  }

  /** Then it frees the handle unless it was overtaken, and never closes it. */
  lemma RecreateOnlyFrees(acts: seq<Action>, t: Tid, vs: seq<Visit>, pc: Pc)
    requires Made(acts, t, ReadStart, vs, pc) && |vs| > 5
    ensures vs[5].pc == RetireStart(Recreate)
    ensures Returned(pc) && !vs[5].w.disposed ==> |vs| > 9 && vs[7].w.drained && vs[9].pc.RetireFree?
    ensures forall i :: 0 <= i < |vs| ==> !vs[i].pc.RetireOwned? && !vs[i].pc.RetireClosing?
  {
    EveryCallKeepsToItsPath(acts, t, ReadStart, vs, pc);
  }

  // ---------------------------------------------------------------- no run gets stuck

  predicate EntersRead(pc: Pc)
  {
    pc.SyncStart? || pc.ReadStart? || (pc.AsyncStart? && !pc.write)
  }

  predicate EntersWrite(pc: Pc)
  {
    pc.CloseStart? || pc.RetireClaimed? || (pc.AsyncStart? && pc.write)
  }

  /** Only the lock and the event hold a call up. */
  lemma EnabledExactly(w: Wrapper, t: Tid, pc: Pc, answer: bool)
    ensures Advance(w, t, pc, answer).Some? <==>
      && !Returned(pc)
      && (EntersRead(pc) ==> w.writer.None?)
      && (EntersWrite(pc) ==> w.writer.None? && w.readers == {})
      && (Waits(pc) ==> w.drained)
  {
  }

  /** Whoever holds a lock, and does not wait for the event, goes on. */
  lemma HolderGoesOn(s: State, h: Tid)
    requires Locks(s.w, s.threads) && h in s.threads && (HoldsRead(s.threads[h]) || HoldsWrite(s.threads[h]))
    requires !Waits(s.threads[h])
    ensures !Returned(s.threads[h]) && Step(s, Go(h, true)).Some?
  {
    EnabledExactly(s.w, h, s.threads[h], true);
  }

  /** While some call has not returned, some call can take its next step. */
  lemma NobodyIsStuck(s: State, t: Tid)
    requires Reachable(s) && t in s.threads && !Returned(s.threads[t])
    ensures exists u :: u in s.threads && !Returned(s.threads[u]) && Step(s, Go(u, true)).Some?
  {
    ReachableInv(s);
    if s.w.writer.Some? {
      var h := s.w.writer.value;
      if Waits(s.threads[h]) {
        WriterIsHelped(s, h);
      } else {
        HolderGoesOn(s, h);
      }
    } else if s.w.readers != {} {
      var h :| h in s.w.readers;
      HolderGoesOn(s, h);
    } else {
      EnabledExactly(s.w, t, s.threads[t], true);
    }
  }

  lemma HelperIsEnabled(s: State, h: Tid, u: Tid)
    requires Locks(s.w, s.threads) && h in s.threads && Waits(s.threads[h])
    requires u in Counted(s.threads) + Signalling(s.threads)
    ensures u in s.threads && !Returned(s.threads[u]) && Step(s, Go(u, true)).Some?
  {
    EnabledExactly(s.w, u, s.threads[u], true);
    assert s.w.writer == Some(h);
  }

  lemma WriterIsHelped(s: State, h: Tid)
    requires Inv(s) && h in s.threads && Waits(s.threads[h])
    ensures exists u :: u in s.threads && !Returned(s.threads[u]) && Step(s, Go(u, true)).Some?
  {
    if s.w.drained {
      EnabledExactly(s.w, h, s.threads[h], true);
    } else {
      var u :| u in Counted(s.threads) + Signalling(s.threads);
      HelperIsEnabled(s, h, u);
    }
  }

  /** And none takes more than eleven. */
  lemma CallsAreShort(acts: seq<Action>, t: Tid, start: Pc, vs: seq<Visit>, pc: Pc)
    requires Made(acts, t, start, vs, pc)
    ensures |vs| <= 11
  {
    EveryCallKeepsToItsPath(acts, t, start, vs, pc);
  }
}
