/**
 Recreating streams.  RecreateStream reads the old wrapper's native pointer, has the native
 library make a replacement, and lets Recreate move it into a new wrapper and retire the old
 one.  A world is the chain of wrappers made this way, each with its own racing calls, and the
 native streams that were made for them.
 */
module StreamLineage {
  import opened Common
  import opened StreamLifetime

  /** A native stream, by the order in which they are made. */
  type Native = nat

  /**
   Wrapper i was made around native stream owns[i].  `held` are the replacements in the local
   variables of running RecreateStream calls, by wrapper and thread.  Natives 0..made-1 exist.
   */
  datatype World = World(streams: seq<State>, owns: seq<Native>, held: map<(nat, Tid), Native>, made: nat)

  function First(): World
  {
    World([Init()], [0], map[], 1)
  }

  /** A RecreateStream call that has a replacement and no wrapper for it yet. */
  predicate HoldsReplacement(pc: Pc)
  {
    (pc.RetireStart? || pc.RetireClaimed? || pc.RetireWait? || pc.RetireIn?) && pc.kind.Recreate?
  }

  /** The replacement is made. */
  predicate Makes(w: World, i: nat, a: Action)
  {
    AtPc(w, i, a, Making) && a.answer
  }

  /** Recreate moves the replacement into a new wrapper. */
  predicate Exchanges(w: World, i: nat, a: Action)
  {
    AtPc(w, i, a, RetireIn(Recreate))
  }

  /** Recreate finds that another call has claimed the wrapper, and throws. */
  predicate Loses(w: World, i: nat, a: Action)
  {
    AtPc(w, i, a, RetireStart(Recreate)) && w.streams[i].w.disposed
  }

  predicate AtPc(w: World, i: nat, a: Action, pc: Pc)
  {
    i < |w.streams| && a.Go? && a.t in w.streams[i].threads && w.streams[i].threads[a.t] == pc
  }

  /** One step of one call on wrapper `i`. */
  function WorldStep(w: World, i: nat, a: Action): Option<World>
  {
    if i >= |w.streams| || Step(w.streams[i], a).None? then None
    else
      var streams := w.streams[i := Step(w.streams[i], a).value];
      var key := (i, a.t);
      if Makes(w, i, a) then Some(World(streams, w.owns, w.held[key := w.made], w.made + 1))
      else if Exchanges(w, i, a) && key in w.held then
        Some(World(streams + [Init()], w.owns + [w.held[key]], w.held - {key}, w.made))
      else if Loses(w, i, a) then Some(w.(streams := streams, held := w.held - {key}))
      else Some(w.(streams := streams))
  }

  /** Native streams that nobody has: no wrapper was made around them and no running call holds them. */
  function Orphans(w: World): set<Native>
  {
    set n | 0 <= n < w.made && n !in w.owns && n !in w.held.Values
  }

  // ---------------------------------------------------------------- invariant

  /** Wrapper `s` was retired by a Recreate that has taken its pointer out. */
  ghost predicate Replaced(s: State)
  {
    s.w.winner.Some? && s.w.winner.value in s.threads
    && Exchanged(s.threads[s.w.winner.value]) && s.threads[s.w.winner.value].kind.Recreate?
  }

  /** Every wrapper is sound, and all but the last are replaced. */
  ghost predicate Linked(streams: seq<State>)
  {
    && |streams| > 0
    && (forall i :: 0 <= i < |streams| ==> Inv(streams[i]))
    && (forall i :: 0 <= i < |streams| ==> (Replaced(streams[i]) <==> i + 1 < |streams|))
  }

  predicate HeldAt(streams: seq<State>, i: nat, t: Tid)
  {
    i < |streams| && t in streams[i].threads && HoldsReplacement(streams[i].threads[t])
  }

  /** The replacements held are those of the calls that are between making one and wrapping it. */
  ghost predicate Holders(w: World)
  {
    forall i: nat, t: Tid :: (i, t) in w.held <==> HeldAt(w.streams, i, t)
  }

  /** Each native stream has one place at most. */
  ghost predicate Placed(w: World)
  {
    && |w.owns| == |w.streams|
    && (forall i :: 0 <= i < |w.owns| ==> w.owns[i] < w.made && w.owns[i] !in w.held.Values)
    && (forall i, j :: 0 <= i < j < |w.owns| ==> w.owns[i] != w.owns[j])
    && (forall k :: k in w.held ==> w.held[k] < w.made)
    && (forall k, l :: k in w.held && l in w.held && k != l ==> w.held[k] != w.held[l])
  }

  ghost predicate WorldInv(w: World)
  {
    Linked(w.streams) && Holders(w) && Placed(w)
  }

  // ---------------------------------------------------------------- what one step changes

  predicate LineageEffect(w: Wrapper, w': Wrapper, pc: Pc, pc': Pc, answer: bool)
  {
    && (HoldsReplacement(pc') && !HoldsReplacement(pc) <==> pc.Making? && answer)
    && (HoldsReplacement(pc) && !HoldsReplacement(pc') <==>
          pc == RetireIn(Recreate) || (pc == RetireStart(Recreate) && w.disposed))
    && (Exchanged(pc) ==> Exchanged(pc') && pc'.kind == pc.kind)
    && (Exchanged(pc') && !Exchanged(pc) ==> pc.RetireIn? && pc'.kind == pc.kind)
    && (pc.RetireIn? ==> Exchanged(pc') && pc'.kind == pc.kind)
    && (Retires(pc) && Retires(pc') ==> pc'.kind == pc.kind)
  }

  lemma SyncLineage(w: Wrapper, t: Tid, pc: Pc, answer: bool)
    requires SyncStep(w, t, pc).Some?
    ensures var (w', pc') := SyncStep(w, t, pc).value; LineageEffect(w, w', pc, pc', answer)
  {
  }

  lemma CloseLineage(w: Wrapper, t: Tid, pc: Pc, answer: bool)
    requires CloseStep(w, t, pc).Some?
    ensures var (w', pc') := CloseStep(w, t, pc).value; LineageEffect(w, w', pc, pc', answer)
  {
  }

  lemma AsyncLineage(w: Wrapper, t: Tid, pc: Pc, answer: bool)
    requires AsyncStep(w, t, pc).Some?
    ensures var (w', pc') := AsyncStep(w, t, pc).value; LineageEffect(w, w', pc, pc', answer)
  {
  }

  lemma RetireLineage(w: Wrapper, t: Tid, pc: Pc, answer: bool)
    requires RetireStep(w, t, pc, answer).Some?
    ensures var (w', pc') := RetireStep(w, t, pc, answer).value; LineageEffect(w, w', pc, pc', answer)
  {
  }

  lemma RecreateLineage(w: Wrapper, t: Tid, pc: Pc, answer: bool)
    requires RecreateStep(w, t, pc, answer).Some?
    ensures var (w', pc') := RecreateStep(w, t, pc, answer).value; LineageEffect(w, w', pc, pc', answer)
  {
  }

  lemma StepLineageEffect(w: Wrapper, t: Tid, pc: Pc, answer: bool)
    requires Advance(w, t, pc, answer).Some?
    ensures var (w', pc') := Advance(w, t, pc, answer).value; LineageEffect(w, w', pc, pc', answer)
  {
    if SyncStep(w, t, pc).Some? {
      SyncLineage(w, t, pc, answer);
    } else if CloseStep(w, t, pc).Some? {
      CloseLineage(w, t, pc, answer);
    } else if RetireStep(w, t, pc, answer).Some? {
      RetireLineage(w, t, pc, answer);
    } else if RecreateStep(w, t, pc, answer).Some? {
      RecreateLineage(w, t, pc, answer);
    } else {
      AsyncLineage(w, t, pc, answer);
    }
  }

  // ---------------------------------------------------------------- kept by every step

  /** A step makes its wrapper replaced exactly when it is a Recreate's exchange. */
  lemma ReplacedByExchange(s: State, a: Action)
    requires Inv(s) && Step(s, a).Some?
    ensures var s' := Step(s, a).value;
            Replaced(s') <==> Replaced(s) || (a.Go? && s.threads[a.t] == RetireIn(Recreate))
    ensures a.Go? && s.threads[a.t] == RetireIn(Recreate) ==> !Replaced(s)
  {
    StepKeepsInv(s, a);
    if a.Go? {
      StepLineageEffect(s.w, a.t, s.threads[a.t], a.answer);
      StepEffect(s.w, a.t, s.threads[a.t], a.answer);
    }
  }

  lemma LinkedUpdate(streams: seq<State>, i: nat, s': State, exchanged: bool)
    requires Linked(streams) && i < |streams| && Inv(s')
    requires Replaced(s') <==> Replaced(streams[i]) || exchanged
    requires exchanged ==> !Replaced(streams[i])
    ensures Linked(streams[i := s'] + (if exchanged then [Init()] else []))
  {
    assert Inv(Init()) && !Replaced(Init());
    var r := streams[i := s'] + (if exchanged then [Init()] else []);
    assert forall j :: 0 <= j < |streams| ==> r[j] == (if j == i then s' else streams[j]);
  }

  /** The shape of a step, given who holds replacements. */
  lemma StepShape(w: World, i: nat, a: Action)
    requires Holders(w) && WorldStep(w, i, a).Some?
    ensures var w', key := WorldStep(w, i, a).value, (i, a.t);
      && w'.streams == w.streams[i := Step(w.streams[i], a).value] + (if Exchanges(w, i, a) then [Init()] else [])
      && (Exchanges(w, i, a) || Loses(w, i, a) ==> key in w.held)
      && (Makes(w, i, a) ==> key !in w.held)
      && w'.owns == w.owns + (if Exchanges(w, i, a) then [w.held[key]] else [])
      && w'.held == (if Makes(w, i, a) then w.held[key := w.made]
                     else if Exchanges(w, i, a) || Loses(w, i, a) then w.held - {key} else w.held)
      && w'.made == w.made + (if Makes(w, i, a) then 1 else 0)
  {
    var streams := w.streams[i := Step(w.streams[i], a).value];
    assert streams + [] == streams && w.owns + [] == w.owns;
    assert (i, a.t) in w.held <==> HeldAt(w.streams, i, a.t);
  }

  lemma ChainKept(w: World, i: nat, a: Action)
    requires WorldInv(w) && WorldStep(w, i, a).Some?
    ensures Linked(WorldStep(w, i, a).value.streams)
  {
    StepKeepsInv(w.streams[i], a);
    ReplacedByExchange(w.streams[i], a);
    StepShape(w, i, a);
    LinkedUpdate(w.streams, i, Step(w.streams[i], a).value, Exchanges(w, i, a));
  }

  /** A step changes the standing of its own call only. */
  lemma HeldAfter(streams: seq<State>, i: nat, a: Action, extra: seq<State>, j: nat, u: Tid)
    requires i < |streams| && Step(streams[i], a).Some? && (extra == [] || extra == [Init()])
    ensures var after := streams[i := Step(streams[i], a).value] + extra;
      HeldAt(after, j, u) <==>
        if j == i && u == a.t then a.Go? && HoldsReplacement(Step(streams[i], a).value.threads[a.t])
        else HeldAt(streams, j, u)
  {
  }

  lemma HoldersKept(w: World, i: nat, a: Action)
    requires Holders(w) && WorldStep(w, i, a).Some?
    ensures Holders(WorldStep(w, i, a).value)
  {
    StepShape(w, i, a);
    var s, w' := w.streams[i], WorldStep(w, i, a).value;
    if a.Go? {
      StepLineageEffect(s.w, a.t, s.threads[a.t], a.answer);
    }
    forall j: nat, u: Tid ensures (j, u) in w'.held <==> HeldAt(w'.streams, j, u) {
      HeldAfter(w.streams, i, a, if Exchanges(w, i, a) then [Init()] else [], j, u);
      assert (j, u) in w.held <==> HeldAt(w.streams, j, u);
    }
  }

  lemma PlacedKept(w: World, i: nat, a: Action)
    requires Holders(w) && Placed(w) && WorldStep(w, i, a).Some?
    ensures Placed(WorldStep(w, i, a).value)
  {
    StepShape(w, i, a);
    PlacedAfter(w, WorldStep(w, i, a).value, (i, a.t), Makes(w, i, a), Exchanges(w, i, a), Loses(w, i, a));
  }

  lemma PlacedAfter(w: World, w': World, key: (nat, Tid), makes: bool, exchanges: bool, loses: bool)
    requires Placed(w) && (exchanges || loses ==> key in w.held) && (makes ==> key !in w.held)
    requires !(makes && exchanges) && !(makes && loses) && !(exchanges && loses)
    requires |w'.streams| == |w.streams| + (if exchanges then 1 else 0)
    requires w'.owns == w.owns + (if exchanges then [w.held[key]] else [])
    requires w'.held == if makes then w.held[key := w.made] else if exchanges || loses then w.held - {key} else w.held
    requires w'.made == w.made + (if makes then 1 else 0)
    ensures Placed(w')
  {
    if makes {
      ValuesAfterAdd(w.held, key, w.made);
    } else if exchanges || loses {
      ValuesAfterRemove(w.held, key);
    }
  }

  lemma WorldStepKeepsInv(w: World, i: nat, a: Action)
    requires WorldInv(w) && WorldStep(w, i, a).Some?
    ensures WorldInv(WorldStep(w, i, a).value)
  {
    ChainKept(w, i, a);
    HoldersKept(w, i, a);
    PlacedKept(w, i, a);
  }

  function WorldExec(w: World, acts: seq<(nat, Action)>): Option<World>
    decreases |acts|
  {
    if acts == [] then Some(w)
    else (match WorldStep(w, acts[0].0, acts[0].1) case None => None case Some(v) => WorldExec(v, acts[1..]))
  }

  lemma {:induction false} WorldRunKeepsInv(w: World, acts: seq<(nat, Action)>)
    requires WorldInv(w) && WorldExec(w, acts).Some?
    ensures WorldInv(WorldExec(w, acts).value)
    decreases |acts|
  {
    if acts != [] {
      WorldStepKeepsInv(w, acts[0].0, acts[0].1);
      WorldRunKeepsInv(WorldStep(w, acts[0].0, acts[0].1).value, acts[1..]);
    }
  }

  lemma FirstIsInv()
    ensures WorldInv(First())
  {
    assert Inv(Init()) && !Replaced(Init());
  }

  ghost predicate WorldReachable(w: World)
  {
    exists acts :: WorldExec(First(), acts) == Some(w)
  }

  lemma WorldReachableInv(w: World)
    requires WorldReachable(w)
    ensures WorldInv(w)
  {
    var acts :| WorldExec(First(), acts) == Some(w);
    FirstIsInv();
    WorldRunKeepsInv(First(), acts);
  }

  // ---------------------------------------------------------------- what a lineage promises

  /**
   Over any chain of recreations only the newest wrapper can still own its handle; every
   earlier handle is freed at most once, and exactly once when its Recreate has finished.  If
   the newest has not been retired, its handle is live.  No two wrappers share a native stream.
   */
  lemma OnlyNewestOwns(w: World, i: nat, j: nat)
    requires WorldReachable(w) && i < |w.streams| && j < |w.streams|
    ensures i + 1 < |w.streams| ==>
              !w.streams[i].w.ptr && w.streams[i].w.winner.Some? && w.streams[i].w.winner.value in w.streams[i].threads
    ensures w.streams[i].w.freed <= 1
    ensures i + 1 < |w.streams| && w.streams[i].threads[w.streams[i].w.winner.value].RetireDone? ==> w.streams[i].w.freed == 1
    ensures i + 1 == |w.streams| && !w.streams[i].w.disposed ==> w.streams[i].w.ptr && w.streams[i].w.freed == 0
    ensures |w.owns| == |w.streams| && (w.owns[i] == w.owns[j] <==> i == j)
  {
    WorldReachableInv(w);
    assert Inv(w.streams[i]);
    assert i + 1 < |w.streams| ==> Replaced(w.streams[i]);
  }

  lemma ReplacedIsDisposed(s: State)
    requires Replaced(s) && Inv(s)
    ensures s.w.disposed
  {
  }

  /** A call that comes too late gets no further than this. */
  predicate TooLate(pc: Pc)
  {
    pc.ReadStart? || pc.ReadIn? || pc == ReadOut(false) || pc.Done? || (pc.RetireStart? && !pc.kind.Recreate?)
  }

  lemma LateStep(s: State, t: Tid, a: Action)
    requires s.w.disposed && t in s.threads && TooLate(s.threads[t]) && Step(s, a).Some?
    ensures var s' := Step(s, a).value; s'.w.disposed && t in s'.threads && TooLate(s'.threads[t])
    ensures a.Go? && a.t == t ==>
      var s' := Step(s, a).value; s'.w == s.w.(readers := s'.w.readers)
  {
    if a.Go? { StepEffect(s.w, a.t, s.threads[a.t], a.answer); }
  }

  lemma LateWorldStep(w: World, i: nat, t: Tid, j: nat, a: Action)
    requires i < |w.streams| && t in w.streams[i].threads && WorldStep(w, j, a).Some?
    requires w.streams[i].w.disposed && TooLate(w.streams[i].threads[t])
    ensures var w' := WorldStep(w, j, a).value;
      i < |w'.streams| && t in w'.streams[i].threads && w'.streams[i].w.disposed && TooLate(w'.streams[i].threads[t])
    ensures j == i && a.Go? && a.t == t ==>
      var w' := WorldStep(w, j, a).value; w'.owns == w.owns && w'.held == w.held && w'.made == w.made
  {
    assert WorldStep(w, j, a).value.streams[i] == if j == i then Step(w.streams[i], a).value else w.streams[i];
    if j == i { LateStep(w.streams[i], t, a); }
  }

  /**
   In any continuation, a disposal or recreation called on a wrapper that was already replaced
   claims nothing, frees nothing and makes nothing: it can only take and give back the read
   lock, and end.
   */
  lemma LaterCallsDoNothing(w: World, i: nat, t: Tid, acts: seq<(nat, Action)>, a: Action)
    requires WorldReachable(w) && i + 1 < |w.streams| && t in w.streams[i].threads
    requires IsStart(w.streams[i].threads[t]) && (w.streams[i].threads[t].RetireStart? || w.streams[i].threads[t].ReadStart?)
    requires WorldExec(w, acts).Some? && a.Go? && a.t == t
    ensures var v := WorldExec(w, acts).value;
      && i < |v.streams| && t in v.streams[i].threads && TooLate(v.streams[i].threads[t])
      && (WorldStep(v, i, a).Some? ==>
            var u := WorldStep(v, i, a).value;
            && u.owns == v.owns && u.held == v.held && u.made == v.made
            && Step(v.streams[i], a).value.w == v.streams[i].w.(readers := Step(v.streams[i], a).value.w.readers))
  {
    WorldReachableInv(w);
    ReplacedIsDisposed(w.streams[i]);
    LateRun(w, i, t, acts);
    var v := WorldExec(w, acts).value;
    if WorldStep(v, i, a).Some? {
      LateWorldStep(v, i, t, i, a);
      LateStep(v.streams[i], t, a);
    }
  }

  lemma {:induction false} LateRun(w: World, i: nat, t: Tid, acts: seq<(nat, Action)>)
    requires i < |w.streams| && t in w.streams[i].threads && WorldExec(w, acts).Some?
    requires w.streams[i].w.disposed && TooLate(w.streams[i].threads[t])
    ensures var v := WorldExec(w, acts).value;
      i < |v.streams| && t in v.streams[i].threads && v.streams[i].w.disposed && TooLate(v.streams[i].threads[t])
    decreases |acts|
  {
    if acts != [] {
      LateWorldStep(w, i, t, acts[0].0, acts[0].1);
      LateRun(WorldStep(w, acts[0].0, acts[0].1).value, i, t, acts[1..]);
    }
  }

  // ---------------------------------------------------------------- orphans

  /** The replacements whose Recreate, in this run, came to the compare-and-swap with _disposed set. */
  function Lost(w: World, acts: seq<(nat, Action)>): set<Native>
    decreases |acts|
  {
    if acts == [] || WorldStep(w, acts[0].0, acts[0].1).None? then {}
    else
      var (i, a) := acts[0];
      (if Loses(w, i, a) && (i, a.t) in w.held then {w.held[(i, a.t)]} else {})
      + Lost(WorldStep(w, i, a).value, acts[1..])
  }

  /** A native stream is orphaned by the very step in which its Recreate loses, by no other, and for good. */
  lemma OrphanedByLosing(w: World, i: nat, a: Action)
    requires WorldInv(w) && WorldStep(w, i, a).Some?
    ensures Loses(w, i, a) ==> (i, a.t) in w.held
    ensures Orphans(WorldStep(w, i, a).value) == Orphans(w) + (if Loses(w, i, a) then {w.held[(i, a.t)]} else {})
  {
    StepShape(w, i, a);
    OrphansAfter(w, WorldStep(w, i, a).value, (i, a.t), Makes(w, i, a), Exchanges(w, i, a), Loses(w, i, a));
  }

  lemma OrphansAfter(w: World, w': World, key: (nat, Tid), makes: bool, exchanges: bool, loses: bool)
    requires Placed(w) && (exchanges || loses ==> key in w.held) && (makes ==> key !in w.held)
    requires !(makes && exchanges) && !(makes && loses) && !(exchanges && loses)
    requires w'.owns == w.owns + (if exchanges then [w.held[key]] else [])
    requires w'.held == if makes then w.held[key := w.made] else if exchanges || loses then w.held - {key} else w.held
    requires w'.made == w.made + (if makes then 1 else 0)
    ensures Orphans(w') == Orphans(w) + (if loses then {w.held[key]} else {})
  {
    if makes {
      ValuesAfterAdd(w.held, key, w.made);
    } else if exchanges || loses {
      ValuesAfterRemove(w.held, key);
    }
  }

  lemma ValuesAfterAdd(m: map<(nat, Tid), Native>, k: (nat, Tid), n: Native)
    requires k !in m
    ensures m[k := n].Values == m.Values + {n}
  {
    var m' := m[k := n];
    assert m'[k] == n;
    forall x | x in m.Values ensures x in m'.Values {
      var l :| l in m && m[l] == x;
      assert m'[l] == x;
    }
  }

  lemma ValuesAfterRemove(m: map<(nat, Tid), Native>, k: (nat, Tid))
    requires k in m && forall l, o :: l in m && o in m && l != o ==> m[l] != m[o]
    ensures (m - {k}).Values == m.Values - {m[k]}
  {
    var m' := m - {k};
    forall x | x in m.Values && x != m[k] ensures x in m'.Values {
      var l :| l in m && m[l] == x;
      assert m'[l] == x;
    }
  }

  lemma {:induction false} OrphansOfRun(w: World, acts: seq<(nat, Action)>)
    requires WorldInv(w) && WorldExec(w, acts).Some?
    ensures Orphans(WorldExec(w, acts).value) == Orphans(w) + Lost(w, acts)
    decreases |acts|
  {
    if acts != [] {
      var (i, a) := acts[0];
      OrphanedByLosing(w, i, a);
      WorldStepKeepsInv(w, i, a);
      OrphansOfRun(WorldStep(w, i, a).value, acts[1..]);
    }
  }

  /** In every run the native streams that nobody has are exactly those whose Recreate found _disposed set. */
  lemma OrphanedExactly(acts: seq<(nat, Action)>)
    requires WorldExec(First(), acts).Some?
    ensures Orphans(WorldExec(First(), acts).value) == Lost(First(), acts)
  {
    FirstIsInv();
    OrphansOfRun(First(), acts);
  }

  // ---------------------------------------------------------------- a caller that can rely on it

  /** In RecreateStream, and not yet sure of the wrapper. */
  predicate Recreates(pc: Pc)
  {
    Reads(pc) || pc == RetireStart(Recreate)
  }

  /** May still claim the wrapper. */
  predicate Contends(pc: Pc)
  {
    Reads(pc) || pc.RetireStart?
  }

  /** Nothing else that retires the wrapper is called while it is being recreated, nor the other way round. */
  ghost predicate Undisturbed(s: State, a: Action)
  {
    && (a.Call? && a.start.ReadStart? ==> forall u :: u in s.threads ==> !Contends(s.threads[u]))
    && (a.Call? && a.start.RetireStart? ==> forall u :: u in s.threads ==> !Recreates(s.threads[u]))
  }

  /** A recreation is alone, and a wrapper it has found undisposed stays so. */
  ghost predicate Alone(s: State)
  {
    && (forall t, u :: t in s.threads && u in s.threads && t != u && Recreates(s.threads[t]) ==> !Contends(s.threads[u]))
    && (forall t :: t in s.threads && Sure(s.threads[t]) ==> !s.w.disposed)
  }

  predicate Sure(pc: Pc)
  {
    pc.ReadChecked? || pc == ReadOut(true) || pc.Making? || pc == RetireStart(Recreate)
  }

  lemma ContenderStep(w: Wrapper, t: Tid, pc: Pc, answer: bool)
    requires Advance(w, t, pc, answer).Some?
    ensures var (w', pc') := Advance(w, t, pc, answer).value;
      && (Contends(pc') ==> Contends(pc)) && (Recreates(pc') ==> Recreates(pc))
      && (Sure(pc') ==> Sure(pc) || (pc.ReadIn? && !w.disposed))
  {
    if RecreateStep(w, t, pc, answer).Some? {
    } else if RetireStep(w, t, pc, answer).Some? {
    } else {
      assert !Contends(pc);
      StartsNoContender(w, t, pc, answer);
    }
  }

  lemma StartsNoContender(w: Wrapper, t: Tid, pc: Pc, answer: bool)
    requires Advance(w, t, pc, answer).Some? && !Contends(pc)
    ensures !Contends(Advance(w, t, pc, answer).value.1)
  {
  }

  lemma ClaimingStep(w: Wrapper, t: Tid, pc: Pc, answer: bool)
    requires Advance(w, t, pc, answer).Some?
    ensures var (w', pc') := Advance(w, t, pc, answer).value;
      w'.disposed && !w.disposed ==> pc.RetireStart? && !Contends(pc')
  {
    StepEffect(w, t, pc, answer);
  }

  lemma StepKeepsAlone(s: State, a: Action)
    requires Alone(s) && Undisturbed(s, a) && Step(s, a).Some?
    ensures Alone(Step(s, a).value)
  {
    if a.Go? {
      ContenderStep(s.w, a.t, s.threads[a.t], a.answer);
      ClaimingStep(s.w, a.t, s.threads[a.t], a.answer);
    }
  }

  ghost predicate AllAlone(w: World)
  {
    forall i :: 0 <= i < |w.streams| ==> Alone(w.streams[i])
  }

  lemma AllAloneKept(w: World, i: nat, a: Action)
    requires Holders(w) && AllAlone(w) && WorldStep(w, i, a).Some? && Undisturbed(w.streams[i], a)
    ensures AllAlone(WorldStep(w, i, a).value) && !Loses(w, i, a)
  {
    assert Alone(w.streams[i]);
    StepKeepsAlone(w.streams[i], a);
    StepShape(w, i, a);
  }

  ghost predicate UndisturbedRun(w: World, acts: seq<(nat, Action)>)
    decreases |acts|
  {
    acts != [] && WorldStep(w, acts[0].0, acts[0].1).Some? ==>
      && Undisturbed(w.streams[acts[0].0], acts[0].1)
      && UndisturbedRun(WorldStep(w, acts[0].0, acts[0].1).value, acts[1..])
  }

  lemma {:induction false} UndisturbedLosesNothing(w: World, acts: seq<(nat, Action)>)
    requires WorldInv(w) && AllAlone(w) && UndisturbedRun(w, acts) && WorldExec(w, acts).Some?
    ensures Lost(w, acts) == {}
    decreases |acts|
  {
    if acts != [] {
      var (i, a) := acts[0];
      AllAloneKept(w, i, a);
      WorldStepKeepsInv(w, i, a);
      UndisturbedLosesNothing(WorldStep(w, i, a).value, acts[1..]);
    }
  }

  /** If no wrapper gets another retiring call while it is being recreated, every native stream has an owner. */
  lemma UndisturbedRecreateKeepsAll(acts: seq<(nat, Action)>)
    requires UndisturbedRun(First(), acts) && WorldExec(First(), acts).Some?
    ensures Orphans(WorldExec(First(), acts).value) == {}
  {
    FirstIsInv();
    UndisturbedLosesNothing(First(), acts);
    OrphanedExactly(acts);
  }

  // ---------------------------------------------------------------- a caller that does not

  /** A reachable world with one wrapper; `w` is where the next step of its call leads. */
  lemma Goes(v: World, i: nat, a: Action, w: World)
    requires WorldReachable(v) && WorldStep(v, i, a) == Some(w)
    ensures WorldReachable(w)
  {
    var acts :| WorldExec(First(), acts) == Some(v);
    WorldExecSnoc(First(), acts, (i, a));
  }

  lemma {:induction false} WorldExecSnoc(w: World, acts: seq<(nat, Action)>, a: (nat, Action))
    requires WorldExec(w, acts).Some?
    ensures WorldExec(w, acts + [a]) == WorldStep(WorldExec(w, acts).value, a.0, a.1)
    decreases |acts|
  {
    if acts == [] {
      assert acts + [a] == [a];
      assert [a][1..] == [];
    } else {
      assert (acts + [a])[1..] == acts[1..] + [a];
      WorldExecSnoc(WorldStep(w, acts[0].0, acts[0].1).value, acts[1..], a);
    }
  }

  /** A world that still has only its first wrapper. */
  function One(w: Wrapper, threads: map<Tid, Pc>, held: map<(nat, Tid), Native>, made: nat): World
  {
    World([State(w, threads)], [0], held, made)
  }

  lemma OneStep(v: World, a: Action, s': State)
    requires |v.streams| == 1 && Step(v.streams[0], a) == Some(s')
    ensures v.streams[0 := s'] == [s']
  {
  }

  /** Thread `t` of the one wrapper goes on, to `pc'`. */
  lemma OneGoes(w: Wrapper, threads: map<Tid, Pc>, held: map<(nat, Tid), Native>, made: nat, t: Tid, pc: Pc)
    requires WorldReachable(One(w, threads[t := pc], held, made)) && Advance(w, t, pc, true).Some?
    requires pc != Making && pc != RetireIn(Recreate) && pc != RetireStart(Recreate)
    ensures var (w', pc') := Advance(w, t, pc, true).value; WorldReachable(One(w', threads[t := pc'], held, made))
  {
    var v := One(w, threads[t := pc], held, made);
    var (w', pc') := Advance(w, t, pc, true).value;
    assert threads[t := pc][t := pc'] == threads[t := pc'];
    OneStep(v, Go(t, true), State(w', threads[t := pc']));
    Goes(v, 0, Go(t, true), One(w', threads[t := pc'], held, made));
  }

  lemma OneCalls(w: Wrapper, threads: map<Tid, Pc>, held: map<(nat, Tid), Native>, made: nat, t: Tid, start: Pc)
    requires WorldReachable(One(w, threads, held, made)) && t !in threads && IsStart(start)
    ensures WorldReachable(One(w, threads[t := start], held, made))
  {
    var v := One(w, threads, held, made);
    OneStep(v, Call(t, start), State(w, threads[t := start]));
    Goes(v, 0, Call(t, start), One(w, threads[t := start], held, made));
  }

  lemma OneMakes(w: Wrapper, threads: map<Tid, Pc>, made: nat, t: Tid)
    requires WorldReachable(One(w, threads[t := Making], map[], made))
    ensures WorldReachable(One(w, threads[t := RetireStart(Recreate)], map[(0, t) := made], made + 1))
  {
    var v := One(w, threads[t := Making], map[], made);
    assert threads[t := Making][t := RetireStart(Recreate)] == threads[t := RetireStart(Recreate)];
    OneStep(v, Go(t, true), State(w, threads[t := RetireStart(Recreate)]));
    Goes(v, 0, Go(t, true), One(w, threads[t := RetireStart(Recreate)], map[(0, t) := made], made + 1));
  }

  lemma OneLoses(w: Wrapper, threads: map<Tid, Pc>, made: nat, t: Tid, n: Native)
    requires WorldReachable(One(w, threads[t := RetireStart(Recreate)], map[(0, t) := n], made)) && w.disposed
    ensures WorldReachable(One(w, threads[t := Done], map[], made))
  {
    var v := One(w, threads[t := RetireStart(Recreate)], map[(0, t) := n], made);
    assert threads[t := RetireStart(Recreate)][t := Done] == threads[t := Done];
    assert map[(0, t) := n] - {(0, t)} == map[];
    OneStep(v, Go(t, true), State(w, threads[t := Done]));
    Goes(v, 0, Go(t, true), One(w, threads[t := Done], map[], made));
  }

  /** RecreateStream's read of the pointer, on a wrapper that nobody else has touched. */
  lemma EntersRead(u: Wrapper, t: Tid)
    requires WorldReachable(One(u, map[], map[], 1)) && u.writer.None?
    ensures WorldReachable(One(u.(readers := u.readers + {t}), map[][t := ReadIn], map[], 1))
  {
    OneCalls(u, map[], map[], 1, t, ReadStart);
    OneGoes(u, map[], map[], 1, t, ReadStart);
  }

  lemma ReadsPointer(u: Wrapper, t: Tid)
    requires WorldReachable(One(u, map[][t := ReadIn], map[], 1)) && !u.disposed && u.ptr
    ensures WorldReachable(One(u, map[][t := ReadOut(true)], map[], 1))
  {
    OneGoes(u, map[], map[], 1, t, ReadIn);
    OneGoes(u, map[], map[], 1, t, ReadChecked);
  }

  lemma HasPointer(t: Tid)
    ensures WorldReachable(One(Init().w, map[][t := Making], map[], 1))
  {
    assert WorldExec(First(), []) == Some(First());
    var u := Init().w;
    var locked := u.(readers := u.readers + {t});
    EntersRead(u, t);
    ReadsPointer(locked, t);
    OneGoes(locked, map[], map[], 1, t, ReadOut(true));
    assert locked.(readers := locked.readers - {t}) == u;
  }

  lemma DisposeOvertakes(u: Wrapper, t: Tid, v: Tid, held: map<(nat, Tid), Native>)
    requires WorldReachable(One(u, map[][t := RetireStart(Recreate)], held, 2)) && t != v && !u.disposed
    ensures WorldReachable(One(u.(disposed := true, winner := Some(v)),
                               map[][v := RetireClaimed(Dispose)][t := RetireStart(Recreate)], held, 2))
  {
    var recreating := map[][t := RetireStart(Recreate)];
    OneCalls(u, recreating, held, 2, v, RetireStart(Dispose));
    OneGoes(u, recreating, held, 2, v, RetireStart(Dispose));
    assert recreating[v := RetireClaimed(Dispose)] == map[][v := RetireClaimed(Dispose)][t := RetireStart(Recreate)];
  }

  /** It does happen: a Recreate that is overtaken by a Dispose leaves a native stream nobody will free. */
  lemma RecreateCanOrphan() returns (w: World)
    ensures WorldReachable(w) && |w.streams| == 1 && w.held == map[] && Orphans(w) == {1}
  {
    var u := Init().w;
    HasPointer(0);
    OneMakes(u, map[], 1, 0);
    DisposeOvertakes(u, 0, 1, map[(0, 0) := 1]);
    var claimed := u.(disposed := true, winner := Some(1));
    OneLoses(claimed, map[][1 := RetireClaimed(Dispose)], 2, 0, 1);
    w := One(claimed, map[][1 := RetireClaimed(Dispose)][0 := Done], map[], 2);
  }
}
