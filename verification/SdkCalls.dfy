/**
 What each call on the pure-Go SDK object does from its start to its end, in every run, and what
 the registry holds because of it: a create registers its core unless the SDK was closed, and
 returns it unless it did not get ready; the registry is the cores of the creates past
 registration that nobody has closed.
 */
module SdkCalls {
  import opened Common
  import opened SdkRegistry

  /** One step of a call: where it was, the SDK it found there, and what the environment decided. */
  datatype Visit = Visit(pc: Pc, sdk: Sdk, choice: Choice)

  /** The steps call `g` takes in a run from `s`. */
  function Visits(s: State, acts: seq<Action>, g: Gid): seq<Visit>
    decreases |acts|
  {
    if acts == [] || Step(s, acts[0]).None? then []
    else
      var rest := Visits(Step(s, acts[0]).value, acts[1..], g);
      if acts[0].Go? && acts[0].g == g then [Visit(s.calls[g], s.sdk, acts[0].choice)] + rest else rest
  }

  /** How call `g` was made. */
  function StartOf(acts: seq<Action>, g: Gid): Option<Pc>
  {
    if acts == [] then None
    else if acts[0].Call? && acts[0].g == g then Some(acts[0].start)
    else StartOf(acts[1..], g)
  }

  // ---------------------------------------------------------------- paths

  /**
   A create that is given core `c`, if one is `made`; `closed` is how it finds the SDK, `ready`
   how the core ends its setup.
   */
  function CreatePath(wait: bool, c: Core, made: bool, closed: bool, ready: bool): seq<Pc>
  {
    if !made then [Making(wait), Failed]
    else if closed then [Making(wait), Registering(c, wait), Rejecting(c), Failed]
    else if !wait then [Making(wait), Registering(c, wait), Returned(c)]
    else if ready then [Making(wait), Registering(c, wait), Awaiting(c), Returned(c)]
    else [Making(wait), Registering(c, wait), Awaiting(c), Undoing(c), Unregistering(c), Failed]
  }

  function ClosePath(c: Core): seq<Pc>
  {
    [Closing(c), Forgetting(c), StreamClosed(c)]
  }

  predicate Yes(vs: seq<Visit>, k: nat)
  {
    k < |vs| && vs[k].choice.ok
  }

  function CreatePathOf(wait: bool, vs: seq<Visit>): seq<Pc>
  {
    CreatePath(wait, if vs == [] then 0 else vs[0].choice.core, vs == [] || Yes(vs, 0),
               |vs| > 1 && vs[1].sdk.closed, Yes(vs, 2))
  }

  /** The steps so far are the beginning of the path, and `pc` comes next. */
  predicate Along(vs: seq<Visit>, pc: Pc, path: seq<Pc>)
  {
    |vs| < |path| && pc == path[|vs|] && forall i :: 0 <= i < |vs| ==> vs[i].pc == path[i]
  }

  predicate CreateMove(v: Visit, pc: Pc)
  {
    && (v.pc.Making? ==> pc == if v.choice.ok then Registering(v.choice.core, v.pc.wait) else Failed)
    && (v.pc.Registering? ==>
          pc == if v.sdk.closed then Rejecting(v.pc.core)
                else if v.pc.wait then Awaiting(v.pc.core) else Returned(v.pc.core))
    && (v.pc.Rejecting? ==> pc == Failed)
    && (v.pc.Awaiting? ==> pc == if v.choice.ok then Returned(v.pc.core) else Undoing(v.pc.core))
    && (v.pc.Undoing? ==> pc == Unregistering(v.pc.core))
    && (v.pc.Unregistering? ==> pc == Failed)
    && !v.pc.Returned? && !v.pc.Failed?
  }

  lemma CreateMoves(k: Sdk, g: Gid, pc: Pc, e: Choice)
    requires Advance(k, g, pc, e).Some?
    ensures CreateMove(Visit(pc, k, e), Advance(k, g, pc, e).value.1)
  {
  }

  lemma CreateAlong(vs: seq<Visit>, v: Visit, pc: Pc, wait: bool)
    requires Along(vs, v.pc, CreatePathOf(wait, vs)) && CreateMove(v, pc)
    ensures Along(vs + [v], pc, CreatePathOf(wait, vs + [v]))
  {
  }

  lemma CloseAlong(vs: seq<Visit>, k: Sdk, g: Gid, pc: Pc, e: Choice, c: Core)
    requires Along(vs, pc, ClosePath(c)) && Advance(k, g, pc, e).Some?
    ensures Along(vs + [Visit(pc, k, e)], Advance(k, g, pc, e).value.1, ClosePath(c))
  {
  }

  /** Creates and closes of streams; SDK.Close is described by what it leaves behind. */
  ghost predicate OnPath(s: State, g: Gid, start: Pc, vs: seq<Visit>)
  {
    && g in s.calls
    && (start.Making? ==> Along(vs, s.calls[g], CreatePathOf(start.wait, vs)))
    && (start.Closing? ==> Along(vs, s.calls[g], ClosePath(start.core)))
  }

  lemma OwnStep(s: State, a: Action, s': State, start: Pc, vs: seq<Visit>)
    requires Step(s, a) == Some(s') && a.Go? && OnPath(s, a.g, start, vs)
    ensures OnPath(s', a.g, start, vs + [Visit(s.calls[a.g], s.sdk, a.choice)])
  {
    var pc := s.calls[a.g];
    if start.Making? {
      CreateMoves(s.sdk, a.g, pc, a.choice);
      CreateAlong(vs, Visit(pc, s.sdk, a.choice), s'.calls[a.g], start.wait);
    } else if start.Closing? {
      CloseAlong(vs, s.sdk, a.g, pc, a.choice, start.core);
    }
  }

  lemma OthersStep(s: State, a: Action, s': State, g: Gid, start: Pc, vs: seq<Visit>)
    requires Step(s, a) == Some(s') && OnPath(s, g, start, vs) && (a.Go? ==> a.g != g)
    ensures OnPath(s', g, start, vs)
  {
  }

  lemma VisitsSplit(s: State, acts: seq<Action>, g: Gid, past: seq<Visit>)
    requires acts != [] && Step(s, acts[0]).Some?
    ensures var a, rest := acts[0], Visits(Step(s, acts[0]).value, acts[1..], g);
            past + Visits(s, acts, g)
              == (if a.Go? && a.g == g then past + [Visit(s.calls[g], s.sdk, a.choice)] else past) + rest
  {
    var a, rest := acts[0], Visits(Step(s, acts[0]).value, acts[1..], g);
    if a.Go? && a.g == g {
      var v := Visit(s.calls[g], s.sdk, a.choice);
      assert past + ([v] + rest) == past + [v] + rest;
    }
  }

  lemma {:induction false} RunAlong(s: State, acts: seq<Action>, s': State, g: Gid, start: Pc,
                                    past: seq<Visit>, vs: seq<Visit>)
    requires Exec(s, acts) == Some(s') && OnPath(s, g, start, past) && vs == past + Visits(s, acts, g)
    ensures OnPath(s', g, start, vs)
    decreases |acts|
  {
    if acts == [] {
      assert vs == past;
    } else {
      var a, u := acts[0], Step(s, acts[0]).value;
      VisitsSplit(s, acts, g, past);
      if a.Go? && a.g == g {
        OwnStep(s, a, u, start, past);
        RunAlong(u, acts[1..], s', g, start, past + [Visit(s.calls[g], s.sdk, a.choice)], vs);
      } else {
        OthersStep(s, a, u, g, start, past);
        RunAlong(u, acts[1..], s', g, start, past, vs);
      }
    }
  }

  lemma {:induction false} CallAlong(s: State, acts: seq<Action>, s': State, g: Gid)
    requires Exec(s, acts) == Some(s') && g !in s.calls && g in s'.calls
    ensures StartOf(acts, g).Some? && OnPath(s', g, StartOf(acts, g).value, Visits(s, acts, g))
    decreases |acts|
  {
    var a, u := acts[0], Step(s, acts[0]).value;
    if a.g == g {
      assert OnPath(u, g, a.start, []);
      RunAlong(u, acts[1..], s', g, a.start, [], Visits(s, acts, g));
    } else {
      CallAlong(u, acts[1..], s', g);
    }
  }

  /** Call `g`, made as `start` in the run `acts` of a new SDK object, is now at `pc` and took the steps `vs`. */
  ghost predicate Made(acts: seq<Action>, g: Gid, start: Pc, vs: seq<Visit>, pc: Pc)
  {
    && Exec(Init(), acts).Some? && g in Exec(Init(), acts).value.calls
    && StartOf(acts, g) == Some(start) && vs == Visits(Init(), acts, g)
    && pc == Exec(Init(), acts).value.calls[g]
  }

  /**
   In every run a create gives its caller a stream if and only if a core was made, the SDK was
   not closed when it came to register it, and, if it waits, the core got ready; the stream is
   the core that was made.  A core that is not given out has been torn down by this call.
   */
  lemma CreateReturnsExactly(acts: seq<Action>, g: Gid, wait: bool, vs: seq<Visit>, pc: Pc)
    requires Made(acts, g, Making(wait), vs, pc) && (pc.Returned? || pc.Failed?)
    ensures |vs| > 0 && (vs[0].choice.ok ==> |vs| > 1)
    ensures vs[0].choice.ok && !vs[1].sdk.closed && wait ==> |vs| > 2 && vs[2].pc == Awaiting(vs[0].choice.core)
    ensures pc == Returned(vs[0].choice.core) <==>
              vs[0].choice.ok && !vs[1].sdk.closed && (wait ==> vs[2].choice.ok)
    ensures pc.Failed? && vs[0].choice.ok ==>
              var c := vs[0].choice.core;
              exists i :: 0 <= i < |vs| && (vs[i].pc == Rejecting(c) || vs[i].pc == Undoing(c))
  {
    CallAlong(Init(), acts, Exec(Init(), acts).value, g);
    if pc.Failed? && vs[0].choice.ok {
      assert if vs[1].sdk.closed then vs[2].pc.Rejecting? else vs[3].pc.Undoing?;
    }
  }

  /** In every run a returned Stream.Close has closed its core, and after that forgotten it. */
  lemma CloseClosesThenForgets(acts: seq<Action>, g: Gid, c: Core, vs: seq<Visit>, pc: Pc)
    requires Made(acts, g, Closing(c), vs, pc) && pc.StreamClosed?
    ensures pc == StreamClosed(c) && |vs| == 2 && vs[0].pc == Closing(c) && vs[1].pc == Forgetting(c)
  {
    CallAlong(Init(), acts, Exec(Init(), acts).value, g);
  }

  // ---------------------------------------------------------------- the registry

  /** A create past registration. */
  predicate Registered(pc: Pc)
  {
    pc.Awaiting? || pc.Undoing? || pc.Unregistering? || pc.Returned?
  }

  /** A Stream.Close of core `c` has returned. */
  ghost predicate ClosedByCaller(s: State, c: Core)
  {
    exists g :: g in s.calls && s.calls[g] == StreamClosed(c)
  }

  /** The call that made core `c` is past registration with it. */
  ghost predicate HasRegistered(s: State, c: Core)
  {
    && c in s.sdk.maker && s.sdk.maker[c] in s.calls
    && Registered(s.calls[s.sdk.maker[c]]) && s.calls[s.sdk.maker[c]].core == c
  }

  /** While the SDK is open, the registry is the registered cores that were not forgotten. */
  ghost predicate RegistryFits(k: Sdk, calls: map<Gid, Pc>)
  {
    k.streams.Some? ==>
      forall c :: c in k.streams.value <==> HasRegistered(State(k, calls), c) && c !in k.forgotten
  }

  /** A core is forgotten by its own create, which fails then, or by a Stream.Close. */
  ghost predicate ForgottenFits(k: Sdk, calls: map<Gid, Pc>)
  {
    && (forall c :: c in k.forgotten ==> !HasRegistered(State(k, calls), c) || ClosedByCaller(State(k, calls), c))
    && (forall g :: g in calls && calls[g].StreamClosed? ==> calls[g].core in k.forgotten)
  }

  lemma HasRegisteredMoves(s: State, a: Action, s': State, c: Core)
    requires Makers(s.sdk, s.calls) && Step(s, a) == Some(s')
    ensures HasRegistered(s', c) <==>
      if a.Go? && s.calls[a.g].Registering? && s.calls[a.g].core == c then !s.sdk.closed
      else HasRegistered(s, c) && !(a.Go? && s.calls[a.g] == Unregistering(c))
  {
  }

  lemma StreamsMove(s: State, a: Action, s': State, c: Core)
    requires Step(s, a) == Some(s')
    ensures c in s'.sdk.forgotten <==>
      c in s.sdk.forgotten || (a.Go? && (s.calls[a.g] == Forgetting(c) || s.calls[a.g] == Unregistering(c)))
    ensures s'.sdk.streams.Some? ==> s.sdk.streams.Some? && (c in s'.sdk.streams.value <==>
      if a.Go? && s.calls[a.g].Registering? && s.calls[a.g].core == c then c in s.sdk.streams.value || !s.sdk.closed
      else c in s.sdk.streams.value && !(a.Go? && (s.calls[a.g] == Forgetting(c) || s.calls[a.g] == Unregistering(c))))
  {
  }

  lemma RegistryKeptAt(s: State, a: Action, s': State, c: Core)
    requires Inv(s) && Step(s, a) == Some(s') && s'.sdk.streams.Some? && s.sdk.streams.Some?
    requires c in s.sdk.streams.value <==> HasRegistered(s, c) && c !in s.sdk.forgotten
    ensures c in s'.sdk.streams.value <==> HasRegistered(s', c) && c !in s'.sdk.forgotten
  {
    HasRegisteredMoves(s, a, s', c);
    StreamsMove(s, a, s', c);
  }

  lemma StepKeepsRegistry(s: State, a: Action, s': State)
    requires Inv(s) && RegistryFits(s.sdk, s.calls) && Step(s, a) == Some(s')
    ensures RegistryFits(s'.sdk, s'.calls)
  {
    if s'.sdk.streams.Some? {
      forall c ensures c in s'.sdk.streams.value <==> HasRegistered(s', c) && c !in s'.sdk.forgotten {
        StreamsMove(s, a, s', c);
        RegistryKeptAt(s, a, s', c);
      }
    }
  }

  lemma ForgottenKeptAt(s: State, a: Action, s': State, c: Core)
    requires Makers(s.sdk, s.calls) && Step(s, a) == Some(s') && c in s'.sdk.forgotten && HasRegistered(s', c)
    requires c in s.sdk.forgotten && HasRegistered(s, c) ==> ClosedByCaller(s, c)
    requires c in s.sdk.forgotten ==> !(a.Go? && s.calls[a.g].Registering? && s.calls[a.g].core == c)
    ensures ClosedByCaller(s', c)
  {
    HasRegisteredMoves(s, a, s', c);
    StreamsMove(s, a, s', c);
    if c in s.sdk.forgotten {
      var g :| g in s.calls && s.calls[g] == StreamClosed(c);
      assert s'.calls[g] == StreamClosed(c);
    } else {
      assert s'.calls[a.g] == StreamClosed(c);
    }
  }

  lemma StepKeepsForgotten(s: State, a: Action, s': State)
    requires Inv(s) && ForgottenFits(s.sdk, s.calls) && Step(s, a) == Some(s')
    ensures ForgottenFits(s'.sdk, s'.calls)
  {
    forall c | c in s'.sdk.forgotten && HasRegistered(s', c) ensures ClosedByCaller(s', c) {
      ForgottenKeptAt(s, a, s', c);
    }
    StepKeepsInv(s, a);
  }

  // ---------------------------------------------------------------- streams stay up

  /** A Stream.Close has torn core `c` down. */
  ghost predicate TornByCaller(s: State, c: Core)
  {
    exists g :: g in s.calls && (s.calls[g] == Forgetting(c) || s.calls[g] == StreamClosed(c))
  }

  /** A create that may still give its core to the caller, or has. */
  predicate KeepsUp(pc: Pc)
  {
    pc.Registering? || pc.Awaiting? || pc.Returned?
  }

  ghost predicate UpFits(k: Sdk, calls: map<Gid, Pc>)
  {
    && (forall g :: g in calls && KeepsUp(calls[g]) ==>
          calls[g].core in k.live || calls[g].core in k.snapshot || TornByCaller(State(k, calls), calls[g].core))
    && (forall g :: g in calls && calls[g].TearingDown? ==> calls[g].pending <= k.snapshot)
    && (forall g :: g in calls && calls[g].Returned? ==> calls[g].core in k.handed)
  }

  lemma LiveMoves(s: State, a: Action, s': State, c: Core)
    requires Step(s, a) == Some(s') && c in s.sdk.live && c !in s'.sdk.live
    ensures a.Go?
    ensures s.calls[a.g] == Rejecting(c) || s.calls[a.g] == Undoing(c) || s.calls[a.g] == Closing(c)
            || (s.calls[a.g].TearingDown? && c in s.calls[a.g].pending)
  {
  }

  lemma KeptUpBefore(s: State, a: Action, s': State, g: Gid)
    requires Step(s, a) == Some(s') && g in s'.calls && KeepsUp(s'.calls[g])
    ensures (g in s.calls && KeepsUp(s.calls[g]) && s.calls[g].core == s'.calls[g].core)
            || s'.calls[g].core in s'.sdk.live
    ensures s'.calls[g].Returned? && !(g in s.calls && s.calls[g].Returned?) ==> s'.calls[g].core in s'.sdk.handed
    ensures s.sdk.handed <= s'.sdk.handed
  {
  }

  lemma UpKeptAt(s: State, a: Action, s': State, g: Gid, c: Core)
    requires Inv(s) && UpFits(s.sdk, s.calls) && Step(s, a) == Some(s') && s.sdk.snapshot <= s'.sdk.snapshot
    requires g in s.calls && KeepsUp(s.calls[g]) && s.calls[g].core == c
    requires g in s'.calls && KeepsUp(s'.calls[g]) && s'.calls[g].core == c
    ensures c in s'.sdk.live || c in s'.sdk.snapshot || TornByCaller(s', c)
  {
    if TornByCaller(s, c) {
      var h :| h in s.calls && (s.calls[h] == Forgetting(c) || s.calls[h] == StreamClosed(c));
      assert s'.calls[h] == Forgetting(c) || s'.calls[h] == StreamClosed(c);
    } else if c in s.sdk.live && c !in s'.sdk.live {
      LiveMoves(s, a, s', c);
      if s.calls[a.g] == Closing(c) { assert s'.calls[a.g] == Forgetting(c); }
    }
  }

  lemma SnapshotMoves(s: State, a: Action, s': State)
    requires Inv(s) && UpFits(s.sdk, s.calls) && Step(s, a) == Some(s')
    ensures s.sdk.snapshot <= s'.sdk.snapshot
    ensures forall g :: g in s'.calls && s'.calls[g].TearingDown? ==> s'.calls[g].pending <= s'.sdk.snapshot
  {
  }

  lemma StepKeepsUp(s: State, a: Action, s': State)
    requires Inv(s) && UpFits(s.sdk, s.calls) && Step(s, a) == Some(s')
    ensures UpFits(s'.sdk, s'.calls)
  {
    SnapshotMoves(s, a, s');
    forall g | g in s'.calls && KeepsUp(s'.calls[g])
      ensures var c := s'.calls[g].core; c in s'.sdk.live || c in s'.sdk.snapshot || TornByCaller(s', c)
      ensures s'.calls[g].Returned? ==> s'.calls[g].core in s'.sdk.handed
    {
      KeptUpBefore(s, a, s', g);
      if s'.calls[g].core !in s'.sdk.live { UpKeptAt(s, a, s', g, s'.calls[g].core); }
    }
  }

  ghost predicate Fits(s: State)
  {
    Inv(s) && RegistryFits(s.sdk, s.calls) && ForgottenFits(s.sdk, s.calls) && UpFits(s.sdk, s.calls)
  }

  lemma {:induction false} RunKeepsFits(s: State, acts: seq<Action>, s': State)
    requires Fits(s) && Exec(s, acts) == Some(s')
    ensures Fits(s')
    decreases |acts|
  {
    if acts != [] {
      var u := Step(s, acts[0]).value;
      StepKeepsInv(s, acts[0]);
      StepKeepsRegistry(s, acts[0], u);
      StepKeepsForgotten(s, acts[0], u);
      StepKeepsUp(s, acts[0], u);
      RunKeepsFits(u, acts[1..], s');
    }
  }

  lemma ReachableFits(s: State)
    requires Reachable(s)
    ensures Fits(s)
  {
    var acts :| Exec(Init(), acts) == Some(s);
    assert Fits(Init());
    RunKeepsFits(Init(), acts, s);
  }

  /** While the SDK is open, the registry is the cores registered by their create and not closed by a caller. */
  lemma RegistryIsExact(s: State, c: Core)
    requires Reachable(s) && !s.sdk.closed
    ensures s.sdk.streams.Some? && (c in s.sdk.streams.value <==> HasRegistered(s, c) && !ClosedByCaller(s, c))
  {
    ReachableFits(s);
  }

  /**
   A stream that was returned, or will be, stays up until its own Close or the close of the SDK
   tears it down; and its caller may close it.
   */
  lemma ReturnedStreamStaysUp(s: State, g: Gid)
    requires Reachable(s) && g in s.calls && KeepsUp(s.calls[g])
    ensures var c := s.calls[g].core; c in s.sdk.live || TornByCaller(s, c) || (s.sdk.closed && c in s.sdk.snapshot)
    ensures s.calls[g].Returned? ==> MayCall(s.sdk, Closing(s.calls[g].core))
  {
    ReachableFits(s);
  }

  predicate Ended(pc: Pc)
  {
    pc.Returned? || pc.Failed? || pc.StreamClosed? || pc.SdkClosed?
  }

  /** What the environment can decide for a call: a new core is new, and a stream going down is one of those pending. */
  predicate Fair(k: Sdk, pc: Pc, e: Choice)
  {
    && (pc.Making? && e.ok ==> e.core !in k.maker)
    && (pc.TearingDown? && pc.pending != {} ==> e.core in pc.pending)
  }

  /** No call is ever stuck: each that has not ended can go on, whatever the environment decides. */
  lemma EveryCallGoesOn(s: State, g: Gid, e: Choice)
    requires Reachable(s) && g in s.calls && !Ended(s.calls[g]) && Fair(s.sdk, s.calls[g], e)
    ensures Step(s, Go(g, e)).Some?
  {
    ReachableInv(s);
  }
}
