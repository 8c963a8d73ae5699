/**
 The stream registry of the pure-Go SDK object: creates, stream closes and SDK closes race
 over `closed`, `streams` and the shared connection.

 A section under the mutex is one step, and so is each call that leaves it: making a core,
 waiting for it, tearing it down, closing the connection.  Any number of goroutines
 interleave; a goroutine id stands for one call.
 */
module SdkRegistry {
  import opened Common

  type Gid = nat
  type Core = nat

  datatype Pc =
    | Making(wait: bool)                 // inside NewProtoJSONStream
    | Registering(core: Core, wait: bool) // about to enter the locked section
    | Rejecting(core: Core)              // the SDK was closed: Terminate
    | Awaiting(core: Core)               // WaitReady
    | Undoing(core: Core)                // it failed: terminate
    | Unregistering(core: Core)          // ... and forget
    | Returned(core: Core)               // the caller has the stream
    | Failed
    | Closing(core: Core)                // Stream.Close: core.Close
    | Forgetting(core: Core)             // ... and forget
    | StreamClosed(core: Core)
    | SdkClosing                         // SDK.Close: the locked section
    | TearingDown(pending: set<Core>)    // one goroutine per snapshotted stream, then Wait
    | ConnClosing                        // conn.Close
    | SdkClosed

  /**
   `streams` is None when the map is nil.  `live` are the cores not torn down.  The rest is
   history: the cores made and by which call, those handed to callers, those forgotten, what
   Close took its snapshot of, who closed, and how often the connection was closed.
   */
  datatype Sdk = Sdk(
    closed: bool, streams: Option<set<Core>>, live: set<Core>,
    maker: map<Core, Gid>, handed: set<Core>, forgotten: set<Core>,
    snapshot: set<Core>, closer: Option<Gid>, connClosed: nat)

  datatype State = State(sdk: Sdk, calls: map<Gid, Pc>)

  function Init(): (s: State)
  {
    State(Sdk(false, Some({}), {}, map[], {}, {}, {}, None, 0), map[])
  }

  /** What the environment decides in a step: whether a call succeeds, and which id or core it is about. */
  datatype Choice = Choice(ok: bool, core: Core)

  type Outcome = Option<(Sdk, Pc)>

  /** delete on the registry map; on a nil map it does nothing */
  function Forget(k: Sdk, c: Core): Sdk
  {
    k.(streams := if k.streams.Some? then Some(k.streams.value - {c}) else None, forgotten := k.forgotten + {c})
  }

  function CreateStep(k: Sdk, g: Gid, pc: Pc, e: Choice): Outcome
  {
    match pc
    case Making(wait) =>
      if !e.ok then Some((k, Failed))
      else if e.core in k.maker then None
      else Some((k.(live := k.live + {e.core}, maker := k.maker[e.core := g]), Registering(e.core, wait)))
    case Registering(c, wait) =>
      if k.closed then Some((k, Rejecting(c)))
      else if k.streams.None? then None // an insert into a nil map would panic
      else if wait then Some((k.(streams := Some(k.streams.value + {c})), Awaiting(c)))
      else Some((k.(streams := Some(k.streams.value + {c}), handed := k.handed + {c}), Returned(c)))
    case Rejecting(c) => Some((k.(live := k.live - {c}), Failed))
    case Awaiting(c) => if e.ok then Some((k.(handed := k.handed + {c}), Returned(c))) else Some((k, Undoing(c)))
    case Undoing(c) => Some((k.(live := k.live - {c}), Unregistering(c)))
    case Unregistering(c) => Some((Forget(k, c), Failed))
    case _ => None
  }

  function StreamCloseStep(k: Sdk, pc: Pc): Outcome
  {
    match pc
    case Closing(c) => Some((k.(live := k.live - {c}), Forgetting(c)))
    case Forgetting(c) => Some((Forget(k, c), StreamClosed(c)))
    case _ => None
  }

  function SdkCloseStep(k: Sdk, g: Gid, pc: Pc, e: Choice): Outcome
  {
    match pc
    case SdkClosing =>
      if k.closed then Some((k, SdkClosed))
      else
        var open := if k.streams.Some? then k.streams.value else {};
        Some((k.(closed := true, streams := None, snapshot := open, closer := Some(g)), TearingDown(open)))
    case TearingDown(pending) =>
      if pending == {} then Some((k, ConnClosing))
      else if e.core !in pending then None
      else Some((k.(live := k.live - {e.core}), TearingDown(pending - {e.core})))
    case ConnClosing => Some((k.(connClosed := k.connClosed + 1), SdkClosed))
    case _ => None
  }

  datatype Action = Call(g: Gid, start: Pc) | Go(g: Gid, choice: Choice)

  /** Callers may create, close the SDK, and close a stream they were given; any number of times. */
  predicate MayCall(k: Sdk, start: Pc)
  {
    start.Making? || start.SdkClosing? || (start.Closing? && start.core in k.handed)
  }

  function Advance(k: Sdk, g: Gid, pc: Pc, e: Choice): Outcome
  {
    if pc.Closing? || pc.Forgetting? then StreamCloseStep(k, pc)
    else if pc.SdkClosing? || pc.TearingDown? || pc.ConnClosing? then SdkCloseStep(k, g, pc, e)
    else CreateStep(k, g, pc, e)
  }

  function Step(s: State, a: Action): (r: Option<State>)
  {
    match a
    case Call(g, start) =>
      if g in s.calls || !MayCall(s.sdk, start) then None else Some(s.(calls := s.calls[g := start]))
    case Go(g, e) =>
      if g !in s.calls then None
      else (match Advance(s.sdk, g, s.calls[g], e)
            case None => None
            case Some((k, pc)) => Some(State(k, s.calls[g := pc])))
  }

  // ---------------------------------------------------------------- invariant

  /** A create call that holds a core no one else knows of yet. */
  predicate HoldsUnregistered(pc: Pc, c: Core)
  {
    (pc.Registering? || pc.Rejecting?) && pc.core == c
  }

  /** A create call that has made its core. */
  predicate IsCreating(pc: Pc)
  {
    pc.Registering? || pc.Rejecting? || pc.Awaiting? || pc.Undoing? || pc.Unregistering? || pc.Returned?
  }

  /** Has torn its core down. */
  predicate IsPastTeardown(pc: Pc)
  {
    pc.Unregistering? || pc.Forgetting? || pc.StreamClosed?
  }

  /** Has passed the locked section of SDK.Close as the one that closes. */
  predicate TearsDown(pc: Pc)
  {
    pc.TearingDown? || pc.ConnClosing?
  }

  /** Where a live core can be. */
  ghost predicate Owned(k: Sdk, calls: map<Gid, Pc>, c: Core)
  {
    || (k.streams.Some? && c in k.streams.value)
    || (c in k.maker && k.maker[c] in calls && HoldsUnregistered(calls[k.maker[c]], c))
    || (k.closer.Some? && k.closer.value in calls && calls[k.closer.value].TearingDown? && c in calls[k.closer.value].pending)
  }

  ghost predicate OwnedAll(k: Sdk, calls: map<Gid, Pc>)
  {
    forall c :: c in k.live ==> c in k.maker && Owned(k, calls, c)
  }

  ghost predicate MakersKnown(k: Sdk, calls: map<Gid, Pc>)
  {
    forall g :: g in calls && IsCreating(calls[g]) ==> calls[g].core in k.maker && k.maker[calls[g].core] == g
  }

  ghost predicate HandedReturned(k: Sdk, calls: map<Gid, Pc>)
  {
    forall c :: c in k.handed ==> c in k.maker && k.maker[c] in calls && calls[k.maker[c]] == Returned(c)
  }

  ghost predicate ClosersHanded(k: Sdk, calls: map<Gid, Pc>)
  {
    forall g :: g in calls && (calls[g].Closing? || calls[g].Forgetting? || calls[g].StreamClosed?) ==> calls[g].core in k.handed
  }

  ghost predicate Makers(k: Sdk, calls: map<Gid, Pc>)
  {
    MakersKnown(k, calls) && HandedReturned(k, calls) && ClosersHanded(k, calls)
  }

  /** What was torn down stays down. */
  ghost predicate Dead(k: Sdk, calls: map<Gid, Pc>)
  {
    && (forall g :: g in calls && IsPastTeardown(calls[g]) ==> calls[g].core !in k.live)
    && (forall c :: c in k.forgotten ==> c !in k.live)
    && (forall g :: g in calls && IsPastTeardown(calls[g]) ==> calls[g].core in k.maker)
  }

  /** What was forgotten is not in the registry and will not get in again. */
  ghost predicate Forgotten(k: Sdk, calls: map<Gid, Pc>)
  {
    && (forall c :: c in k.forgotten ==> c in k.maker && (k.streams.Some? ==> c !in k.streams.value))
    && (forall g :: g in calls && (calls[g].Registering? || calls[g].Awaiting?) ==> calls[g].core !in k.forgotten)
    && (forall g :: g in calls && calls[g].StreamClosed? ==> calls[g].core in k.forgotten)
  }

  /** One call closes; the connection is closed once, after every snapshotted stream is down. */
  ghost predicate Closers(k: Sdk, calls: map<Gid, Pc>)
  {
    && (k.streams.None? <==> k.closed)
    && (k.closed <==> k.closer.Some?)
    && (forall g :: g in calls && TearsDown(calls[g]) ==> k.closer == Some(g))
    && (k.closer.Some? ==> k.closer.value in calls && (TearsDown(calls[k.closer.value]) || calls[k.closer.value].SdkClosed?))
    && k.connClosed == (if k.closer.Some? && calls[k.closer.value].SdkClosed? then 1 else 0)
    && (k.closer.Some? && calls[k.closer.value].TearingDown? ==>
          forall c :: c in k.snapshot && c in k.live ==> c in calls[k.closer.value].pending)
    && (k.closer.Some? && !calls[k.closer.value].TearingDown? ==> k.snapshot !! k.live)
    && (forall c :: c in k.snapshot ==> c in k.maker)
    && (k.closer.None? ==> k.snapshot == {})
    && (forall g :: g in calls && calls[g].SdkClosed? ==> k.closed)
    && (k.streams.Some? ==> forall c :: c in k.streams.value ==> c in k.maker)
  }

  ghost predicate Inv(s: State)
  {
    OwnedAll(s.sdk, s.calls) && Makers(s.sdk, s.calls) && Dead(s.sdk, s.calls) && Forgotten(s.sdk, s.calls) && Closers(s.sdk, s.calls)
  }

  lemma CreateKeepsOwnedAll(s: State, g: Gid, e: Choice)
    requires Inv(s) && g in s.calls && CreateStep(s.sdk, g, s.calls[g], e).Some?
    ensures var (k, pc) := CreateStep(s.sdk, g, s.calls[g], e).value; OwnedAll(k, s.calls[g := pc])
  {
  }

  lemma CreateKeepsMakersKnown(s: State, g: Gid, e: Choice)
    requires MakersKnown(s.sdk, s.calls) && g in s.calls && CreateStep(s.sdk, g, s.calls[g], e).Some?
    ensures var (k, pc) := CreateStep(s.sdk, g, s.calls[g], e).value; MakersKnown(k, s.calls[g := pc])
  {
  }

  lemma CreateKeepsHandedReturned(s: State, g: Gid, e: Choice)
    requires Makers(s.sdk, s.calls) && g in s.calls && CreateStep(s.sdk, g, s.calls[g], e).Some?
    ensures var (k, pc) := CreateStep(s.sdk, g, s.calls[g], e).value; HandedReturned(k, s.calls[g := pc])
  {
  }

  lemma CreateKeepsMakers(s: State, g: Gid, e: Choice)
    requires Makers(s.sdk, s.calls) && g in s.calls && CreateStep(s.sdk, g, s.calls[g], e).Some?
    ensures var (k, pc) := CreateStep(s.sdk, g, s.calls[g], e).value; Makers(k, s.calls[g := pc])
  {
    CreateKeepsMakersKnown(s, g, e);
    CreateKeepsHandedReturned(s, g, e);
  }

  lemma CreateKeepsDead(s: State, g: Gid, e: Choice)
    requires Makers(s.sdk, s.calls) && Dead(s.sdk, s.calls) && Forgotten(s.sdk, s.calls) && g in s.calls && CreateStep(s.sdk, g, s.calls[g], e).Some?
    ensures var (k, pc) := CreateStep(s.sdk, g, s.calls[g], e).value; Dead(k, s.calls[g := pc])
  {
  }

  lemma CreateKeepsForgotten(s: State, g: Gid, e: Choice)
    requires Makers(s.sdk, s.calls) && Dead(s.sdk, s.calls) && Forgotten(s.sdk, s.calls) && g in s.calls && CreateStep(s.sdk, g, s.calls[g], e).Some?
    ensures var (k, pc) := CreateStep(s.sdk, g, s.calls[g], e).value; Forgotten(k, s.calls[g := pc])
  {
  }

  lemma CreateKeepsClosers(s: State, g: Gid, e: Choice)
    requires Makers(s.sdk, s.calls) && Closers(s.sdk, s.calls) && g in s.calls && CreateStep(s.sdk, g, s.calls[g], e).Some?
    ensures var (k, pc) := CreateStep(s.sdk, g, s.calls[g], e).value; Closers(k, s.calls[g := pc])
  {
  }

  lemma StreamCloseKeepsOwnedAll(s: State, g: Gid)
    requires Inv(s) && g in s.calls && StreamCloseStep(s.sdk, s.calls[g]).Some?
    ensures var (k, pc) := StreamCloseStep(s.sdk, s.calls[g]).value; OwnedAll(k, s.calls[g := pc])
  {
  }

  lemma StreamCloseKeepsMakers(s: State, g: Gid)
    requires Inv(s) && g in s.calls && StreamCloseStep(s.sdk, s.calls[g]).Some?
    ensures var (k, pc) := StreamCloseStep(s.sdk, s.calls[g]).value; Makers(k, s.calls[g := pc])
  {
  }

  lemma StreamCloseKeepsDead(s: State, g: Gid)
    requires Inv(s) && g in s.calls && StreamCloseStep(s.sdk, s.calls[g]).Some?
    ensures var (k, pc) := StreamCloseStep(s.sdk, s.calls[g]).value; Dead(k, s.calls[g := pc])
  {
  }

  lemma StreamCloseKeepsForgotten(s: State, g: Gid)
    requires Inv(s) && g in s.calls && StreamCloseStep(s.sdk, s.calls[g]).Some?
    ensures var (k, pc) := StreamCloseStep(s.sdk, s.calls[g]).value; Forgotten(k, s.calls[g := pc])
  {
  }

  lemma StreamCloseKeepsClosers(s: State, g: Gid)
    requires Inv(s) && g in s.calls && StreamCloseStep(s.sdk, s.calls[g]).Some?
    ensures var (k, pc) := StreamCloseStep(s.sdk, s.calls[g]).value; Closers(k, s.calls[g := pc])
  {
  }

  lemma SdkCloseKeepsOwnedAll(s: State, g: Gid, e: Choice)
    requires Inv(s) && g in s.calls && SdkCloseStep(s.sdk, g, s.calls[g], e).Some?
    ensures var (k, pc) := SdkCloseStep(s.sdk, g, s.calls[g], e).value; OwnedAll(k, s.calls[g := pc])
  {
  }

  lemma SdkCloseKeepsMakers(s: State, g: Gid, e: Choice)
    requires Inv(s) && g in s.calls && SdkCloseStep(s.sdk, g, s.calls[g], e).Some?
    ensures var (k, pc) := SdkCloseStep(s.sdk, g, s.calls[g], e).value; Makers(k, s.calls[g := pc])
  {
  }

  lemma SdkCloseKeepsDead(s: State, g: Gid, e: Choice)
    requires Inv(s) && g in s.calls && SdkCloseStep(s.sdk, g, s.calls[g], e).Some?
    ensures var (k, pc) := SdkCloseStep(s.sdk, g, s.calls[g], e).value; Dead(k, s.calls[g := pc])
  {
  }

  lemma SdkCloseKeepsForgotten(s: State, g: Gid, e: Choice)
    requires Inv(s) && g in s.calls && SdkCloseStep(s.sdk, g, s.calls[g], e).Some?
    ensures var (k, pc) := SdkCloseStep(s.sdk, g, s.calls[g], e).value; Forgotten(k, s.calls[g := pc])
  {
  }

  lemma SdkCloseKeepsClosers(s: State, g: Gid, e: Choice)
    requires Inv(s) && g in s.calls && SdkCloseStep(s.sdk, g, s.calls[g], e).Some?
    ensures var (k, pc) := SdkCloseStep(s.sdk, g, s.calls[g], e).value; Closers(k, s.calls[g := pc])
  {
  }

  lemma CallKeepsInv(s: State, g: Gid, start: Pc)
    requires Inv(s) && g !in s.calls && MayCall(s.sdk, start)
    ensures Inv(s.(calls := s.calls[g := start]))
  {
  }

  /** Every step of every interleaving keeps the invariant. */
  lemma StepKeepsInv(s: State, a: Action)
    requires Inv(s) && Step(s, a).Some?
    ensures Inv(Step(s, a).value)
  {
    match a {
      case Call(g, start) => CallKeepsInv(s, g, start);
      case Go(g, e) =>
        var pc := s.calls[g];
        if pc.Closing? || pc.Forgetting? {
          StreamCloseKeepsOwnedAll(s, g); StreamCloseKeepsMakers(s, g); StreamCloseKeepsDead(s, g);
          StreamCloseKeepsForgotten(s, g); StreamCloseKeepsClosers(s, g);
        } else if pc.SdkClosing? || pc.TearingDown? || pc.ConnClosing? {
          SdkCloseKeepsOwnedAll(s, g, e); SdkCloseKeepsMakers(s, g, e); SdkCloseKeepsDead(s, g, e);
          SdkCloseKeepsForgotten(s, g, e); SdkCloseKeepsClosers(s, g, e);
        } else {
          CreateKeepsOwnedAll(s, g, e); CreateKeepsMakers(s, g, e); CreateKeepsDead(s, g, e);
          CreateKeepsForgotten(s, g, e); CreateKeepsClosers(s, g, e);
        }
    }
  }

  function Exec(s: State, acts: seq<Action>): (r: Option<State>)
    decreases |acts|
  {
    if acts == [] then Some(s)
    else (match Step(s, acts[0]) case None => None case Some(t) => Exec(t, acts[1..]))
  }

  lemma {:induction false} RunKeepsInv(s: State, acts: seq<Action>)
    requires Inv(s) && Exec(s, acts).Some?
    ensures Inv(Exec(s, acts).value)
    decreases |acts|
  {
    if acts != [] {
      StepKeepsInv(s, acts[0]);
      RunKeepsInv(Step(s, acts[0]).value, acts[1..]);
    }
  }

  ghost predicate Reachable(s: State)
  {
    exists acts :: Exec(Init(), acts) == Some(s)
  }

  lemma ReachableInv(s: State)
    requires Reachable(s)
    ensures Inv(s)
  {
    var acts :| Exec(Init(), acts) == Some(s);
    assert Inv(Init());
    RunKeepsInv(Init(), acts);
  }

  // ---------------------------------------------------------------- what the registry promises

  /**
   Each live core is in the registry, held by a create call that has not registered it, or
   still to be terminated by the Close that is tearing down.
   */
  lemma EveryLiveCoreIsOwned(s: State, c: Core)
    requires Reachable(s) && c in s.sdk.live
    ensures || (s.sdk.streams.Some? && c in s.sdk.streams.value)
            || (exists g :: g in s.calls && HoldsUnregistered(s.calls[g], c))
            || (exists g :: g in s.calls && s.calls[g].TearingDown? && c in s.calls[g].pending)
  {
    ReachableInv(s);
    assert Owned(s.sdk, s.calls, c);
  }

  predicate CreateRunning(pc: Pc)
  {
    pc.Making? || pc.Registering? || pc.Rejecting?
  }

  /** Once the Close that closed has returned and no create is between making and registering, no core is live. */
  lemma NothingLeaksAfterClose(s: State)
    requires Reachable(s) && s.sdk.connClosed > 0
    requires forall g :: g in s.calls ==> !CreateRunning(s.calls[g])
    ensures s.sdk.live == {}
  {
    ReachableInv(s);
    assert forall c :: c in s.sdk.live ==> Owned(s.sdk, s.calls, c);
  }

  /** The call that closes is still waiting for a stream that is not down. */
  predicate StillTearingDown(s: State)
  {
    && s.sdk.closer.Some? && s.sdk.closer.value in s.calls && s.calls[s.sdk.closer.value].TearingDown?
    && s.calls[s.sdk.closer.value].pending * s.sdk.live != {}
  }

  /**
   When some SDK.Close has returned and no create is running, no core is live exactly when the
   call that closes is past its wait or has nothing left to wait for; so a call that closes
   leaves none, and a later one, which returns at once, may.
   */
  lemma ReturnedCloseMeansDownExactly(s: State, g: Gid)
    requires Reachable(s) && g in s.calls && s.calls[g].SdkClosed?
    requires forall h :: h in s.calls ==> !CreateRunning(s.calls[h])
    ensures s.sdk.live == {} <==> !StillTearingDown(s)
    ensures s.sdk.closer == Some(g) ==> s.sdk.live == {}
  {
    ReachableInv(s);
    assert forall c :: c in s.sdk.live ==> Owned(s.sdk, s.calls, c);
    if StillTearingDown(s) {
      var c :| c in s.calls[s.sdk.closer.value].pending * s.sdk.live;
    }
  }

  /** It does: a second Close has returned, no create is running, and a stream is still up. */
  lemma SecondCloseReturnsEarly() returns (s: State)
    ensures Reachable(s) && 2 in s.calls && s.calls[2].SdkClosed? && 0 in s.sdk.live
    ensures forall h :: h in s.calls ==> !CreateRunning(s.calls[h])
  {
    s := OneStreamIsUp();
    var yes := Choice(true, 0);
    s := GoesOn(s, Call(1, SdkClosing));
    s := GoesOn(s, Go(1, yes));
    s := GoesOn(s, Call(2, SdkClosing));
    s := GoesOn(s, Go(2, yes));
  }

  lemma OneStreamIsUp() returns (s: State)
    ensures Reachable(s) && s.calls == map[0 := Returned(0)]
    ensures !s.sdk.closed && s.sdk.streams == Some({0}) && 0 in s.sdk.live
  {
    var yes := Choice(true, 0);
    s := Init();
    assert Exec(s, []) == Some(s);
    s := GoesOn(s, Call(0, Making(false)));
    s := GoesOn(s, Go(0, yes));
    s := GoesOn(s, Go(0, yes));
    assert s.sdk.streams.value == {0};
  }

  lemma GoesOn(s: State, a: Action) returns (t: State)
    requires Reachable(s) && Step(s, a).Some?
    ensures Step(s, a) == Some(t) && Reachable(t)
  {
    t := Step(s, a).value;
    var acts :| Exec(Init(), acts) == Some(s);
    ExecSnoc(Init(), acts, a);
  }

  lemma {:induction false} ExecSnoc(s: State, acts: seq<Action>, a: Action)
    requires Exec(s, acts).Some?
    ensures Exec(s, acts + [a]) == Step(Exec(s, acts).value, a)
    decreases |acts|
  {
    if acts == [] {
      assert acts + [a] == [a] && [a][1..] == [];
    } else {
      assert (acts + [a])[1..] == acts[1..] + [a];
      ExecSnoc(Step(s, acts[0]).value, acts[1..], a);
    }
  }

  /** The connection is closed at most once, by one call, and only after every stream in its snapshot is down. */
  lemma ConnClosedOnceAndLast(s: State)
    requires Reachable(s)
    ensures s.sdk.connClosed <= 1 && (s.sdk.closer.Some? ==> s.sdk.closer.value in s.calls)
    ensures s.sdk.connClosed == 1 <==> s.sdk.closer.Some? && s.calls[s.sdk.closer.value].SdkClosed?
    ensures s.sdk.connClosed == 1 ==> s.sdk.snapshot !! s.sdk.live
    ensures forall g, h :: g in s.calls && h in s.calls && TearsDown(s.calls[g]) && TearsDown(s.calls[h]) ==> g == h
  {
    ReachableInv(s);
  }

  /** The map is nil exactly when the SDK is closed, so no insert ever hits a nil map. */
  lemma InsertNeverHitsNil(s: State, g: Gid, e: Choice)
    requires Reachable(s)
    ensures s.sdk.streams.None? <==> s.sdk.closed
    ensures g in s.calls && s.calls[g].Registering? ==> Step(s, Go(g, e)).Some?
  {
    ReachableInv(s);
  }

  ghost predicate OnlyOnward(k: Sdk, k': Sdk)
  {
    && (k.closed ==> k'.closed)
    && (forall c :: c in k.maker && c !in k.live ==> c in k'.maker && c !in k'.live)
    && k.forgotten <= k'.forgotten
  }

  lemma StepGoesOnward(s: State, a: Action)
    requires Step(s, a).Some?
    ensures OnlyOnward(s.sdk, Step(s, a).value.sdk)
  {
  }

  /** closed never reverts, a core that is down stays down, and what was forgotten stays out of the registry. */
  lemma {:induction false} NothingReverts(s: State, acts: seq<Action>)
    requires Exec(s, acts).Some?
    ensures OnlyOnward(s.sdk, Exec(s, acts).value.sdk)
    decreases |acts|
  {
    if acts != [] {
      StepGoesOnward(s, acts[0]);
      NothingReverts(Step(s, acts[0]).value, acts[1..]);
    }
  }

  /** A stream whose Close has returned is down and is not retained by the SDK, then or later. */
  lemma ClosedStreamIsNotRetained(s: State, g: Gid, later: seq<Action>)
    requires Reachable(s) && g in s.calls && s.calls[g].StreamClosed?
    requires Exec(s, later).Some?
    ensures var t, c := Exec(s, later).value.sdk, s.calls[g].core;
            c !in t.live && (t.streams.Some? ==> c !in t.streams.value)
  {
    ReachableInv(s);
    RunKeepsInv(s, later);
    NothingReverts(s, later);
    assert s.calls[g].core in s.sdk.forgotten;
  }
}
