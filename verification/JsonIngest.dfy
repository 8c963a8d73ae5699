/**
 JSON ingestion on a proto stream of the pure-Go SDK: the overflow-safe size sum, the limits,
 the cancellable conversion loop, and the one-slot gate that serializes conversions.
 */
module JsonIngest {
  import opened Common

  /** The JSON-to-protobuf converter, given by the stream's descriptor; None is a conversion error. */
  type Converter = Bytes -> Option<Bytes>

  const DEFAULT_MAX_BATCH_RECORDS: int := 100_000
  const DEFAULT_MAX_BUFFERED_BYTES: int := 64 * 1024 * 1024

  // ---------------------------------------------------------------- sizes and limits

  function TotalLength(records: seq<Bytes>): nat
  {
    if records == [] then 0 else TotalLength(records[..|records| - 1]) + |records[|records| - 1]|
  }

  lemma {:induction false} TotalLengthGrows(records: seq<Bytes>, n: nat)
    requires n <= |records|
    ensures TotalLength(records[..n]) <= TotalLength(records)
    decreases |records| - n
  {
    if n < |records| {
      assert records[..n + 1][..n] == records[..n];
      TotalLengthGrows(records, n + 1);
    } else {
      assert records[..n] == records;
    }
  }

  /** One record counts its length, and batches add up. */
  lemma {:induction false} TotalLengthIsTheSum(a: seq<Bytes>, b: seq<Bytes>)
    ensures TotalLength(a + b) == TotalLength(a) + TotalLength(b)
    ensures |b| == 1 ==> TotalLength(b) == |b[0]|
    decreases |b|
  {
    if b == [] {
      assert a + b == a;
    } else {
      var n := |b| - 1;
      assert (a + b)[..|a + b| - 1] == a + b[..n];
      TotalLengthIsTheSum(a, b[..n]);
    }
  }

  /**
   The sum of the raw sizes, without ever leaving the int range: exact when it fits, an error
   exactly when the true sum does not.  None is the overflow error.
   */
  method TotalByteLength(records: seq<Bytes>, maxInt: nat) returns (r: Option<nat>)
    requires forall i :: 0 <= i < |records| ==> |records[i]| <= maxInt
    ensures r == if TotalLength(records) <= maxInt then Some(TotalLength(records)) else None
  {
    var total := 0;
    for i := 0 to |records|
      invariant 0 <= total <= maxInt
      invariant total == TotalLength(records[..i])
    {
      assert records[..i + 1][..i] == records[..i];
      if |records[i]| > maxInt - total {
        TotalLengthGrows(records, i + 1);
        return None;
      }
      total := total + |records[i]|;
    }
    assert records[..|records|] == records;
    r := Some(total);
  }

  datatype Limits = Limits(maxBatchRecords: int, maxBufferedBytes: int)

  /** validateJSONBatch; non-positive limits stand for the defaults */
  predicate WithinLimits(l: Limits, recordCount: nat, rawBytes: nat)
  {
    && recordCount <= (if l.maxBatchRecords <= 0 then DEFAULT_MAX_BATCH_RECORDS else l.maxBatchRecords)
    && rawBytes <= (if l.maxBufferedBytes <= 0 then DEFAULT_MAX_BUFFERED_BYTES else l.maxBufferedBytes)
  }

  // ---------------------------------------------------------------- one batch

  /** A context that is cancelled, if at all, before the `at`-th look at it; once cancelled it stays so. */
  datatype Context = Never | CancelledAt(at: nat)

  predicate Cancelled(ctx: Context, look: int)
  {
    ctx.CancelledAt? && look >= ctx.at
  }

  datatype BatchResult = Converted(out: seq<Bytes>) | ContextError(at: nat) | RecordError(at: nat)

  /** Record `i` gets through: the context is alive when it is looked at and the record converts. */
  predicate Passes(conv: Converter, records: seq<Bytes>, ctx: Context, i: int)
    requires 0 <= i < |records|
  {
    !Cancelled(ctx, i) && conv(records[i]).Some?
  }

  /** `out` is the encodings of all of `records`, in order. */
  ghost predicate AllEncoded(conv: Converter, records: seq<Bytes>, out: seq<Bytes>)
  {
    |out| == |records| && forall i :: 0 <= i < |records| ==> conv(records[i]) == Some(out[i])
  }

  /** encodeJSONBatchContext: everything converted, or the first obstacle and nothing. */
  method EncodeBatch(conv: Converter, records: seq<Bytes>, ctx: Context) returns (r: BatchResult)
    ensures r.Converted? <==> forall i :: 0 <= i < |records| ==> Passes(conv, records, ctx, i)
    ensures r.Converted? ==> AllEncoded(conv, records, r.out)
    ensures !r.Converted? ==> r.at < |records| && forall i :: 0 <= i < r.at ==> Passes(conv, records, ctx, i)
    ensures r.ContextError? ==> Cancelled(ctx, r.at)
    ensures r.RecordError? ==> !Cancelled(ctx, r.at) && conv(records[r.at]).None?
  {
    var out: seq<Bytes> := [];
    for i := 0 to |records|
      invariant |out| == i
      invariant forall j :: 0 <= j < i ==> Passes(conv, records, ctx, j)
      invariant forall j :: 0 <= j < i ==> conv(records[j]) == Some(out[j])
    {
      if Cancelled(ctx, i) {
        assert !Passes(conv, records, ctx, i);
        return ContextError(i);
      }
      var encoded := conv(records[i]);
      if encoded.None? {
        assert !Passes(conv, records, ctx, i);
        return RecordError(i);
      }
      out := out + [encoded.value];
    }
    r := Converted(out);
  }

  datatype Refusal = TooLarge | Unavailable | GateCancelled | ContextDone(at: nat) | BadRecord(at: nat)

  /** The first record, from `i` on, that does not get through; all of them do when it is past the end. */
  function FirstObstacle(conv: Converter, records: seq<Bytes>, ctx: Context, i: nat): (o: nat)
    requires i <= |records|
    ensures i <= o <= |records|
    ensures forall j :: i <= j < o ==> Passes(conv, records, ctx, j)
    ensures o < |records| ==> !Passes(conv, records, ctx, o)
    decreases |records| - i
  {
    if i == |records| || !Passes(conv, records, ctx, i) then i else FirstObstacle(conv, records, ctx, i + 1)
  }

  /** What a batch is refused for, if anything: sizes before the gate, the gate before conversion, the first obstacle in it. */
  function RefusalOf(conv: Option<Converter>, limits: Limits, maxInt: nat, records: seq<Bytes>, ctx: Context, acquired: bool): Option<Refusal>
  {
    if TotalLength(records) > maxInt || !WithinLimits(limits, |records|, TotalLength(records)) then Some(TooLarge)
    else if records == [] then None
    else if conv.None? then Some(Unavailable)
    else if !acquired then Some(GateCancelled)
    else
      var o := FirstObstacle(conv.value, records, ctx, 0);
      if o == |records| then None
      else if Cancelled(ctx, o) then Some(ContextDone(o))
      else Some(BadRecord(o))
  }

  /**
   IngestJSONRecordsOffsetContext on a proto stream, up to the core.  `core` is the batch the
   core's IngestBatch is called with, None when it is not called.  `acquired` is how the select
   between the gate and the context ends.
   */
  method IngestRecords(conv: Option<Converter>, limits: Limits, maxInt: nat, records: seq<Bytes>, ctx: Context, acquired: bool)
    returns (core: Option<seq<Bytes>>, refusal: Option<Refusal>)
    requires forall i :: 0 <= i < |records| ==> |records[i]| <= maxInt
    // all or nothing, whichever record fails and whenever the context is cancelled
    ensures core.Some? ==> conv.Some? && AllEncoded(conv.value, records, core.value)
    ensures core.Some? <==>
            && records != [] && conv.Some? && acquired
            && TotalLength(records) <= maxInt && WithinLimits(limits, |records|, TotalLength(records))
            && forall i :: 0 <= i < |records| ==> Passes(conv.value, records, ctx, i)
    ensures refusal == RefusalOf(conv, limits, maxInt, records, ctx, acquired)
    // each refusal by itself: no more records, bytes or sum than the limits, 100,000 and 64 MiB unless given, and an int
    ensures refusal == Some(TooLarge) <==>
            || TotalLength(records) > maxInt
            || |records| > (if limits.maxBatchRecords > 0 then limits.maxBatchRecords else 100_000)
            || TotalLength(records) > (if limits.maxBufferedBytes > 0 then limits.maxBufferedBytes else 67_108_864)
    ensures refusal == Some(Unavailable) <==> refusal != Some(TooLarge) && records != [] && conv.None?
    ensures refusal == Some(GateCancelled) <==>
            refusal != Some(TooLarge) && records != [] && conv.Some? && !acquired
    ensures refusal.Some? && (refusal.value.ContextDone? || refusal.value.BadRecord?) ==>
            && conv.Some? && acquired && refusal.value.at < |records|
            && (forall i :: 0 <= i < refusal.value.at ==> Passes(conv.value, records, ctx, i))
            && (refusal.value.ContextDone? <==> Cancelled(ctx, refusal.value.at))
            && (refusal.value.BadRecord? ==> conv.value(records[refusal.value.at]).None?)
    ensures refusal.None? <==> core.Some? || (records == [] && WithinLimits(limits, 0, 0))
  {
    core, refusal := None, None;
    var total := TotalByteLength(records, maxInt);
    if total.None? || !WithinLimits(limits, |records|, total.value) {
      return None, Some(TooLarge);
    }
    if |records| == 0 {
      return;
    }
    if conv.None? {
      return None, Some(Unavailable);
    }
    if !acquired {
      return None, Some(GateCancelled);
    }
    var batch := EncodeBatch(conv.value, records, ctx);
    assert !batch.Converted? ==> !Passes(conv.value, records, ctx, batch.at);
    if batch.ContextError? {
      return None, Some(ContextDone(batch.at));
    }
    if batch.RecordError? {
      return None, Some(BadRecord(batch.at));
    }
    core := Some(batch.out);
  }

  // ---------------------------------------------------------------- the gate, under concurrency

  type Gid = nat

  /** Where one ingest call is.  `done` are the encodings so far of its `records`. */
  datatype Pc =
    | Acquiring(records: seq<Bytes>)                  // select on the gate and the context
    | Encoding(records: seq<Bytes>, done: seq<Bytes>) // gate held
    | Encoded(records: seq<Bytes>, out: seq<Bytes>)   // gate held, about to call the core
    | Releasing                                       // gate held, the deferred receive
    | Done

  /** One payload that was converted, and for whom. */
  datatype Entry = Entry(g: Gid, records: seq<Bytes>, out: seq<Bytes>)

  /**
   `tokens` is how full the one-slot channel is.  History: who put the token in, the payloads
   in the order they finished converting, and in the order the core was called with them.
   */
  datatype State = State(
    tokens: nat, calls: map<Gid, Pc>, cancelled: set<Gid>,
    holder: Option<Gid>, converted: seq<Entry>, ingested: seq<Entry>)

  datatype Action = Call(g: Gid, records: seq<Bytes>) | Cancel(g: Gid) | Acquire(g: Gid) | GiveUp(g: Gid) | Go(g: Gid)

  predicate Holds(pc: Pc)
  {
    pc.Encoding? || pc.Encoded? || pc.Releasing?
  }

  function At(s: State, g: Gid, pc: Pc): State
  {
    s.(calls := s.calls[g := pc])
  }

  function Step(conv: Converter, s: State, a: Action): (r: Option<State>)
  {
    if a.Call? then (if a.g in s.calls || a.records == [] then None else Some(At(s, a.g, Acquiring(a.records))))
    else if a.g !in s.calls then None
    else if a.Cancel? then Some(s.(cancelled := s.cancelled + {a.g}))
    else
      match s.calls[a.g]
      case Acquiring(records) =>
        if a.Acquire? && s.tokens < 1 then
          Some(At(s, a.g, Encoding(records, [])).(tokens := s.tokens + 1, holder := Some(a.g)))
        else if a.GiveUp? && a.g in s.cancelled then Some(At(s, a.g, Done))
        else None
      case Encoding(records, done) =>
        if !a.Go? then None
        else if |done| >= |records| then
          Some(At(s, a.g, Encoded(records, done)).(converted := s.converted + [Entry(a.g, records, done)]))
        else if a.g in s.cancelled || conv(records[|done|]).None? then Some(At(s, a.g, Releasing))
        else Some(At(s, a.g, Encoding(records, done + [conv(records[|done|]).value])))
      case Encoded(records, out) =>
        if !a.Go? then None
        else Some(At(s, a.g, Releasing).(ingested := s.ingested + [Entry(a.g, records, out)]))
      case Releasing =>
        if !a.Go? || s.tokens == 0 then None // a receive from the empty channel would block
        else Some(At(s, a.g, Done).(tokens := s.tokens - 1, holder := None))
      case Done => None
  }

  function Init(): State
  {
    State(0, map[], {}, None, [], [])
  }

  /** The token in the gate is the one holder's. */
  ghost predicate GateInv(s: State)
  {
    && s.tokens == (if s.holder.Some? then 1 else 0)
    && (forall g :: g in s.calls && Holds(s.calls[g]) ==> s.holder == Some(g))
    && (s.holder.Some? ==> s.holder.value in s.calls && Holds(s.calls[s.holder.value]))
  }

  /** What was converted was handed to the core in the same order, but for the holder's own payload. */
  ghost predicate OrderInv(s: State)
    requires GateInv(s)
  {
    if s.holder.Some? && s.calls[s.holder.value].Encoded? then
      s.converted == s.ingested + [Entry(s.holder.value, s.calls[s.holder.value].records, s.calls[s.holder.value].out)]
    else s.converted == s.ingested
  }

  ghost predicate PayloadInv(conv: Converter, s: State)
  {
    && (forall g :: g in s.calls && s.calls[g].Encoding? ==>
          |s.calls[g].done| <= |s.calls[g].records|
          && forall i :: 0 <= i < |s.calls[g].done| ==> conv(s.calls[g].records[i]) == Some(s.calls[g].done[i]))
    && (forall g :: g in s.calls && s.calls[g].Encoded? ==> AllEncoded(conv, s.calls[g].records, s.calls[g].out))
    && (forall i :: 0 <= i < |s.ingested| ==> AllEncoded(conv, s.ingested[i].records, s.ingested[i].out))
  }

  lemma StepKeepsGate(conv: Converter, s: State, a: Action)
    requires GateInv(s) && OrderInv(s) && Step(conv, s, a).Some?
    ensures GateInv(Step(conv, s, a).value) && OrderInv(Step(conv, s, a).value)
  {
  }

  lemma StepKeepsPayload(conv: Converter, s: State, a: Action)
    requires PayloadInv(conv, s) && Step(conv, s, a).Some?
    ensures PayloadInv(conv, Step(conv, s, a).value)
  {
  }

  function Exec(conv: Converter, s: State, acts: seq<Action>): (r: Option<State>)
    decreases |acts|
  {
    if acts == [] then Some(s)
    else (match Step(conv, s, acts[0]) case None => None case Some(t) => Exec(conv, t, acts[1..]))
  }

  lemma {:induction false} RunKeepsInv(conv: Converter, s: State, acts: seq<Action>)
    requires GateInv(s) && OrderInv(s) && PayloadInv(conv, s) && Exec(conv, s, acts).Some?
    ensures var t := Exec(conv, s, acts).value; GateInv(t) && OrderInv(t) && PayloadInv(conv, t)
    decreases |acts|
  {
    if acts != [] {
      StepKeepsGate(conv, s, acts[0]);
      StepKeepsPayload(conv, s, acts[0]);
      RunKeepsInv(conv, Step(conv, s, acts[0]).value, acts[1..]);
    }
  }

  function Holders(s: State): set<Gid>
  {
    set g | g in s.calls && Holds(s.calls[g])
  }

  /** The gate's tokens are its holders, never more than one, and giving the token back never blocks. */
  lemma GateIsExclusive(conv: Converter, acts: seq<Action>, g: Gid)
    requires Exec(conv, Init(), acts).Some?
    ensures var s := Exec(conv, Init(), acts).value;
            && s.tokens == |Holders(s)| <= 1
            && (g in s.calls && s.calls[g].Releasing? ==> Step(conv, s, Go(g)).Some?)
  {
    RunKeepsInv(conv, Init(), acts);
    var s := Exec(conv, Init(), acts).value;
    if s.holder.Some? {
      assert Holders(s) == {s.holder.value};
    } else {
      assert Holders(s) == {};
    }
  }

  /**
   In every run payloads reach the core in the order they were converted, at most one is
   converted and not yet handed over, and each that reaches it is the complete in-order
   encoding of one call's records.
   */
  lemma ConversionOrderIsIngestOrder(conv: Converter, acts: seq<Action>)
    requires Exec(conv, Init(), acts).Some?
    ensures var s := Exec(conv, Init(), acts).value;
            && s.ingested <= s.converted && |s.converted| <= |s.ingested| + 1
            && (Holders(s) == {} ==> s.converted == s.ingested)
            && forall i :: 0 <= i < |s.ingested| ==> AllEncoded(conv, s.ingested[i].records, s.ingested[i].out)
  {
    RunKeepsInv(conv, Init(), acts);
    var s := Exec(conv, Init(), acts).value;
    if s.holder.Some? {
      assert s.holder.value in Holders(s);
    }
  }

  // ---------------------------------------------------------------- every call gets its due

  /** The records each call was made with, going on from `given`; about the run alone. */
  function Given(given: map<Gid, seq<Bytes>>, acts: seq<Action>): map<Gid, seq<Bytes>>
    decreases |acts|
  {
    if acts == [] then given
    else if acts[0].Call? then Given(given[acts[0].g := acts[0].records], acts[1..])
    else Given(given, acts[1..])
  }

  predicate Ingested(s: State, g: Gid)
  {
    exists i :: 0 <= i < |s.ingested| && s.ingested[i].g == g
  }

  ghost predicate Converts(conv: Converter, records: seq<Bytes>)
  {
    forall i :: 0 <= i < |records| ==> conv(records[i]).Some?
  }

  /** Past the call of the core, if there was one. */
  predicate IsPast(pc: Pc)
  {
    pc.Releasing? || pc.Done?
  }

  /** Each call works on the records it was given. */
  ghost predicate CallsFit(s: State, given: map<Gid, seq<Bytes>>)
  {
    && s.calls.Keys == given.Keys
    && forall g :: g in s.calls && !IsPast(s.calls[g]) ==> s.calls[g].records == given[g]
  }

  /** Each payload is that of a call past it, with that call's records, and no call has two. */
  ghost predicate EntriesFit(s: State, given: map<Gid, seq<Bytes>>)
  {
    && (forall i :: 0 <= i < |s.ingested| ==>
          var e := s.ingested[i]; e.g in s.calls && IsPast(s.calls[e.g]) && e.g in given && e.records == given[e.g])
    && forall i, j :: 0 <= i < j < |s.ingested| ==> s.ingested[i].g != s.ingested[j].g
  }

  /** Who is past without a payload was cancelled or met a record that does not convert. */
  ghost predicate PastFits(conv: Converter, s: State, given: map<Gid, seq<Bytes>>)
    requires CallsFit(s, given)
  {
    forall g :: g in s.calls && IsPast(s.calls[g]) ==>
      Ingested(s, g) || g in s.cancelled || !Converts(conv, given[g])
  }

  ghost predicate Ledger(conv: Converter, s: State, given: map<Gid, seq<Bytes>>)
  {
    CallsFit(s, given) && EntriesFit(s, given) && PastFits(conv, s, given)
  }

  lemma IngestedStays(s: State, t: State, g: Gid)
    requires Ingested(s, g) && s.ingested <= t.ingested
    ensures Ingested(t, g)
  {
    var i :| 0 <= i < |s.ingested| && s.ingested[i].g == g;
    assert t.ingested[i].g == g;
  }

  lemma StepKeepsEntries(conv: Converter, s: State, a: Action, t: State, given: map<Gid, seq<Bytes>>)
    requires Ledger(conv, s, given) && Step(conv, s, a) == Some(t)
    ensures var given' := Given(given, [a]); CallsFit(t, given') && EntriesFit(t, given')
  {
    assert [a][1..] == [];
  }

  lemma StepKeepsPast(conv: Converter, s: State, a: Action, t: State, given: map<Gid, seq<Bytes>>)
    requires Ledger(conv, s, given) && Step(conv, s, a) == Some(t)
    ensures var given' := Given(given, [a]); CallsFit(t, given') && PastFits(conv, t, given')
  {
    assert [a][1..] == [];
    StepKeepsEntries(conv, s, a, t, given);
    forall g | g in t.calls && IsPast(t.calls[g])
      ensures Ingested(t, g) || g in t.cancelled || !Converts(conv, Given(given, [a])[g])
    {
      if g in s.calls && IsPast(s.calls[g]) {
        if Ingested(s, g) { IngestedStays(s, t, g); }
      } else if s.calls[g].Encoded? {
        assert t.ingested[|s.ingested|].g == g;
      }
    }
  }

  lemma {:induction false} RunKeepsLedger(conv: Converter, s: State, acts: seq<Action>, t: State,
                                          given: map<Gid, seq<Bytes>>)
    requires Ledger(conv, s, given) && Exec(conv, s, acts) == Some(t)
    ensures Ledger(conv, t, Given(given, acts))
    decreases |acts|
  {
    if acts != [] {
      var a, u := acts[0], Step(conv, s, acts[0]).value;
      StepKeepsEntries(conv, s, a, u, given);
      StepKeepsPast(conv, s, a, u, given);
      assert [a][1..] == [];
      RunKeepsLedger(conv, u, acts[1..], t, Given(given, [a]));
    }
  }

  lemma {:induction false} CancelledByCaller(conv: Converter, s: State, acts: seq<Action>, t: State, g: Gid)
    requires Exec(conv, s, acts) == Some(t) && g in t.cancelled && g !in s.cancelled
    ensures Cancel(g) in acts
    decreases |acts|
  {
    if acts[0] != Cancel(g) {
      CancelledByCaller(conv, Step(conv, s, acts[0]).value, acts[1..], t, g);
    }
  }

  /**
   In every run the core gets each call's batch at most once, and converted from the records the
   call was made with; a call that has returned got its batch to the core unless its context was
   cancelled or one of its records does not convert.
   */
  lemma EveryCallGetsItsDue(conv: Converter, acts: seq<Action>, g: Gid)
    requires Exec(conv, Init(), acts).Some? && g in Exec(conv, Init(), acts).value.calls
    ensures var s, given := Exec(conv, Init(), acts).value, Given(map[], acts);
      && g in given
      && (forall i :: 0 <= i < |s.ingested| && s.ingested[i].g == g ==> AllEncoded(conv, given[g], s.ingested[i].out))
      && (forall i, j :: 0 <= i < j < |s.ingested| ==> s.ingested[i].g != s.ingested[j].g)
      && (s.calls[g].Done? && !Ingested(s, g) ==> Cancel(g) in acts || !Converts(conv, given[g]))
      && (Ingested(s, g) ==> Converts(conv, given[g]))
  {
    var s := Exec(conv, Init(), acts).value;
    RunKeepsLedger(conv, Init(), acts, s, map[]);
    RunKeepsInv(conv, Init(), acts);
    if g in s.cancelled { CancelledByCaller(conv, Init(), acts, s, g); }
  }

  /** The gate never deadlocks: while some call has not returned, some call can go on. */
  lemma NobodyIsStuck(conv: Converter, acts: seq<Action>, g: Gid)
    requires Exec(conv, Init(), acts).Some?
    requires var s := Exec(conv, Init(), acts).value; g in s.calls && !s.calls[g].Done?
    ensures var s := Exec(conv, Init(), acts).value;
      exists h :: h in s.calls && !s.calls[h].Done? && (Step(conv, s, Acquire(h)).Some? || Step(conv, s, Go(h)).Some?)
  {
    RunKeepsInv(conv, Init(), acts);
    var s := Exec(conv, Init(), acts).value;
    if s.holder.Some? {
      assert Step(conv, s, Go(s.holder.value)).Some?;
    } else {
      assert Step(conv, s, Acquire(g)).Some?;
    }
  }
}
