/**
 The Arrow streams of the Rust core: batches of rows go out in order, the server acknowledges by
 number of rows, and a reconnect replays each batch cut to its unacknowledged rows.

 Row numbers count from the start of the current connection.  A call to ingest, the
 acknowledgment processor, the supervisor and close interleave; what they do under one lock is
 one step; a call that holds the ingest lock numbers its batch, queues it and hands it over in
 three (`call`).  The server may acknowledge any number, connections break and attempts are given
 up at any moment, and the future of a call may be dropped between its steps.
 */
module ArrowReplay {
  import opened Common

  type Row = Bytes

  /** A batch not fully acknowledged, with its range of row numbers on this connection. */
  datatype Pending = Pending(rows: seq<Row>, offset: nat, start: nat, end: nat)

  /** What the supervisor is at; Replaying holds what is still to be sent again. */
  datatype Phase =
    | Live                                  // acknowledgments are processed
    | Recovering                            // paused and detached, no connection
    | Ready(acked: nat)                     // reconnected, the watermark read
    | Replaying(todo: seq<seq<Row>>)        // ranges rebuilt, the ingest lock held
    | Torn                                  // close has stopped the supervisor
    | Closed

  /** How far the call that holds the ingest lock has come. */
  datatype Call =
    | NoCall
    | Numbered(rows: seq<Row>, offset: nat, start: nat) // has its offset and row numbers
    | Queued                                            // is the last of the pending batches

  /**
   `closing` is set for good once close begins to tear down.  `open` says whether the channel of
   the current connection still takes batches.  As history:
   the rows handed to it (`wire`), the rows acknowledged on earlier ones (`settled`), and every
   batch taken with its offset.
   */
  datatype State = State(
    recovery: bool, pending: seq<Pending>, failed: seq<seq<Row>>,
    numbered: nat, submitted: nat, acked: nat, nextOffset: nat, published: Option<nat>,
    paused: bool, attached: bool, closing: bool, call: Call, phase: Phase,
    open: bool, wire: seq<Row>, settled: seq<Row>, taken: seq<seq<Row>>, offsets: seq<nat>)

  // ---------------------------------------------------------------- batches

  /** The rows of batches, one after the other. */
  function Flat(bs: seq<seq<Row>>): seq<Row>
  {
    if bs == [] then [] else bs[0] + Flat(bs[1..])
  }

  lemma {:induction false} FlatConcat(a: seq<seq<Row>>, b: seq<seq<Row>>)
    ensures Flat(a + b) == Flat(a) + Flat(b)
  {
    if a == [] {
      assert a + b == b;
    } else {
      assert (a + b)[1..] == a[1..] + b;
      FlatConcat(a[1..], b);
    }
  }

  lemma FlatCons(a: seq<Row>, bs: seq<seq<Row>>)
    ensures Flat([a] + bs) == a + Flat(bs)
  {
    assert ([a] + bs)[1..] == bs;
  }

  lemma FlatSnoc(a: seq<seq<Row>>, b: seq<Row>)
    ensures Flat(a + [b]) == Flat(a) + b
  {
    FlatConcat(a, [b]);
    assert [b][1..] == [];
  }

  function Contents(ps: seq<Pending>): (bs: seq<seq<Row>>)
    ensures |bs| == |ps| && forall k :: 0 <= k < |ps| ==> bs[k] == ps[k].rows
  {
    if ps == [] then [] else [ps[0].rows] + Contents(ps[1..])
  }

  /** unacknowledged_suffix */
  function Suffix(p: Pending, acked: nat): (r: Option<seq<Row>>)
  {
    if p.start >= acked then Some(p.rows)
    else
      var already := if acked - p.start < |p.rows| then acked - p.start else |p.rows|;
      if |p.rows| - already == 0 then None else Some(p.rows[already..])
  }

  /** What move_pending_to_failed appends. */
  function Suffixes(ps: seq<Pending>, acked: nat): seq<seq<Row>>
  {
    if ps == [] then []
    else match Suffix(ps[0], acked)
      case None => Suffixes(ps[1..], acked)
      case Some(rows) => [rows] + Suffixes(ps[1..], acked)
  }

  /** rebuild_pending_for_replay: renumbered from `from`. */
  function Rebuilt(ps: seq<Pending>, acked: nat, from: nat): seq<Pending>
  {
    if ps == [] then []
    else match Suffix(ps[0], acked)
      case None => Rebuilt(ps[1..], acked, from)
      case Some(rows) =>
        [Pending(rows, ps[0].offset, from, from + |rows|)] + Rebuilt(ps[1..], acked, from + |rows|)
  }

  method RebuildPending(pending: seq<Pending>, acked: nat)
    returns (rebuilt: seq<Pending>, replay: seq<seq<Row>>, cumulative: nat)
    ensures rebuilt == Rebuilt(pending, acked, 0)
    ensures replay == Contents(rebuilt) == Suffixes(pending, acked)
    ensures cumulative == |Flat(replay)|
  {
    rebuilt, replay, cumulative := [], [], 0;
    for i := 0 to |pending|
      invariant rebuilt + Rebuilt(pending[i..], acked, cumulative) == Rebuilt(pending, acked, 0)
      invariant replay == Contents(rebuilt) && cumulative == |Flat(replay)|
      invariant replay + Suffixes(pending[i..], acked) == Suffixes(pending, acked)
    {
      assert pending[i..][1..] == pending[i + 1..];
      match Suffix(pending[i], acked)
      case None =>
      case Some(rows) =>
        var p := Pending(rows, pending[i].offset, cumulative, cumulative + |rows|);
        FlatSnoc(replay, rows);
        assert (rebuilt + [p]) + Rebuilt(pending[i + 1..], acked, p.end)
            == rebuilt + Rebuilt(pending[i..], acked, cumulative);
        rebuilt, replay, cumulative := rebuilt + [p], replay + [rows], p.end;
    }
  }

  /** What the retain in AckProgress::apply keeps. */
  function Kept(ps: seq<Pending>, acked: nat): seq<Pending>
  {
    if ps == [] then []
    else if acked >= ps[0].end then Kept(ps[1..], acked)
    else [ps[0]] + Kept(ps[1..], acked)
  }

  function Higher(a: Option<nat>, b: Option<nat>): Option<nat>
  {
    if a.None? then b else if b.None? then a else if a.value >= b.value then a else b
  }

  /** The highest offset of what it drops. */
  function Top(ps: seq<Pending>, acked: nat): Option<nat>
  {
    if ps == [] then None
    else if acked >= ps[0].end then Higher(Some(ps[0].offset), Top(ps[1..], acked))
    else Top(ps[1..], acked)
  }

  method RetainUnacked(pending: seq<Pending>, acked: nat) returns (kept: seq<Pending>, top: Option<nat>)
    ensures kept == Kept(pending, acked) && top == Top(pending, acked)
  {
    kept, top := [], None;
    for i := 0 to |pending|
      invariant kept + Kept(pending[i..], acked) == Kept(pending, acked)
      invariant Higher(top, Top(pending[i..], acked)) == Top(pending, acked)
    {
      assert pending[i..][1..] == pending[i + 1..];
      if acked >= pending[i].end {
        top := Higher(top, Some(pending[i].offset));
      } else {
        kept := kept + [pending[i]];
      }
    }
  }

  // ---------------------------------------------------------------- steps

  datatype Action =
    | Number(rows: seq<Row>) | Queue | Send | SendFails | FindsNoSender | DropCall
    | Ack(n: nat) | Pause | HalfClose | Break
    | Recover | Connect | Rebuild | ReplaySend | AbandonAttempt | Commit
    | StartClose | Abort | DetachSender | Finalize | MoveToFailed

  function Init(recovery: bool): State
  {
    State(recovery, [], [], 0, 0, 0, 0, None, false, true, false, NoCall, Live, true, [], [], [], [])
  }

  function Last(ps: seq<Pending>): Pending
    requires ps != []
  {
    ps[|ps| - 1]
  }

  /** The batch a call has numbered. */
  function Batch(c: Call): Pending
    requires c.Numbered?
  {
    Pending(c.rows, c.offset, c.start, c.start + |c.rows|)
  }

  /** The push under the lock of the pending list, and the pause check. */
  function QueueStep(s: State): State
    requires s.call.Numbered?
  {
    s.(pending := s.pending + [Batch(s.call)], call := if s.paused then NoCall else Queued,
       taken := s.taken + [s.call.rows], offsets := s.offsets + [s.call.offset])
  }

  /** A failed send: recovery keeps the batch for replay, without it the batch is taken out again. */
  function SendFailsStep(s: State): State
    requires s.pending != [] && s.taken != [] && s.offsets != []
  {
    if s.recovery then s.(call := NoCall)
    else s.(call := NoCall, pending := s.pending[..|s.pending| - 1],
            taken := s.taken[..|s.taken| - 1], offsets := s.offsets[..|s.offsets| - 1])
  }

  /** AckProgress::apply; an acknowledgment of more than was submitted is an error and changes nothing. */
  function AckStep(s: State, n: nat): State
  {
    if n > s.submitted then s
    else
      var acked := if s.acked > n then s.acked else n;
      var top := Top(s.pending, acked);
      s.(acked := acked, pending := Kept(s.pending, acked), published := if top.Some? then top else s.published)
  }

  /** The rows acknowledged, over all connections. */
  function Acknowledged(s: State): seq<Row>
  {
    s.settled + (if s.acked <= |s.wire| then s.wire[..s.acked] else s.wire)
  }

  /** replay_pending_batches before its first send. */
  function RebuildStep(s: State, acked: nat): State
  {
    var ps := Rebuilt(s.pending, acked, 0);
    s.(pending := ps, numbered := |Flat(Contents(ps))|, submitted := 0, acked := 0,
       phase := Replaying(Contents(ps)), open := true, settled := Acknowledged(s), wire := [])
  }

  /** move_pending_to_failed */
  function Drain(s: State): State
  {
    s.(failed := s.failed + Suffixes(s.pending, s.acked), pending := [])
  }

  function Step(s: State, a: Action): Option<State>
  {
    match a
    case Number(rows) =>
      if rows != [] && s.call.NoCall? && !s.closing && (s.phase.Live? || s.phase.Recovering? || s.phase.Ready?)
      then Some(s.(numbered := s.numbered + |rows|, nextOffset := s.nextOffset + 1,
                   call := Numbered(rows, s.nextOffset, s.numbered)))
      else None
    case Queue => if s.call.Numbered? then Some(QueueStep(s)) else None
    case Send =>
      if s.call.Queued? && s.attached && s.open && s.pending != []
      then Some(s.(wire := s.wire + Last(s.pending).rows, submitted := Last(s.pending).end, call := NoCall))
      else None
    case SendFails =>
      if s.call.Queued? && s.attached && !s.open && s.pending != [] && s.taken != [] && s.offsets != []
      then Some(SendFailsStep(s)) else None
    case FindsNoSender => if s.call.Queued? && !s.attached then Some(s.(call := NoCall)) else None
    case DropCall => if s.call.NoCall? then None else Some(s.(call := NoCall))
    case Ack(n) => if s.phase.Live? && n > 0 then Some(AckStep(s, n)) else None
    case Pause => if s.phase.Live? && s.call.NoCall? then Some(s.(paused := true)) else None
    case HalfClose =>
      if s.phase.Live? && s.call.NoCall? then Some(s.(paused := true, attached := false)) else None
    case Break => Some(s.(open := false))
    case Recover =>
      if s.phase.Live? && s.recovery && s.call.NoCall?
      then Some(s.(paused := true, attached := false, phase := Recovering)) else None
    case Connect => if s.phase.Recovering? then Some(s.(phase := Ready(s.acked))) else None
    case Rebuild => if s.phase.Ready? && s.call.NoCall? then Some(RebuildStep(s, s.phase.acked)) else None
    case ReplaySend =>
      if s.phase.Replaying? && s.phase.todo != [] && s.open
      then Some(s.(phase := Replaying(s.phase.todo[1..]), wire := s.wire + s.phase.todo[0],
                   submitted := s.submitted + |s.phase.todo[0]|))
      else None
    case AbandonAttempt =>
      if s.phase.Ready? || s.phase.Replaying? then Some(s.(phase := Recovering, open := false)) else None
    case Commit =>
      if s.phase == Replaying([]) then Some(s.(phase := Live, attached := true, paused := false)) else None
    case StartClose => if s.phase.Closed? then None else Some(s.(closing := true))
    case Abort => if s.closing && !s.phase.Torn? && !s.phase.Closed? then Some(s.(phase := Torn)) else None
    case DetachSender => if s.phase.Torn? then Some(s.(attached := false)) else None
    case Finalize =>
      if s.call.NoCall? && (s.phase.Live? || s.phase.Recovering? || s.phase.Torn?)
      then Some(s.(phase := Closed)) else None
    case MoveToFailed => if s.phase.Closed? then Some(Drain(s)) else None
  }

  function Run(s: State, run: seq<Action>): Option<State>
    decreases |run|
  {
    if run == [] then Some(s)
    else match Step(s, run[0])
      case None => None
      case Some(s') => Run(s', run[1..])
  }

  /** A batch numbered from now on can be handed over on this connection. */
  predicate TakesSends(s: State)
  {
    s.phase.Live? && s.open && !s.paused && !s.closing
  }

  /** A run in which no call is dropped between its steps while the connection takes further batches. */
  predicate Careful(s: State, run: seq<Action>)
    decreases |run|
  {
    run == [] ||
    (&& (run[0].DropCall? ==> !TakesSends(s))
     && (Step(s, run[0]).Some? ==> Careful(Step(s, run[0]).value, run[1..])))
  }

  // ---------------------------------------------------------------- the invariant

  /** Ranges at or beyond n, each as long as its rows. */
  ghost predicate Beyond(ps: seq<Pending>, n: nat)
  {
    forall p :: p in ps ==> n <= p.start && p.end == p.start + |p.rows| && p.rows != []
  }

  /** From row `from` on, the batches handed over are the wire without a gap, and the others lie beyond it. */
  ghost predicate Fits(ps: seq<Pending>, from: nat, wire: seq<Row>)
  {
    if ps == [] || |wire| <= ps[0].start then from == |wire| && Beyond(ps, |wire|)
    else
      && ps[0].start == from < ps[0].end <= |wire| && ps[0].rows == wire[from..ps[0].end]
      && Fits(ps[1..], ps[0].end, wire)
  }

  /** Where the first pending batch starts, if it was handed over. */
  function Front(ps: seq<Pending>, wire: seq<Row>): nat
  {
    if ps == [] || |wire| <= ps[0].start then |wire| else ps[0].start
  }

  /** The pending batches not handed over. */
  function Unsent(ps: seq<Pending>, sent: nat): seq<Pending>
  {
    if ps == [] || sent <= ps[0].start then ps else Unsent(ps[1..], sent)
  }

  ghost predicate Chain(ps: seq<Pending>, from: nat, to: nat)
  {
    if ps == [] then from == to
    else ps[0].start == from && ps[0].rows != [] && ps[0].end == from + |ps[0].rows| && Chain(ps[1..], ps[0].end, to)
  }

  /** The watermark lies inside the first pending batch or before it. */
  ghost predicate Sound(ps: seq<Pending>, acked: nat, wire: seq<Row>)
  {
    && Fits(ps, Front(ps, wire), wire)
    && Front(ps, wire) <= acked <= |wire|
    && (ps != [] ==> acked < ps[0].end)
  }

  /** What is left of the taken batches: the last ones, of which the first may have been cut. */
  ghost predicate LastOf(left: seq<seq<Row>>, taken: seq<seq<Row>>)
  {
    && |left| <= |taken|
    && (left != [] ==> 0 < |left[0]| <= |taken[|taken| - |left|]|)
    && forall k :: 0 < k < |left| ==> left[k] == taken[|taken| - |left| + k]
  }

  /** Row numbers: what is pending, against what was handed over and what was numbered. */
  ghost predicate Ranges(ps: seq<Pending>, acked: nat, wire: seq<Row>, numbered: nat)
  {
    Sound(ps, acked, wire) && |wire| <= numbered && forall p :: p in ps ==> p.end <= numbered
  }

  /** Rows: everything taken is settled, on the wire, or pending and not handed over. */
  ghost predicate Account(ps: seq<Pending>, wire: seq<Row>, settled: seq<Row>, taken: seq<seq<Row>>)
  {
    Flat(taken) == settled + wire + Flat(Contents(Unsent(ps, |wire|)))
  }

  /** Batches: the pending ones are the last taken, of which the first may have been cut. */
  ghost predicate Covers(ps: seq<Pending>, taken: seq<seq<Row>>)
  {
    && |ps| <= |taken|
    && (ps != [] ==> 0 < |ps[0].rows| <= |taken[|taken| - |ps|]|)
    && forall k :: 0 < k < |ps| ==> ps[k].rows == taken[|taken| - |ps| + k]
  }

  ghost predicate Increasing(offsets: seq<nat>, next: nat)
  {
    && (forall i, j :: 0 <= i < j < |offsets| ==> offsets[i] < offsets[j])
    && (forall i :: 0 <= i < |offsets| ==> offsets[i] < next)
  }

  /** Offsets: the first `done` batches are acknowledged, and the last of these is published. */
  ghost predicate Published(published: Option<nat>, offsets: seq<nat>, done: nat)
  {
    done <= |offsets| && published == if done == 0 then None else Some(offsets[done - 1])
  }

  ghost predicate Named(ps: seq<Pending>, offsets: seq<nat>, done: nat)
  {
    |offsets| == done + |ps| && forall k :: 0 <= k < |ps| ==> ps[k].offset == offsets[done + k]
  }

  ghost predicate Labels(ps: seq<Pending>, offsets: seq<nat>, published: Option<nat>)
  {
    && |ps| <= |offsets| && Named(ps, offsets, |offsets| - |ps|)
    && Published(published, offsets, |offsets| - |ps|)
  }

  /** The call in between has queued the last batch, which is not handed over. */
  ghost predicate Held(ps: seq<Pending>, wire: seq<Row>, numbered: nat)
  {
    ps != [] && |wire| <= Last(ps).start && Last(ps).end == numbered
  }

  /** It is the only one, and next in line. */
  ghost predicate OnlyLast(ps: seq<Pending>, wire: seq<Row>)
  {
    ps != [] && Unsent(ps, |wire|) == [Last(ps)] && Last(ps).start == |wire|
  }

  ghost predicate AllSent(ps: seq<Pending>, wire: seq<Row>, numbered: nat)
  {
    Unsent(ps, |wire|) == [] && numbered == |wire|
  }

  ghost predicate InReplay(ps: seq<Pending>, wire: seq<Row>, numbered: nat, todo: seq<seq<Row>>)
  {
    todo == Contents(Unsent(ps, |wire|)) && Chain(Unsent(ps, |wire|), |wire|, numbered)
  }

  /** Row numbers below this are those of batches queued so far. */
  function Bound(s: State): nat
  {
    if s.call.Numbered? then s.call.start else s.numbered
  }

  /** Likewise for offsets. */
  function NextName(s: State): nat
  {
    if s.call.Numbered? then s.call.offset else s.nextOffset
  }

  ghost predicate CallControl(s: State)
  {
    match s.call
    case NoCall =>
      TakesSends(s) ==> AllSent(s.pending, s.wire, s.numbered)
    case Numbered(rows, offset, start) =>
      && rows != [] && s.numbered == start + |rows| && s.nextOffset == offset + 1
      && !s.phase.Replaying? && (s.attached && s.open && !s.paused ==> AllSent(s.pending, s.wire, start))
    case Queued =>
      && !s.paused && (s.phase.Live? || s.phase.Torn?) && Held(s.pending, s.wire, s.numbered)
      && s.taken != [] && s.taken[|s.taken| - 1] == Last(s.pending).rows
      && (s.attached && s.open ==> OnlyLast(s.pending, s.wire))
  }

  ghost predicate Control(s: State)
  {
    && CallControl(s)
    && (s.phase.Live? && !s.paused ==> s.attached)
    && (s.phase.Recovering? || s.phase.Ready? || s.phase.Replaying? ==> s.paused && !s.attached)
    && (s.phase.Ready? ==> s.phase.acked == s.acked)
    && (s.phase.Replaying? ==> s.call.NoCall? && InReplay(s.pending, s.wire, s.numbered, s.phase.todo))
  }

  /** While nothing has been moved to the failed batches. */
  ghost predicate Records(s: State)
  {
    && s.submitted == |s.wire| && s.failed == []
    && Ranges(s.pending, s.acked, s.wire, Bound(s))
    && Account(s.pending, s.wire, s.settled, s.taken)
    && Covers(s.pending, s.taken) && Labels(s.pending, s.offsets, s.published)
  }

  /** While the stream lives. */
  ghost predicate Running(s: State)
  {
    Records(s) && Control(s)
  }

  /** Everything not acknowledged is among the failed batches. */
  ghost predicate Finished(s: State)
  {
    && s.pending == [] && s.acked <= |s.wire|
    && LastOf(s.failed, s.taken)
    && Flat(s.taken) == Acknowledged(s) + Flat(s.failed)
    && |s.failed| <= |s.offsets| && Published(s.published, s.offsets, |s.offsets| - |s.failed|)
  }

  ghost predicate Inv(s: State)
  {
    && |s.offsets| == |s.taken| && Increasing(s.offsets, NextName(s))
    && if s.phase.Closed? then s.call.NoCall? && (Records(s) || Finished(s)) else Running(s)
  }

  // ---------------------------------------------------------------- the pending list

  lemma {:induction false} EndsAbove(ps: seq<Pending>, from: nat, wire: seq<Row>)
    requires Fits(ps, from, wire)
    ensures from <= |wire|
    ensures forall p :: p in ps ==> from < p.end && p.start < p.end && p.end == p.start + |p.rows|
  {
    if ps != [] && ps[0].start < |wire| {
      EndsAbove(ps[1..], ps[0].end, wire);
      assert forall p :: p in ps ==> p == ps[0] || p in ps[1..];
    }
  }

  /** A watermark splits the list: what is acknowledged comes first. */
  lemma {:induction false} SplitAt(ps: seq<Pending>, from: nat, wire: seq<Row>, acked: nat) returns (d: nat)
    requires Fits(ps, from, wire) && from <= acked <= |wire|
    ensures d <= |ps| && Sound(ps[d..], acked, wire) && Unsent(ps[d..], |wire|) == Unsent(ps, |wire|)
    ensures forall i :: 0 <= i < d ==> ps[i].end <= acked
    ensures forall i :: d <= i < |ps| ==> acked < ps[i].end
  {
    EndsAbove(ps, from, wire);
    if ps != [] && ps[0].start < |wire| {
      EndsAbove(ps[1..], ps[0].end, wire);
      if ps[0].end <= acked {
        d := SplitAt(ps[1..], ps[0].end, wire, acked);
        d := d + 1;
        assert ps[1..][d - 1..] == ps[d..];
        return;
      }
    }
    d := 0;
    assert ps[0..] == ps;
    assert forall i :: 1 <= i < |ps| ==> ps[i] in ps[1..];
  }

  /** Then retain keeps exactly the end of the list, and reports the offset of the last batch it drops. */
  lemma {:induction false} KeptIsRest(ps: seq<Pending>, acked: nat, d: nat)
    requires d <= |ps| && forall i :: 0 <= i < d ==> ps[i].end <= acked
    requires forall i :: d <= i < |ps| ==> acked < ps[i].end
    requires forall i, j :: 0 <= i < j < |ps| ==> ps[i].offset < ps[j].offset
    ensures Kept(ps, acked) == ps[d..]
    ensures Top(ps, acked) == if d == 0 then None else Some(ps[d - 1].offset)
    decreases |ps|
  {
    if ps != [] {
      var rest := ps[1..];
      assert forall i :: 0 <= i < |rest| ==> rest[i] == ps[i + 1];
      KeptIsRest(rest, acked, if d == 0 then 0 else d - 1);
      if d == 0 {
        assert [ps[0]] + rest == ps;
      } else {
        assert rest[d - 1..] == ps[d..];
      }
    }
  }

  /** One suffix for each pending batch, and only the first is cut. */
  lemma SuffixesAreCut(ps: seq<Pending>, acked: nat, wire: seq<Row>)
    requires Sound(ps, acked, wire) && ps != []
    ensures var cut := if |wire| <= ps[0].start then 0 else acked - ps[0].start;
      cut < |ps[0].rows| && Suffixes(ps, acked) == [ps[0].rows[cut..]] + Contents(ps[1..])
  {
    if |wire| <= ps[0].start {
      assert ps[0] in ps;
      AllWhole(ps, acked);
    } else {
      AfterFirst(ps[1..], ps[0].end, wire, acked);
    }
  }

  /** Together they are the rest of the wire and what was not handed over. */
  lemma SuffixesAreTheRest(ps: seq<Pending>, acked: nat, wire: seq<Row>)
    requires Sound(ps, acked, wire)
    ensures Flat(Suffixes(ps, acked)) == wire[acked..] + Flat(Contents(Unsent(ps, |wire|)))
  {
    if ps == [] {
    } else if |wire| <= ps[0].start {
      AllWhole(ps, acked);
    } else {
      SuffixesAreCut(ps, acked, wire);
      FlatCons(ps[0].rows[acked - ps[0].start..], Contents(ps[1..]));
      AfterFirst(ps[1..], ps[0].end, wire, acked);
      CutRest(wire, ps[0].start, ps[0].end, acked, Flat(Contents(Unsent(ps[1..], |wire|))));
    }
  }

  lemma CutRest(wire: seq<Row>, start: nat, end: nat, acked: nat, x: seq<Row>)
    requires start <= acked <= end <= |wire|
    ensures wire[start..end][acked - start..] + (wire[end..] + x) == wire[acked..] + x
  {
    assert wire[start..end][acked - start..] == wire[acked..end];
  }

  lemma {:induction false} AllWhole(ps: seq<Pending>, acked: nat)
    requires forall p :: p in ps ==> acked <= p.start
    ensures Suffixes(ps, acked) == Contents(ps)
  {
    if ps != [] {
      AllWhole(ps[1..], acked);
    }
  }

  lemma {:induction false} AfterFirst(ps: seq<Pending>, from: nat, wire: seq<Row>, acked: nat)
    requires Fits(ps, from, wire) && acked < from
    ensures Suffixes(ps, acked) == Contents(ps)
    ensures Flat(Contents(ps)) == wire[from..] + Flat(Contents(Unsent(ps, |wire|)))
  {
    if ps == [] || |wire| <= ps[0].start {
      AllWhole(ps, acked);
    } else {
      AfterFirst(ps[1..], ps[0].end, wire, acked);
      assert wire[from..ps[0].end] + wire[ps[0].end..] == wire[from..];
    }
  }

  lemma {:induction false} RebuiltIsSuffixes(ps: seq<Pending>, acked: nat, from: nat)
    ensures Contents(Rebuilt(ps, acked, from)) == Suffixes(ps, acked)
  {
    if ps != [] {
      match Suffix(ps[0], acked)
      case None => RebuiltIsSuffixes(ps[1..], acked, from);
      case Some(rows) => RebuiltIsSuffixes(ps[1..], acked, from + |rows|);
    }
  }

  /** The rebuilt list numbers the suffixes from `from`. */
  lemma {:induction false} RebuiltIsChain(ps: seq<Pending>, acked: nat, from: nat)
    requires forall p :: p in ps ==> p.rows != []
    ensures Chain(Rebuilt(ps, acked, from), from, from + |Flat(Suffixes(ps, acked))|)
  {
    if ps != [] {
      match Suffix(ps[0], acked)
      case None => RebuiltIsChain(ps[1..], acked, from);
      case Some(rows) =>
        assert ps[0] in ps && rows != [];
        RebuiltIsChain(ps[1..], acked, from + |rows|);
        assert ([rows] + Suffixes(ps[1..], acked))[1..] == Suffixes(ps[1..], acked);
    }
  }

  lemma {:induction false} PushFits(ps: seq<Pending>, from: nat, wire: seq<Row>, p: Pending)
    requires Fits(ps, from, wire) && |wire| <= p.start && p.end == p.start + |p.rows| && p.rows != []
    ensures Fits(ps + [p], from, wire)
    ensures Unsent(ps + [p], |wire|) == Unsent(ps, |wire|) + [p]
  {
    var all := ps + [p];
    if ps == [] {
      assert all == [p];
    } else if ps[0].start < |wire| {
      PushFits(ps[1..], ps[0].end, wire, p);
      assert all[1..] == ps[1..] + [p];
    } else {
      assert forall q :: q in all ==> q in ps || q == p;
    }
  }

  lemma {:induction false} PopFits(ps: seq<Pending>, from: nat, wire: seq<Row>)
    requires Fits(ps, from, wire) && ps != [] && |wire| <= Last(ps).start
    ensures Fits(ps[..|ps| - 1], from, wire)
    ensures Unsent(ps, |wire|) == Unsent(ps[..|ps| - 1], |wire|) + [Last(ps)]
  {
    var init := ps[..|ps| - 1];
    assert ps == init + [Last(ps)];
    if ps[0].start < |wire| {
      PopFits(ps[1..], ps[0].end, wire);
      assert ps[1..][..|ps| - 2] == init[1..];
    } else {
      assert forall q :: q in init ==> q in ps;
    }
  }

  /** Handing over the first batch that was not handed over yet, when it starts where the wire ends. */
  lemma {:induction false} SendFits(ps: seq<Pending>, from: nat, wire: seq<Row>, u: Pending, rest: seq<Pending>)
    requires Fits(ps, from, wire) && Unsent(ps, |wire|) == [u] + rest
    requires u.start == |wire| && Beyond(rest, u.end)
    ensures Fits(ps, from, wire + u.rows) && Unsent(ps, |wire + u.rows|) == rest
  {
    var wire' := wire + u.rows;
    if ps != [] && ps[0].start < |wire| {
      SendFits(ps[1..], ps[0].end, wire, u, rest);
      assert wire'[from..ps[0].end] == wire[from..ps[0].end];
    } else {
      assert ps == [u] + rest && ps[0] == u && ps[1..] == rest && u in ps;
      assert wire'[from..u.end] == u.rows;
    }
  }

  lemma {:induction false} ChainIsBeyond(ps: seq<Pending>, from: nat, to: nat)
    requires Chain(ps, from, to)
    ensures Beyond(ps, from) && from <= to && forall p :: p in ps ==> p.end <= to
  {
    if ps != [] {
      ChainIsBeyond(ps[1..], ps[0].end, to);
      assert forall p :: p in ps ==> p == ps[0] || p in ps[1..];
    }
  }

  lemma {:induction false} UnsentIsBeyond(ps: seq<Pending>, from: nat, wire: seq<Row>)
    requires Fits(ps, from, wire)
    ensures Beyond(Unsent(ps, |wire|), |wire|)
    ensures forall p :: p in Unsent(ps, |wire|) ==> p in ps
  {
    if ps != [] && ps[0].start < |wire| {
      UnsentIsBeyond(ps[1..], ps[0].end, wire);
    }
  }

  lemma ContentsSnoc(ps: seq<Pending>, p: Pending)
    ensures Contents(ps + [p]) == Contents(ps) + [p.rows]
  {
  }

  // ---------------------------------------------------------------- queueing and handing over

  lemma PushKeepsRanges(ps: seq<Pending>, acked: nat, wire: seq<Row>, numbered: nat, p: Pending)
    requires Ranges(ps, acked, wire, numbered) && p.start == numbered && p.end == numbered + |p.rows| && p.rows != []
    ensures Ranges(ps + [p], acked, wire, p.end)
    ensures Held(ps + [p], wire, p.end) && Last(ps + [p]) == p
    ensures AllSent(ps, wire, numbered) ==> OnlyLast(ps + [p], wire)
  {
    PushFits(ps, Front(ps, wire), wire, p);
    assert forall q :: q in ps + [p] ==> q in ps || q == p;
  }

  lemma PushKeepsAccount(ps: seq<Pending>, acked: nat, wire: seq<Row>, settled: seq<Row>,
                         taken: seq<seq<Row>>, p: Pending)
    requires Sound(ps, acked, wire) && Account(ps, wire, settled, taken)
    requires |wire| <= p.start && p.end == p.start + |p.rows| && p.rows != []
    ensures Account(ps + [p], wire, settled, taken + [p.rows])
  {
    var us := Unsent(ps, |wire|);
    PushFits(ps, Front(ps, wire), wire, p);
    ContentsSnoc(us, p);
    FlatSnoc(taken, p.rows);
    FlatSnoc(Contents(us), p.rows);
    assert settled + wire + (Flat(Contents(us)) + p.rows) == settled + wire + Flat(Contents(us)) + p.rows;
  }

  lemma PushKeepsLabels(ps: seq<Pending>, offsets: seq<nat>, next: nat, published: Option<nat>, p: Pending)
    requires Labels(ps, offsets, published) && Increasing(offsets, next) && p.offset == next
    ensures Labels(ps + [p], offsets + [next], published) && Increasing(offsets + [next], next + 1)
  {
  }

  lemma PushKeepsCovers(ps: seq<Pending>, taken: seq<seq<Row>>, p: Pending)
    requires Covers(ps, taken) && p.rows != []
    ensures Covers(ps + [p], taken + [p.rows])
  {
  }

  lemma SendKeepsRanges(ps: seq<Pending>, acked: nat, wire: seq<Row>, numbered: nat, u: Pending, rest: seq<Pending>)
    requires Ranges(ps, acked, wire, numbered) && Unsent(ps, |wire|) == [u] + rest
    requires u.start == |wire| && Beyond(rest, u.end)
    ensures Ranges(ps, acked, wire + u.rows, numbered) && Unsent(ps, |wire + u.rows|) == rest
    ensures |wire + u.rows| == u.end
  {
    assert u in [u] + rest;
    UnsentIsBeyond(ps, Front(ps, wire), wire);
    SendFits(ps, Front(ps, wire), wire, u, rest);
  }

  lemma SendKeepsAccount(ps: seq<Pending>, acked: nat, wire: seq<Row>, settled: seq<Row>, taken: seq<seq<Row>>,
                         u: Pending, rest: seq<Pending>)
    requires Sound(ps, acked, wire) && Account(ps, wire, settled, taken) && Unsent(ps, |wire|) == [u] + rest
    requires u.start == |wire| && Beyond(rest, u.end)
    ensures Account(ps, wire + u.rows, settled, taken)
  {
    SendFits(ps, Front(ps, wire), wire, u, rest);
    assert ([u] + rest)[1..] == rest;
    assert settled + wire + (u.rows + Flat(Contents(rest))) == settled + (wire + u.rows) + Flat(Contents(rest));
  }

  lemma PopKeepsRanges(ps: seq<Pending>, acked: nat, wire: seq<Row>, numbered: nat)
    requires Ranges(ps, acked, wire, numbered) && Held(ps, wire, numbered)
    ensures Ranges(ps[..|ps| - 1], acked, wire, numbered)
  {
    PopFits(ps, Front(ps, wire), wire);
  }

  lemma Cancel(a: seq<Row>, b: seq<Row>, r: seq<Row>)
    requires a + r == b + r
    ensures a == b
  {
    assert |a| == |b|;
    assert a == (a + r)[..|a|];
    assert b == (b + r)[..|b|];
  }

  lemma PopKeepsAccount(ps: seq<Pending>, acked: nat, wire: seq<Row>, numbered: nat,
                        settled: seq<Row>, taken: seq<seq<Row>>)
    requires Ranges(ps, acked, wire, numbered) && Held(ps, wire, numbered)
    requires Account(ps, wire, settled, taken) && taken != [] && taken[|taken| - 1] == Last(ps).rows
    ensures Account(ps[..|ps| - 1], wire, settled, taken[..|taken| - 1])
  {
    var init, last := ps[..|ps| - 1], Last(ps);
    var us, before := Unsent(init, |wire|), taken[..|taken| - 1];
    PopFits(ps, Front(ps, wire), wire);
    assert ps == init + [last] && taken == before + [taken[|taken| - 1]];
    ContentsSnoc(us, last);
    FlatSnoc(before, taken[|taken| - 1]);
    FlatSnoc(Contents(us), last.rows);
    assert settled + wire + (Flat(Contents(us)) + last.rows) == settled + wire + Flat(Contents(us)) + last.rows;
    Cancel(Flat(before), settled + wire + Flat(Contents(us)), last.rows);
  }

  // ---------------------------------------------------------------- acknowledgments and replay

  lemma AckKeepsRanges(ps: seq<Pending>, acked: nat, wire: seq<Row>, numbered: nat, e: nat,
                       offsets: seq<nat>, next: nat, published: Option<nat>) returns (d: nat)
    requires Ranges(ps, acked, wire, numbered) && acked <= e <= |wire|
    requires Labels(ps, offsets, published) && Increasing(offsets, next)
    ensures d <= |ps| && Kept(ps, e) == ps[d..] && Unsent(ps[d..], |wire|) == Unsent(ps, |wire|)
    ensures Top(ps, e) == if d == 0 then None else Some(ps[d - 1].offset)
    ensures Ranges(ps[d..], e, wire, numbered)
    ensures forall i :: 0 <= i < d ==> ps[i].end <= e
  {
    d := SplitAt(ps, Front(ps, wire), wire, e);
    forall i, j | 0 <= i < j < |ps| ensures ps[i].offset < ps[j].offset {
      assert offsets[|offsets| - |ps| + i] < offsets[|offsets| - |ps| + j];
    }
    KeptIsRest(ps, e, d);
  }

  lemma DropKeepsLabels(ps: seq<Pending>, offsets: seq<nat>, published: Option<nat>, d: nat)
    requires Labels(ps, offsets, published) && d <= |ps|
    ensures Labels(ps[d..], offsets, if d == 0 then published else Some(ps[d - 1].offset))
  {
    if d == 0 {
      assert ps[d..] == ps;
    } else {
      assert ps[d - 1].offset == offsets[|offsets| - |ps| + (d - 1)];
    }
  }

  lemma DropKeepsCovers(ps: seq<Pending>, taken: seq<seq<Row>>, d: nat)
    requires Covers(ps, taken) && d <= |ps| && forall p :: p in ps ==> p.rows != []
    ensures Covers(ps[d..], taken)
  {
    if d < |ps| {
      assert ps[d..][0] == ps[d] && ps[d] in ps;
    }
  }

  /** With nothing fully acknowledged, rebuilding drops no batch and keeps every offset. */
  lemma {:induction false} RebuiltKeepsAll(ps: seq<Pending>, acked: nat, from: nat)
    requires forall p :: p in ps ==> acked < p.end && p.end == p.start + |p.rows|
    ensures |Rebuilt(ps, acked, from)| == |ps|
    ensures forall k :: 0 <= k < |ps| ==> Rebuilt(ps, acked, from)[k].offset == ps[k].offset
  {
    if ps != [] {
      assert ps[0] in ps;
      RebuiltKeepsAll(ps[1..], acked, from + |Suffix(ps[0], acked).value|);
    }
  }

  lemma EndsAboveAcked(ps: seq<Pending>, acked: nat, wire: seq<Row>)
    requires Sound(ps, acked, wire)
    ensures forall p :: p in ps ==> acked < p.end && p.end == p.start + |p.rows| && p.rows != []
  {
    EndsAbove(ps, Front(ps, wire), wire);
    if ps != [] && ps[0].start < |wire| {
      EndsAbove(ps[1..], ps[0].end, wire);
    }
    assert forall p :: p in ps ==> p == ps[0] || p in ps[1..];
  }

  lemma RebuildKeepsRanges(ps: seq<Pending>, acked: nat, wire: seq<Row>)
    requires Sound(ps, acked, wire)
    ensures var rs := Rebuilt(ps, acked, 0);
      && Ranges(rs, 0, [], |Flat(Contents(rs))|) && InReplay(rs, [], |Flat(Contents(rs))|, Contents(rs))
  {
    EndsAboveAcked(ps, acked, wire);
    RebuiltIsChain(ps, acked, 0);
    RebuiltIsSuffixes(ps, acked, 0);
    var rs := Rebuilt(ps, acked, 0);
    ChainIsBeyond(rs, 0, |Flat(Contents(rs))|);
  }

  /** Cutting `b` at k. */
  lemma Regroup(a: seq<Row>, b: seq<Row>, x: seq<Row>, k: nat)
    requires k <= |b|
    ensures a + b + x == a + b[..k] + (b[k..] + x)
    ensures a + b + x == a + b[..k] + [] + (b[k..] + x)
  {
    assert b == b[..k] + b[k..];
  }

  lemma RebuildKeepsAccount(ps: seq<Pending>, acked: nat, wire: seq<Row>, settled: seq<Row>, taken: seq<seq<Row>>)
    requires Sound(ps, acked, wire) && Account(ps, wire, settled, taken)
    ensures Account(Rebuilt(ps, acked, 0), [], settled + wire[..acked], taken)
  {
    RebuildKeepsRanges(ps, acked, wire);
    RebuiltIsSuffixes(ps, acked, 0);
    SuffixesAreTheRest(ps, acked, wire);
    Regroup(settled, wire, Flat(Contents(Unsent(ps, |wire|))), acked);
  }

  /** So they cover the last taken batches too. */
  lemma SuffixesCover(ps: seq<Pending>, acked: nat, wire: seq<Row>, taken: seq<seq<Row>>)
    requires Sound(ps, acked, wire) && Covers(ps, taken)
    ensures |Suffixes(ps, acked)| == |ps| && LastOf(Suffixes(ps, acked), taken)
  {
    if ps != [] {
      SuffixesAreCut(ps, acked, wire);
      CutCovers(ps, Suffixes(ps, acked), taken);
    }
  }

  lemma CutCovers(ps: seq<Pending>, left: seq<seq<Row>>, taken: seq<seq<Row>>)
    requires Covers(ps, taken) && ps != [] && left != []
    requires 0 < |left[0]| <= |ps[0].rows| && left[1..] == Contents(ps[1..])
    ensures |left| == |ps| && LastOf(left, taken)
  {
    assert |left[1..]| == |ps[1..]|;
    forall k | 0 < k < |left| ensures left[k] == ps[k].rows {
      assert left[k] == left[1..][k - 1] && ps[k] == ps[1..][k - 1];
    }
  }

  lemma LastOfCovers(ps: seq<Pending>, taken: seq<seq<Row>>)
    requires LastOf(Contents(ps), taken)
    ensures Covers(ps, taken)
  {
    assert forall k :: 0 <= k < |ps| ==> ps[k].rows == Contents(ps)[k];
  }

  lemma RebuildKeepsCovers(ps: seq<Pending>, acked: nat, wire: seq<Row>, taken: seq<seq<Row>>)
    requires Sound(ps, acked, wire) && Covers(ps, taken)
    ensures Covers(Rebuilt(ps, acked, 0), taken)
  {
    RebuiltIsSuffixes(ps, acked, 0);
    SuffixesCover(ps, acked, wire, taken);
    LastOfCovers(Rebuilt(ps, acked, 0), taken);
  }

  lemma RebuildKeepsLabels(ps: seq<Pending>, acked: nat, wire: seq<Row>, offsets: seq<nat>, published: Option<nat>)
    requires Sound(ps, acked, wire) && Labels(ps, offsets, published)
    ensures Labels(Rebuilt(ps, acked, 0), offsets, published)
  {
    EndsAboveAcked(ps, acked, wire);
    RebuiltKeepsAll(ps, acked, 0);
  }

  /** The rows not yet acknowledged are those of the suffixes, one for each pending batch. */
  lemma SuffixesComplete(ps: seq<Pending>, acked: nat, wire: seq<Row>, settled: seq<Row>, taken: seq<seq<Row>>)
    requires Sound(ps, acked, wire) && Account(ps, wire, settled, taken)
    ensures Flat(taken) == settled + wire[..acked] + Flat(Suffixes(ps, acked))
  {
    SuffixesAreTheRest(ps, acked, wire);
    Regroup(settled, wire, Flat(Contents(Unsent(ps, |wire|))), acked);
  }

  // ---------------------------------------------------------------- every step keeps the invariant

  lemma QueueKeepsControl(s: State)
    requires Control(s) && s.call.Numbered? && !s.phase.Closed?
    requires var ps := s.pending + [Batch(s.call)];
      && Held(ps, s.wire, s.numbered) && Last(ps) == Batch(s.call)
      && (AllSent(s.pending, s.wire, s.call.start) ==> OnlyLast(ps, s.wire))
    ensures Control(QueueStep(s))
  {
  }

  lemma QueueKeepsRecords(s: State)
    requires Inv(s) && s.call.Numbered?
    ensures var s' := QueueStep(s);
      Ranges(s'.pending, s'.acked, s'.wire, Bound(s')) && Account(s'.pending, s'.wire, s'.settled, s'.taken)
  {
    PushKeepsRanges(s.pending, s.acked, s.wire, s.call.start, Batch(s.call));
    PushKeepsAccount(s.pending, s.acked, s.wire, s.settled, s.taken, Batch(s.call));
  }

  lemma QueueKeepsOffsets(s: State)
    requires s.call.Numbered? && s.call.rows != [] && Covers(s.pending, s.taken)
    requires Labels(s.pending, s.offsets, s.published) && Increasing(s.offsets, s.call.offset)
    ensures var s' := QueueStep(s);
      && Labels(s'.pending, s'.offsets, s'.published) && Increasing(s'.offsets, s.call.offset + 1)
      && Covers(s'.pending, s'.taken)
  {
    PushKeepsCovers(s.pending, s.taken, Batch(s.call));
    PushKeepsLabels(s.pending, s.offsets, s.call.offset, s.published, Batch(s.call));
  }

  lemma QueueKeepsInv(s: State)
    requires Inv(s) && s.call.Numbered?
    ensures Inv(QueueStep(s))
  {
    QueueKeepsRecords(s);
    QueueKeepsOffsets(s);
    PushKeepsRanges(s.pending, s.acked, s.wire, s.call.start, Batch(s.call));
    QueueKeepsControl(s);
  }

  lemma SendKeepsInv(s: State, s': State)
    requires Inv(s) && Step(s, Send) == Some(s')
    ensures Inv(s')
  {
    var u := Last(s.pending);
    assert [u] + [] == [u];
    SendKeepsRanges(s.pending, s.acked, s.wire, s.numbered, u, []);
    SendKeepsAccount(s.pending, s.acked, s.wire, s.settled, s.taken, u, []);
  }

  lemma PopKeepsLabels(ps: seq<Pending>, offsets: seq<nat>, published: Option<nat>, taken: seq<seq<Row>>)
    requires Labels(ps, offsets, published) && Covers(ps, taken) && ps != []
    ensures Labels(ps[..|ps| - 1], offsets[..|offsets| - 1], published)
    ensures Covers(ps[..|ps| - 1], taken[..|taken| - 1])
  {
  }

  lemma SendFailsKeepsRecords(s: State)
    requires Inv(s) && Step(s, SendFails).Some? && !s.recovery
    ensures var s' := SendFailsStep(s);
      && Ranges(s'.pending, s'.acked, s'.wire, s'.numbered)
      && Account(s'.pending, s'.wire, s'.settled, s'.taken)
  {
    PopKeepsRanges(s.pending, s.acked, s.wire, s.numbered);
    PopKeepsAccount(s.pending, s.acked, s.wire, s.numbered, s.settled, s.taken);
  }

  lemma SendFailsKeepsOffsets(s: State)
    requires s.pending != [] && s.taken != [] && s.offsets != [] && !s.recovery
    requires Labels(s.pending, s.offsets, s.published) && Increasing(s.offsets, s.nextOffset)
    requires Covers(s.pending, s.taken)
    ensures var s' := SendFailsStep(s);
      && Labels(s'.pending, s'.offsets, s'.published) && Increasing(s'.offsets, s'.nextOffset)
      && Covers(s'.pending, s'.taken)
  {
    PopKeepsLabels(s.pending, s.offsets, s.published, s.taken);
  }

  lemma SendFailsKeepsInv(s: State)
    requires Inv(s) && Step(s, SendFails).Some?
    ensures Inv(SendFailsStep(s))
  {
    if !s.recovery {
      SendFailsKeepsRecords(s);
      SendFailsKeepsOffsets(s);
    }
  }

  lemma AckKeepsInv(s: State, n: nat)
    requires Inv(s) && Step(s, Ack(n)).Some?
    ensures Inv(AckStep(s, n))
  {
    if n <= s.submitted {
      AckApplies(s, n, if s.acked > n then s.acked else n);
    }
  }

  lemma AckApplies(s: State, n: nat, e: nat)
    requires Running(s) && Increasing(s.offsets, NextName(s)) && s.phase.Live?
    requires n <= s.submitted && e == if s.acked > n then s.acked else n
    ensures Running(AckStep(s, n))
  {
    var d := AckSplits(s, e);
    var published := if d == 0 then s.published else Some(s.pending[d - 1].offset);
    AckKeepsRunning(s, e, d, published);
    AckStepCuts(s, n, e, d, published);
  }

  lemma AckStepCuts(s: State, n: nat, e: nat, d: nat, published: Option<nat>)
    requires n <= s.submitted && e == if s.acked > n then s.acked else n
    requires d <= |s.pending| && Kept(s.pending, e) == s.pending[d..]
    requires Top(s.pending, e) == if d == 0 then None else Some(s.pending[d - 1].offset)
    requires published == if d == 0 then s.published else Some(s.pending[d - 1].offset)
    ensures AckStep(s, n) == s.(acked := e, pending := s.pending[d..], published := published)
  {
  }

  lemma AckSplits(s: State, e: nat) returns (d: nat)
    requires Running(s) && Increasing(s.offsets, NextName(s)) && s.acked <= e <= |s.wire|
    ensures d <= |s.pending| && Kept(s.pending, e) == s.pending[d..]
    ensures Top(s.pending, e) == if d == 0 then None else Some(s.pending[d - 1].offset)
    ensures forall p :: p in s.pending ==> p.start < p.end && p.rows != []
    ensures forall i :: 0 <= i < d ==> s.pending[i].end <= e
    ensures Unsent(s.pending[d..], |s.wire|) == Unsent(s.pending, |s.wire|)
    ensures Ranges(s.pending[d..], e, s.wire, Bound(s))
  {
    EndsAbove(s.pending, Front(s.pending, s.wire), s.wire);
    d := AckKeepsRanges(s.pending, s.acked, s.wire, Bound(s), e, s.offsets, NextName(s), s.published);
  }

  lemma AckKeepsRunning(s: State, e: nat, d: nat, published: Option<nat>)
    requires Running(s) && s.phase.Live? && s.acked <= e <= |s.wire| && d <= |s.pending|
    requires forall p :: p in s.pending ==> p.start < p.end && p.rows != []
    requires forall i :: 0 <= i < d ==> s.pending[i].end <= e
    requires Unsent(s.pending[d..], |s.wire|) == Unsent(s.pending, |s.wire|)
    requires Ranges(s.pending[d..], e, s.wire, Bound(s))
    requires published == if d == 0 then s.published else Some(s.pending[d - 1].offset)
    ensures Running(s.(acked := e, pending := s.pending[d..], published := published))
  {
    AckKeepsLabels(s, d);
    AckKeepsControl(s, e, d, published);
  }

  lemma AckKeepsLabels(s: State, d: nat)
    requires Labels(s.pending, s.offsets, s.published) && Covers(s.pending, s.taken)
    requires d <= |s.pending| && forall p :: p in s.pending ==> p.rows != []
    ensures Labels(s.pending[d..], s.offsets, if d == 0 then s.published else Some(s.pending[d - 1].offset))
    ensures Covers(s.pending[d..], s.taken)
  {
    DropKeepsLabels(s.pending, s.offsets, s.published, d);
    DropKeepsCovers(s.pending, s.taken, d);
  }

  lemma AckKeepsControl(s: State, e: nat, d: nat, published: Option<nat>)
    requires Control(s) && s.phase.Live? && s.acked <= e <= |s.wire| && d <= |s.pending|
    requires forall p :: p in s.pending ==> p.start < p.end
    requires forall i :: 0 <= i < d ==> s.pending[i].end <= e
    requires Unsent(s.pending[d..], |s.wire|) == Unsent(s.pending, |s.wire|)
    ensures Control(s.(acked := e, pending := s.pending[d..], published := published))
  {
    if s.call.Queued? {
      LastStays(s.pending, d, e, |s.wire|);
    }
  }

  lemma LastStays(ps: seq<Pending>, d: nat, e: nat, sent: nat)
    requires ps != [] && d <= |ps| && e <= sent <= Last(ps).start
    requires forall p :: p in ps ==> p.start < p.end
    requires forall i :: 0 <= i < d ==> ps[i].end <= e
    ensures ps[d..] != [] && Last(ps[d..]) == Last(ps)
  {
    assert Last(ps) in ps;
    assert d <= |ps| - 1;
  }

  lemma RebuildKeepsInv(s: State)
    requires Inv(s) && Step(s, Rebuild).Some?
    ensures Inv(RebuildStep(s, s.phase.acked))
  {
    RebuildKeepsRecords(s);
    RebuildKeepsCovers(s.pending, s.acked, s.wire, s.taken);
    RebuildKeepsLabels(s.pending, s.acked, s.wire, s.offsets, s.published);
  }

  lemma RebuildKeepsRecords(s: State)
    requires Sound(s.pending, s.acked, s.wire) && Account(s.pending, s.wire, s.settled, s.taken)
    ensures var s' := RebuildStep(s, s.acked);
      && Ranges(s'.pending, 0, s'.wire, s'.numbered) && InReplay(s'.pending, s'.wire, s'.numbered, s'.phase.todo)
      && Account(s'.pending, s'.wire, s'.settled, s'.taken)
  {
    RebuildKeepsRanges(s.pending, s.acked, s.wire);
    RebuildKeepsAccount(s.pending, s.acked, s.wire, s.settled, s.taken);
  }

  lemma ReplaySendKeepsInv(s: State, s': State)
    requires Inv(s) && Step(s, ReplaySend) == Some(s')
    ensures Inv(s')
  {
    var us := Unsent(s.pending, |s.wire|);
    var u, rest := us[0], us[1..];
    assert us == [u] + rest;
    ChainIsBeyond(rest, u.end, s.numbered);
    SendKeepsRanges(s.pending, s.acked, s.wire, s.numbered, u, rest);
    SendKeepsAccount(s.pending, s.acked, s.wire, s.settled, s.taken, u, rest);
    assert Contents(us)[1..] == Contents(rest);
  }

  lemma DrainCovers(s: State)
    requires s.failed == [] && Sound(s.pending, s.acked, s.wire) && Covers(s.pending, s.taken)
    ensures |Drain(s).failed| == |s.pending| && LastOf(Drain(s).failed, s.taken)
  {
    SuffixesCover(s.pending, s.acked, s.wire, s.taken);
    assert [] + Suffixes(s.pending, s.acked) == Suffixes(s.pending, s.acked);
  }

  lemma DrainBalances(s: State)
    requires s.failed == [] && Sound(s.pending, s.acked, s.wire)
    requires Account(s.pending, s.wire, s.settled, s.taken)
    ensures Flat(s.taken) == Acknowledged(s) + Flat(Drain(s).failed)
  {
    SuffixesComplete(s.pending, s.acked, s.wire, s.settled, s.taken);
    assert [] + Suffixes(s.pending, s.acked) == Suffixes(s.pending, s.acked);
  }

  /** Moving the batches to the failed ones finishes; moving them again changes nothing. */
  lemma DrainFinishes(s: State)
    requires Records(s) || Finished(s)
    ensures Finished(Drain(s)) && Acknowledged(Drain(s)) == Acknowledged(s) && Drain(Drain(s)) == Drain(s)
    ensures Finished(s) ==> Drain(s) == s
  {
    assert Drain(s).failed + [] == Drain(s).failed;
    if Finished(s) {
      assert s.failed + [] == s.failed;
    } else {
      DrainCovers(s);
      DrainBalances(s);
    }
  }

  lemma StepKeepsInv(s: State, a: Action, s': State)
    requires Inv(s) && Step(s, a) == Some(s')
    requires a.DropCall? ==> !TakesSends(s)
    ensures Inv(s')
  {
    if a.Queue? || a.Send? || a.SendFails? {
      IngestKeepsInv(s, a, s');
    } else if a.Ack? || a.Rebuild? || a.ReplaySend? {
      BackgroundKeepsInv(s, a, s');
    } else if s.phase.Closed? {
      ClosedStays(s, a, s');
    } else if a.Number? || a.DropCall? {
      CallKeepsInv(s, a, s');
    } else {
      OtherKeepsInv(s, a, s');
    }
  }

  lemma IngestKeepsInv(s: State, a: Action, s': State)
    requires Inv(s) && Step(s, a) == Some(s') && (a.Queue? || a.Send? || a.SendFails?)
    ensures Inv(s')
  {
    match a
    case Queue => QueueKeepsInv(s);
    case Send => SendKeepsInv(s, s');
    case SendFails => SendFailsKeepsInv(s);
  }

  lemma BackgroundKeepsInv(s: State, a: Action, s': State)
    requires Inv(s) && Step(s, a) == Some(s') && (a.Ack? || a.Rebuild? || a.ReplaySend?)
    ensures Inv(s')
  {
    match a
    case Ack(n) => AckKeepsInv(s, n);
    case Rebuild => RebuildKeepsInv(s);
    case ReplaySend => ReplaySendKeepsInv(s, s');
  }

  lemma CallKeepsInv(s: State, a: Action, s': State)
    requires Inv(s) && Step(s, a) == Some(s') && !s.phase.Closed?
    requires a.Number? || (a.DropCall? && !TakesSends(s))
    ensures Inv(s')
  {
    if a.Number? {
      NumberKeepsRunning(s, s');
    } else {
      DropKeepsRecords(s);
      DropKeepsControl(s);
    }
  }

  /** Numbering moves no bound. */
  lemma NumberKeepsRunning(s: State, s': State)
    requires Running(s) && s'.call.Numbered? && Step(s, Number(s'.call.rows)) == Some(s')
    ensures Running(s') && Bound(s') == Bound(s) && NextName(s') == NextName(s)
  {
  }

  /** Dropping a numbered call leaves a gap above what is queued. */
  lemma DropKeepsRecords(s: State)
    requires Records(s) && Control(s) && Increasing(s.offsets, NextName(s))
    ensures Records(s.(call := NoCall)) && Increasing(s.offsets, s.nextOffset)
  {
  }

  /** It matters only while batches can follow. */
  lemma DropKeepsControl(s: State)
    requires Control(s) && !TakesSends(s)
    ensures Control(s.(call := NoCall))
  {
  }

  lemma MovingKeepsInv(s: State)
    requires Inv(s) && s.phase.Closed?
    ensures Inv(Drain(s)) && Drain(Drain(s)) == Drain(s) && Acknowledged(Drain(s)) == Acknowledged(s)
  {
    DrainFinishes(s);
  }

  lemma BreakingKeepsInv(s: State)
    requires Inv(s) && s.phase.Closed?
    ensures Inv(s.(open := false)) && Drain(s.(open := false)).failed == Drain(s).failed
  {
  }

  /** Once closed, only the connection can still change, and what is left may be moved to the failed batches. */
  lemma ClosedStays(s: State, a: Action, s': State)
    requires Inv(s) && s.phase.Closed? && Step(s, a) == Some(s')
    ensures Inv(s') && s'.phase.Closed? && s'.taken == s.taken && Drain(s').failed == Drain(s).failed
  {
    if a.MoveToFailed? {
      MovingKeepsInv(s);
    } else {
      BreakingKeepsInv(s);
      assert s' == s.(open := false);
    }
  }

  lemma OtherKeepsInv(s: State, a: Action, s': State)
    requires Inv(s) && Step(s, a) == Some(s') && !s.phase.Closed? && !a.Number? && !a.DropCall?
    requires !(a.Queue? || a.Send? || a.SendFails? || a.Ack? || a.Rebuild? || a.ReplaySend?)
    ensures Inv(s')
  {
    ControlStays(s, a, s');
  }

  lemma ControlStays(s: State, a: Action, s': State)
    requires Control(s) && Step(s, a) == Some(s') && !s.phase.Closed? && !a.Number? && !a.DropCall?
    requires !(a.Queue? || a.Send? || a.SendFails? || a.Ack? || a.Rebuild? || a.ReplaySend?)
    ensures s'.phase.Closed? || Control(s')
  {
    if a.Commit? {
      assert Unsent(s.pending, |s.wire|) == [];
    }
  }

  // ---------------------------------------------------------------- main results

  lemma {:induction false} RunKeepsInv(s: State, run: seq<Action>, s': State)
    requires Inv(s) && Careful(s, run) && Run(s, run) == Some(s')
    ensures Inv(s')
    decreases |run|
  {
    if run != [] {
      var t := Step(s, run[0]).value;
      StepKeepsInv(s, run[0], t);
      RunKeepsInv(t, run[1..], s');
    }
  }

  ghost predicate Reached(s: State, recovery: bool, run: seq<Action>)
  {
    Careful(Init(recovery), run) && Run(Init(recovery), run) == Some(s)
  }

  lemma ReachedIsInv(s: State, recovery: bool, run: seq<Action>)
    requires Reached(s, recovery, run)
    ensures Inv(s)
  {
    RunKeepsInv(Init(recovery), run, s);
  }

  /** The batches, or ends of batches, that are replayed or handed back. */
  function Left(s: State): seq<seq<Row>>
  {
    Suffixes(s.pending, s.acked) + s.failed
  }

  /** The rows acknowledged and then the rows left are the rows taken, in order. */
  ghost predicate Conserved(s: State)
  {
    Flat(s.taken) == Acknowledged(s) + Flat(Left(s))
  }

  lemma InvIsConserved(s: State)
    requires Inv(s)
    ensures Conserved(s) && LastOf(Left(s), s.taken) && |Left(s)| == |s.pending| + |s.failed|
  {
    if Records(s) {
      SuffixesComplete(s.pending, s.acked, s.wire, s.settled, s.taken);
      SuffixesCover(s.pending, s.acked, s.wire, s.taken);
      assert Left(s) == Suffixes(s.pending, s.acked);
    } else {
      assert Left(s) == s.failed;
    }
  }

  /** However often the connection was replaced in the middle of a batch, nothing is lost, repeated or moved. */
  lemma AcknowledgedThenLeftIsTaken(s: State, recovery: bool, run: seq<Action>)
    requires Reached(s, recovery, run)
    ensures Flat(s.taken) == Acknowledged(s) + Flat(Left(s))
  {
    ReachedIsInv(s, recovery, run);
    InvIsConserved(s);
  }

  /** A reconnect replays exactly the rows not acknowledged; no batch loses its place or its offset. */
  lemma ReplayIsExact(s: State, recovery: bool, run: seq<Action>, s': State)
    requires Reached(s, recovery, run) && Step(s, Rebuild) == Some(s')
    ensures Acknowledged(s') == Acknowledged(s)
    ensures Flat(s.taken) == Acknowledged(s) + Flat(s'.phase.todo)
    ensures |s'.pending| == |s.pending| == |s'.phase.todo|
    ensures forall k :: 0 <= k < |s.pending| ==> s'.pending[k].offset == s.pending[k].offset
  {
    ReachedIsInv(s, recovery, run);
    InvIsConserved(s);
    assert Left(s) == Suffixes(s.pending, s.acked);
    EndsAboveAcked(s.pending, s.acked, s.wire);
    RebuiltIsSuffixes(s.pending, s.acked, 0);
    RebuiltKeepsAll(s.pending, s.acked, 0);
  }

  /** Each connection carries the rows from the first one not acknowledged before it on, in order and without a gap. */
  lemma WireIsTakenRun(s: State, recovery: bool, run: seq<Action>)
    requires Reached(s, recovery, run) && !s.phase.Closed?
    ensures |s.settled + s.wire| <= |Flat(s.taken)|
    ensures s.settled + s.wire == Flat(s.taken)[..|s.settled + s.wire|]
  {
    ReachedIsInv(s, recovery, run);
  }

  /**
   An acknowledgment is refused if and only if it is for rows never handed to this connection;
   otherwise the watermark is the higher of the two.
   */
  lemma AckIsExact(s: State, recovery: bool, run: seq<Action>, n: nat)
    requires Reached(s, recovery, run) && Step(s, Ack(n)).Some?
    ensures s.acked <= |s.wire|
    ensures var s' := AckStep(s, n);
      && (n > |s.wire| ==> s' == s)
      && (n <= |s.wire| ==> Acknowledged(s') == s.settled + s.wire[..if s.acked > n then s.acked else n])
  {
    ReachedIsInv(s, recovery, run);
  }

  lemma FlatSplit(bs: seq<seq<Row>>, i: nat)
    requires i <= |bs|
    ensures Flat(bs) == Flat(bs[..i]) + Flat(bs[i..])
  {
    var a, b := bs[..i], bs[i..];
    assert bs == a + b;
    FlatConcat(a, b);
  }

  lemma FlatGrows(bs: seq<seq<Row>>, i: nat, j: nat)
    requires i <= j <= |bs|
    ensures |Flat(bs[..i])| <= |Flat(bs[..j])|
  {
    FlatSplit(bs[..j], i);
    assert bs[..j][..i] == bs[..i];
  }

  /** The watermark lies past the batches done and inside the next one. */
  lemma WatermarkIsInside(taken: seq<seq<Row>>, left: seq<seq<Row>>, mark: nat)
    requires LastOf(left, taken) && |Flat(taken)| == mark + |Flat(left)|
    ensures var done := |taken| - |left|;
      && |Flat(taken[..done])| <= mark
      && (left != [] ==> mark < |Flat(taken[..done + 1])|)
  {
    var done := |taken| - |left|;
    FlatSplit(taken, done);
    if left == [] {
      assert taken[done..] == [];
    } else {
      FlatSplit(taken, done + 1);
      assert left[1..] == taken[done + 1..];
      assert Flat(left) == left[0] + Flat(left[1..]);
      assert taken[done..][1..] == taken[done + 1..];
      assert Flat(taken[done..]) == taken[done] + Flat(taken[done + 1..]);
    }
  }

  /** So it lies past a batch exactly when the batch is done. */
  lemma WatermarkIsPast(taken: seq<seq<Row>>, left: seq<seq<Row>>, mark: nat, i: nat)
    requires LastOf(left, taken) && |Flat(taken)| == mark + |Flat(left)| && i < |taken|
    ensures |Flat(taken[..i + 1])| <= mark <==> i < |taken| - |left|
  {
    var done := |taken| - |left|;
    WatermarkIsInside(taken, left, mark);
    if i < done {
      FlatGrows(taken, i + 1, done);
    } else {
      FlatGrows(taken, done + 1, i + 1);
    }
  }

  /**
   A published offset at or above that of a batch means that all its rows, and all before them,
   are acknowledged, and conversely.
   */
  lemma OffsetMeansAcknowledged(s: State, recovery: bool, run: seq<Action>, i: nat)
    requires Reached(s, recovery, run) && i < |s.taken|
    ensures |s.offsets| == |s.taken|
    ensures (s.published.Some? && s.offsets[i] <= s.published.value)
        <==> |Flat(s.taken[..i + 1])| <= |Acknowledged(s)|
  {
    ReachedIsInv(s, recovery, run);
    InvIsConserved(s);
    OffsetIsPast(s, i);
    WatermarkIsPast(s.taken, Left(s), |Acknowledged(s)|, i);
  }

  /** The batches left are those whose offset is above the published one. */
  lemma OffsetIsPast(s: State, i: nat)
    requires Inv(s) && i < |s.taken|
    ensures (s.published.Some? && s.offsets[i] <= s.published.value) <==> i < |s.taken| - |s.pending| - |s.failed|
  {
    var done := |s.taken| - |s.pending| - |s.failed|;
    if i < done - 1 {
      assert s.offsets[i] < s.offsets[done - 1];
    } else if 0 < done <= i {
      assert s.offsets[done - 1] < s.offsets[i];
    }
  }

  lemma {:induction false} ClosedIsFinal(s: State, run: seq<Action>, s': State)
    requires Inv(s) && s.phase.Closed? && Run(s, run) == Some(s')
    ensures s'.taken == s.taken && Drain(s').failed == Drain(s).failed
    decreases |run|
  {
    if run != [] {
      var t := Step(s, run[0]).value;
      ClosedStays(s, run[0], t);
      ClosedIsFinal(t, run[1..], s');
    }
  }

  /** What get_unacked_batches hands back is exactly what was never acknowledged, and the same at every later call. */
  lemma UnackedIsExactAndStable(s: State, recovery: bool, run: seq<Action>, later: seq<Action>, s': State)
    requires Reached(s, recovery, run) && s.phase.Closed? && Run(s, later) == Some(s')
    ensures Flat(s.taken) == Acknowledged(s) + Flat(Drain(s).failed)
    ensures Drain(s').failed == Drain(s).failed && s'.taken == s.taken
  {
    ReachedIsInv(s, recovery, run);
    DrainFinishes(s);
    ClosedIsFinal(s, later, s');
  }

  /** Unless the stream is torn down, a call that has queued its batch finds the sender of the current connection. */
  lemma CallFindsSender(s: State, recovery: bool, run: seq<Action>)
    requires Reached(s, recovery, run) && s.call.Queued? && !s.attached
    ensures s.phase.Torn?
  {
    ReachedIsInv(s, recovery, run);
  }

  /** The check of flush, which waits for the last offset handed out. */
  predicate Flushed(s: State)
  {
    s.nextOffset == 0 || (s.published.Some? && s.nextOffset - 1 <= s.published.value)
  }

  /**
   Flush returns if and only if no offset was handed out, or the last one went to a batch that was
   taken and every row taken is acknowledged; so it never returns with a row unacknowledged.
   */
  lemma FlushReturnsExactly(s: State, recovery: bool, run: seq<Action>)
    requires Reached(s, recovery, run)
    ensures Flushed(s) <==>
      || s.nextOffset == 0
      || (&& s.offsets != [] && s.offsets[|s.offsets| - 1] == s.nextOffset - 1
          && Flat(s.taken) == Acknowledged(s))
    ensures Flushed(s) ==> Flat(s.taken) == Acknowledged(s)
  {
    ReachedIsInv(s, recovery, run);
    InvIsConserved(s);
    NothingLeftExactly(s);
    if s.offsets != [] {
      OffsetIsPast(s, |s.offsets| - 1);
    }
  }

  lemma NothingLeftExactly(s: State)
    requires Inv(s)
    ensures Flat(s.taken) == Acknowledged(s) <==> Left(s) == []
  {
    InvIsConserved(s);
    if Left(s) != [] {
      assert |Flat(Left(s))| >= |Left(s)[0]| > 0;
    }
  }

  /** It may wait in vain: a call is dropped after it was numbered, and nothing is outstanding. */
  lemma FlushCanWaitInVain() returns (run: seq<Action>, s: State)
    ensures Reached(s, true, run) && s.call.NoCall? && Left(s) == [] && !Flushed(s)
  {
    var s0 := Init(true);
    var s1 := Step(s0, Pause).value;
    var s2 := Step(s1, Number([[1]])).value;
    s := Step(s2, DropCall).value;
    run := [Pause, Number([[1]]), DropCall];
    RunsOn(s, s, []);
    RunsOn(s2, s, run[2..]);
    assert run[1..][1..] == run[2..];
    RunsOn(s1, s, run[1..]);
    RunsOn(s0, s, run);
  }

  /** One step and then the rest. */
  lemma RunsOn(s: State, u: State, run: seq<Action>)
    requires run == [] ==> u == s
    requires run != [] ==> Step(s, run[0]).Some? && (run[0].DropCall? ==> !TakesSends(s))
    requires run != [] ==> Careful(Step(s, run[0]).value, run[1..]) && Run(Step(s, run[0]).value, run[1..]) == Some(u)
    ensures Careful(s, run) && Run(s, run) == Some(u)
  {
  }

  // ---------------------------------------------------------------- dropped calls

  /** A row that differs from the first of the batch left behind. */
  function Other(r: Row): (o: Row)
    ensures o != r
  {
    r + [0]
  }

  /** Where the next batch of one row leads, if it is acknowledged as sent. */
  function Sent(t: State, x: Row): State
    requires t.call.NoCall?
  {
    var p := Pending([x], t.nextOffset, t.numbered, t.numbered + 1);
    t.(numbered := t.numbered + 1, nextOffset := t.nextOffset + 1, pending := t.pending + [p],
       taken := t.taken + [[x]], offsets := t.offsets + [t.nextOffset],
       wire := t.wire + [x], submitted := t.numbered + 1)
  }

  predicate NoDrops(run: seq<Action>)
  {
    forall a :: a in run ==> !a.DropCall?
  }

  lemma {:induction false} NoDropsIsCareful(s: State, run: seq<Action>)
    requires NoDrops(run)
    ensures Careful(s, run)
    decreases |run|
  {
    if run != [] && Step(s, run[0]).Some? {
      NoDropsIsCareful(Step(s, run[0]).value, run[1..]);
    }
  }

  lemma {:induction false} Onward(s0: State, run: seq<Action>, s: State, a: Action)
    returns (run': seq<Action>, s': State)
    requires Run(s0, run) == Some(s) && Step(s, a).Some?
    ensures run' == run + [a] && Step(s, a) == Some(s') && Run(s0, run') == Some(s')
    decreases |run|
  {
    run', s' := run + [a], Step(s, a).value;
    if run == [] {
      assert run' == [a] && [a][1..] == [];
    } else {
      var rest, _ := Onward(Step(s0, run[0]).value, run[1..], s, a);
      assert run'[1..] == rest;
    }
  }

  lemma NextBatch(s0: State, before: seq<Action>, t: State, x: Row) returns (run: seq<Action>)
    requires Run(s0, before) == Some(t) && TakesSends(t) && t.attached && t.call.NoCall?
    ensures run == before + [Number([x]), Queue, Send, Ack(|t.wire| + 1)]
    ensures Run(s0, run) == Some(AckStep(Sent(t, x), |t.wire| + 1))
  {
    var u;
    run, u := Onward(s0, before, t, Number([x]));
    run, u := Onward(s0, run, u, Queue);
    run, u := Onward(s0, run, u, Send);
    assert u == Sent(t, x);
    run, u := Onward(s0, run, u, Ack(|t.wire| + 1));
  }

  /**
   A batch that was queued and not handed over is overtaken by the next, and an acknowledgment of
   that one then counts for it.
   */
  lemma OvertakenIsLost(s: State, t: State, x: Row)
    requires Inv(s) && s.call.Queued? && TakesSends(s) && t == s.(call := NoCall)
    requires Last(s.pending).rows != []
    requires x == Other(Last(s.pending).rows[0])
    ensures !Conserved(AckStep(Sent(t, x), |s.wire| + 1))
  {
    var first, n := Last(s.pending), |s.wire|;
    var u := AckStep(Sent(t, x), n + 1);
    EndsAboveAcked(s.pending, s.acked, s.wire);
    assert first in s.pending;
    assert Contents([first]) == [first.rows];
    FlatSnoc([], first.rows);
    assert [] + [first.rows] == [first.rows];
    FlatSnoc(t.taken, [x]);
    var k := |s.settled| + n;
    assert Flat(u.taken)[k] == first.rows[0];
    assert u.wire == s.wire + [x] && u.acked == n + 1;
    assert Acknowledged(u)[k] == x;
  }

  lemma {:induction false} KeptSnoc(ps: seq<Pending>, p: Pending, acked: nat)
    requires acked < p.end
    ensures Kept(ps + [p], acked) == Kept(ps, acked) + [p]
  {
    if ps == [] {
      assert ps + [p] == [p] && [p][1..] == [];
    } else {
      KeptSnoc(ps[1..], p, acked);
      assert (ps + [p])[1..] == ps[1..] + [p];
    }
  }

  lemma KeptOne(p: Pending, acked: nat)
    ensures Kept([p], acked) == if acked >= p.end then [] else [p]
    ensures Top([p], acked) == if acked >= p.end then Some(p.offset) else None
  {
    assert [p][1..] == [];
  }

  lemma {:induction false} SuffixesSnoc(ps: seq<Pending>, p: Pending, acked: nat)
    requires acked <= p.start
    ensures Suffixes(ps + [p], acked) == Suffixes(ps, acked) + [p.rows]
  {
    if ps == [] {
      assert ps + [p] == [p] && [p][1..] == [];
    } else {
      SuffixesSnoc(ps[1..], p, acked);
      assert (ps + [p])[1..] == ps[1..] + [p];
    }
  }

  /**
   A gap in the row numbers puts the next batch out of reach of its acknowledgment: it is
   acknowledged in full and still left.
   */
  lemma RenumberedIsRepeated(s: State, t: State, x: Row)
    requires Inv(s) && s.call.Numbered? && TakesSends(s) && t == s.(call := NoCall)
    ensures var u := AckStep(Sent(t, x), |s.wire| + 1);
      Flat(u.taken) == Acknowledged(u) && Flat(Left(u)) != [] && !Conserved(u)
  {
    assert Flat(s.taken) == s.settled + s.wire;
    SentAboveGap(t, x);
  }

  lemma SentAboveGap(t: State, x: Row)
    requires t.acked <= |t.wire| < t.numbered && t.failed == [] && Flat(t.taken) == t.settled + t.wire && t.call.NoCall?
    ensures var u := AckStep(Sent(t, x), |t.wire| + 1);
      Flat(u.taken) == Acknowledged(u) && Flat(Left(u)) != [] && !Conserved(u)
  {
    var u := AckStep(Sent(t, x), |t.wire| + 1);
    LastIsLeft(t.pending, Last(Sent(t, x).pending), |t.wire| + 1);
    AllAcknowledged(t, x);
    assert Left(u) == Suffixes(u.pending, u.acked);
  }

  lemma LastIsLeft(ps: seq<Pending>, p: Pending, acked: nat)
    requires acked <= p.start < p.end && p.rows != []
    ensures Flat(Suffixes(Kept(ps + [p], acked), acked)) != []
  {
    KeptSnoc(ps, p, acked);
    SuffixesSnoc(Kept(ps, acked), p, acked);
    FlatSnoc(Suffixes(Kept(ps, acked), acked), p.rows);
  }

  lemma AllAcknowledged(t: State, x: Row)
    requires t.acked <= |t.wire| < t.numbered && Flat(t.taken) == t.settled + t.wire && t.call.NoCall?
    ensures var u := AckStep(Sent(t, x), |t.wire| + 1); Flat(u.taken) == Acknowledged(u)
  {
    var u := AckStep(Sent(t, x), |t.wire| + 1);
    FlatSnoc(t.taken, [x]);
    assert u.wire == t.wire + [x] && u.acked == |u.wire|;
    assert Acknowledged(u) == t.settled + u.wire;
  }

  /**
   Dropping a call that has numbered or queued its batch can lose or repeat rows if and only if
   a later batch can be handed over on the same connection.
   */
  lemma DropIsFatalExactly(s: State, recovery: bool, run: seq<Action>)
    requires Reached(s, recovery, run) && !s.call.NoCall?
    ensures var t := s.(call := NoCall);
      (exists later, u :: Careful(t, later) && Run(t, later) == Some(u) && !Conserved(u)) <==> TakesSends(s)
  {
    ReachedIsInv(s, recovery, run);
    var t := s.(call := NoCall);
    if TakesSends(s) {
      DropIsFatal(s, t);
    } else {
      StepKeepsInv(s, DropCall, t);
      forall later, u | Careful(t, later) && Run(t, later) == Some(u) ensures Conserved(u) {
        RunKeepsInv(t, later, u);
        InvIsConserved(u);
      }
    }
  }

  lemma DropIsFatal(s: State, t: State)
    requires Inv(s) && !s.call.NoCall? && TakesSends(s) && t == s.(call := NoCall)
    ensures exists later, u :: Careful(t, later) && Run(t, later) == Some(u) && !Conserved(u)
  {
    var x: Row := [];
    if s.call.Queued? {
      EndsAboveAcked(s.pending, s.acked, s.wire);
      assert Last(s.pending) in s.pending;
      x := Other(Last(s.pending).rows[0]);
      OvertakenIsLost(s, t, x);
    } else {
      RenumberedIsRepeated(s, t, x);
    }
    var later := NextBatch(t, [], t, x);
    NoDropsIsCareful(t, later);
  }

  /**
   From the start, with a server that acknowledges only what it was sent: offset 0 is reported
   acknowledged, and its row never left.
   */
  lemma DroppedCallCanLoseRows() returns (run: seq<Action>, u: State)
    ensures run == [Number([[1]]), Queue, DropCall] + [Number([[2]]), Queue, Send, Ack(1)]
    ensures Run(Init(true), run) == Some(u)
    ensures u.taken == [[[1]], [[2]]] && u.published == Some(0) && u.wire == [[2]] && u.acked <= |u.wire|
    ensures |u.pending| == 1 && u.pending[0].rows == [[2]]
  {
    var p, q := Pending([[1]], 0, 0, 1), Pending([[2]], 1, 1, 2);
    run, u := Onward(Init(true), [], Init(true), Number([[1]]));
    run, u := Onward(Init(true), run, u, Queue);
    run, u := Onward(Init(true), run, u, DropCall);
    assert u.pending == [p] && u.taken == [[[1]]] && u.wire == [];
    var t := u;
    u := AckStep(Sent(t, [2]), 1);
    assert Sent(t, [2]).pending == [p, q] && [p, q][1..] == [q];
    KeptOne(q, 1);
    run := NextBatch(Init(true), run, t, [2]);
  }

  /** Likewise: the row was sent and acknowledged, it is replayed, and its offset is not published. */
  lemma DroppedCallCanRepeatRows() returns (run: seq<Action>, u: State)
    ensures run == [Number([[1]]), DropCall] + [Number([[2]]), Queue, Send, Ack(1)] + [Recover, Connect, Rebuild]
    ensures Run(Init(true), run) == Some(u)
    ensures u.taken == [[[2]]] && u.settled == [[2]] && u.phase == Replaying([[[2]]]) && u.published == None
  {
    run, u := AcknowledgedAboveGap();
    run, u := Onward(Init(true), run, u, Recover);
    run, u := Onward(Init(true), run, u, Connect);
    var w := u;
    assert Rebuilt(w.pending, 1, 0) == [Pending([[2]], 1, 0, 1)];
    run, u := Onward(Init(true), run, u, Rebuild);
    assert Contents([Pending([[2]], 1, 0, 1)]) == [[[2]]];
  }

  lemma AcknowledgedAboveGap() returns (run: seq<Action>, v: State)
    ensures run == [Number([[1]]), DropCall] + [Number([[2]]), Queue, Send, Ack(1)]
    ensures Run(Init(true), run) == Some(v)
    ensures v == Init(true).(numbered := 2, nextOffset := 2, pending := [Pending([[2]], 1, 1, 2)], taken := [[[2]]],
                             offsets := [1], wire := [[2]], submitted := 2, acked := 1)
  {
    run, v := Onward(Init(true), [], Init(true), Number([[1]]));
    run, v := Onward(Init(true), run, v, DropCall);
    var t := Init(true).(numbered := 1, nextOffset := 1);
    assert v == t;
    run := NextBatch(Init(true), run, t, [2]);
    v := AckAboveGap(t);
  }

  lemma AckAboveGap(t: State) returns (v: State)
    requires t == Init(true).(numbered := 1, nextOffset := 1)
    ensures v == AckStep(Sent(t, [2]), 1)
    ensures v == Init(true).(numbered := 2, nextOffset := 2, pending := [Pending([[2]], 1, 1, 2)], taken := [[[2]]],
                             offsets := [1], wire := [[2]], submitted := 2, acked := 1)
  {
    v := AckStep(Sent(t, [2]), 1);
    assert Sent(t, [2]).pending == [Pending([[2]], 1, 1, 2)];
    KeptOne(Pending([[2]], 1, 1, 2), 1);
  }
}
