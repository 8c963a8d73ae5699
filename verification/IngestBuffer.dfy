/**
 The bounded buffer between ingesting callers and the sender: admission by item count and
 payload bytes with a FIFO queue of waiters, and the queued / in-flight hand-over.

 The class works in place; each method holds the buffer's mutex from start to end, so a run
 of the buffer is a sequence of method calls.  `View` is the abstract state, the functions
 below say what each call does to it, and the lemmas what every run keeps.
 */
module IngestBuffer {
  import opened Common
  import opened IngestCore

  const DEFAULT_MAX_INFLIGHT := 1_000_000

  datatype Entry = Entry(item: Item, weight: int)

  /** A blocked reserve call; `ticket` stands for the calling goroutine. */
  datatype Waiter = Waiter(ticket: nat, weight: int)

  /**
   `held` are the reservations that were granted and that their callers have neither given
   back nor turned into an entry.
   */
  datatype View = View(
    queue: seq<Entry>, flight: seq<Entry>, closed: bool,
    maxItems: int, maxBytes: int, usedItems: int, usedBytes: int, reset: bool,
    waiters: seq<Waiter>, held: map<nat, int>)

  // ---------------------------------------------------------------- what each call does

  predicate CanReserve(v: View, weight: int)
  {
    v.usedItems < v.maxItems && weight <= v.maxBytes - v.usedBytes
  }

  function Take(v: View, ticket: nat, weight: int): View
  {
    v.(usedItems := v.usedItems + 1, usedBytes := v.usedBytes + weight, held := v.held[ticket := weight])
  }

  /** grantWaitersLocked */
  function Grant(v: View): (r: View)
    decreases |v.waiters|
  {
    if v.closed || v.waiters == [] || !CanReserve(v, v.waiters[0].weight) then v
    else Grant(Take(v, v.waiters[0].ticket, v.waiters[0].weight).(waiters := v.waiters[1..]))
  }

  datatype Admission = Granted | Waiting | ContextDone | TooLarge | BufferClosed

  /** reserve, up to the point where the caller may have to wait; `cancelled` is the caller's context */
  function Reserve(v: View, ticket: nat, weight: int, cancelled: bool): (r: (View, Admission))
  {
    if cancelled then (v, ContextDone)
    else if weight < 0 || weight > v.maxBytes then (v, TooLarge)
    else if v.closed then (v, BufferClosed)
    else if v.waiters == [] && CanReserve(v, weight) then (Take(v, ticket, weight), Granted)
    else (v.(waiters := v.waiters + [Waiter(ticket, weight)]), Waiting)
  }

  /** Gives a held reservation back; after a drain the accounting is gone and only the ticket goes. */
  function GiveBack(v: View, ticket: nat): View
    requires ticket in v.held
  {
    var w := v.held[ticket];
    var v' := v.(held := v.held - {ticket});
    if v.reset then v' else v'.(usedItems := v.usedItems - 1, usedBytes := v.usedBytes - w)
  }

  function WithoutTicket(ws: seq<Waiter>, ticket: nat): (r: seq<Waiter>)
  {
    if ws == [] then [] else if ws[0].ticket == ticket then ws[1..] else [ws[0]] + WithoutTicket(ws[1..], ticket)
  }

  /** reserve's cancellation branch, whichever of granted, waiting or failed the waiter was */
  function Cancel(v: View, ticket: nat): View
  {
    Grant(if ticket in v.held then GiveBack(v, ticket) else v.(waiters := WithoutTicket(v.waiters, ticket)))
  }

  function Release(v: View, ticket: nat): View
    requires ticket in v.held
  {
    if v.reset then GiveBack(v, ticket) else Grant(GiveBack(v, ticket))
  }

  /** append: turns a reservation into a queued entry, or gives it back when the buffer was closed meanwhile */
  function Append(v: View, ticket: nat, item: Item): (r: (View, bool))
    requires ticket in v.held
  {
    if v.closed then (GiveBack(v, ticket), false)
    else (v.(queue := v.queue + [Entry(item, v.held[ticket])], held := v.held - {ticket}), true)
  }

  /** next, when there is something queued */
  function Next(v: View): View
    requires v.queue != []
  {
    v.(queue := v.queue[1..], flight := v.flight + [v.queue[0]])
  }

  function Items(es: seq<Entry>): (r: seq<Item>)
    ensures |r| == |es| && forall i :: 0 <= i < |es| ==> r[i] == es[i].item
  {
    seq(|es|, i requires 0 <= i < |es| => es[i].item)
  }

  function Weight(es: seq<Entry>): int
  {
    if es == [] then 0 else Weight(es[..|es| - 1]) + es[|es| - 1].weight
  }

  /** The first `n` in-flight entries gone, with their capacity. */
  function Discarded(v: View, n: nat): View
    requires n <= |v.flight|
  {
    v.(flight := v.flight[n..], usedItems := v.usedItems - n, usedBytes := v.usedBytes - Weight(v.flight[..n]))
  }

  datatype NextResult = Took(item: Item) | MustWait | NextClosed | NextCancelled

  /** What a caller of next finds: its context first, then an entry, then whether there will be one. */
  function NextOutcome(v: View, cancelled: bool): NextResult
  {
    if cancelled then NextCancelled
    else if v.queue != [] then Took(v.queue[0].item)
    else if v.closed then NextClosed
    else MustWait
  }

  /** discardThrough, removing the first `n` in-flight entries */
  function Discard(v: View, n: nat): View
    requires n <= |v.flight|
  {
    Grant(Discarded(v, n))
  }

  function Requeue(v: View): View
  {
    v.(queue := v.flight + v.queue, flight := [])
  }

  function Drain(v: View): View
  {
    v.(queue := [], flight := [], closed := true, reset := true, usedItems := 0, usedBytes := 0, waiters := [])
  }

  function Close(v: View): View
  {
    v.(closed := true, waiters := [])
  }

  // ---------------------------------------------------------------- what every run keeps

  ghost function Held(m: map<nat, int>): int
  {
    if m == map[] then 0 else
    var t :| t in m;
    m[t] + Held(m - {t})
  }

  lemma {:induction false} HeldRemove(m: map<nat, int>, t: nat)
    requires t in m
    ensures Held(m) == m[t] + Held(m - {t})
    decreases |m|
  {
    var u :| u in m && Held(m) == m[u] + Held(m - {u});
    if u != t {
      HeldRemove(m - {u}, t);
      HeldRemove(m - {t}, u);
      assert m - {u} - {t} == m - {t} - {u};
    }
  }

  lemma HeldAdd(m: map<nat, int>, t: nat, w: int)
    requires t !in m
    ensures Held(m[t := w]) == Held(m) + w && |m[t := w]| == |m| + 1
  {
    HeldRemove(m[t := w], t);
    assert m[t := w] - {t} == m;
  }

  /** Every slot and byte in use is owned by a queued entry, an in-flight entry or a held reservation. */
  ghost predicate Accounted(v: View)
  {
    if v.reset then v.closed && v.usedItems == 0 && v.usedBytes == 0 && v.queue == [] && v.flight == []
    else
      && v.usedItems == |v.queue| + |v.flight| + |v.held|
      && v.usedBytes == Weight(v.queue) + Weight(v.flight) + Held(v.held)
  }

  ghost predicate Within(v: View)
  {
    && 0 < v.maxItems && 0 <= v.maxBytes <= MAX_INT64
    && 0 <= v.usedItems <= v.maxItems
    && v.usedBytes <= v.maxBytes
    && (forall t :: t in v.held ==> 0 <= v.held[t])
    && (forall i :: 0 <= i < |v.queue| ==> 0 <= v.queue[i].weight)
    && (forall i :: 0 <= i < |v.flight| ==> 0 <= v.flight[i].weight)
  }

  ghost predicate Orderly(v: View)
  {
    && (v.closed ==> v.waiters == [])
    && (forall i :: 0 <= i < |v.waiters| ==> 0 <= v.waiters[i].weight <= v.maxBytes && v.waiters[i].ticket !in v.held)
    && (forall i, j :: 0 <= i < j < |v.waiters| ==> v.waiters[i].ticket != v.waiters[j].ticket)
  }

  /** No lost wake-up: whoever is first in line really does not fit. */
  ghost predicate Awake(v: View)
  {
    v.waiters != [] ==> !CanReserve(v, v.waiters[0].weight)
  }

  ghost predicate Sound(v: View)
  {
    Accounted(v) && Within(v) && Orderly(v)
  }

  ghost predicate Good(v: View)
  {
    Sound(v) && Awake(v)
  }

  function Empty(maxItems: int, byteLimit: int): (v: View)
  {
    View([], [], false, if maxItems <= 0 then DEFAULT_MAX_INFLIGHT else maxItems,
         if byteLimit > 0 then byteLimit else MAX_INT64, 0, 0, false, [], map[])
  }

  lemma TakeKeepsSound(v: View, ticket: nat, weight: int)
    requires Sound(v) && !v.closed && CanReserve(v, weight) && 0 <= weight
    requires ticket !in v.held && forall i :: 0 <= i < |v.waiters| ==> v.waiters[i].ticket != ticket
    ensures Sound(Take(v, ticket, weight))
  {
    HeldAdd(v.held, ticket, weight);
  }

  /** Granting the first waiter, one iteration of grantWaitersLocked. */
  function GrantFirst(v: View): View
    requires v.waiters != []
  {
    Take(v, v.waiters[0].ticket, v.waiters[0].weight).(waiters := v.waiters[1..])
  }

  lemma GrantFirstKeepsSound(v: View)
    requires Sound(v) && !v.closed && v.waiters != [] && CanReserve(v, v.waiters[0].weight)
    ensures Sound(GrantFirst(v))
  {
    TakeKeepsSound(v.(waiters := v.waiters[1..]), v.waiters[0].ticket, v.waiters[0].weight);
  }

  /** grantWaitersLocked restores the no-lost-wake-up property and touches nothing but the accounting. */
  lemma {:induction false} GrantKeepsGood(v: View)
    requires Sound(v)
    ensures var r := Grant(v);
            Good(r) && r == v.(usedItems := r.usedItems, usedBytes := r.usedBytes, waiters := r.waiters, held := r.held)
    decreases |v.waiters|
  {
    if !(v.closed || v.waiters == [] || !CanReserve(v, v.waiters[0].weight)) {
      GrantFirstKeepsSound(v);
      GrantKeepsGood(GrantFirst(v));
    }
  }

  /** Where grantWaitersLocked stops. */
  function GrantedCount(v: View): (n: nat)
    decreases |v.waiters|
    ensures n <= |v.waiters|
  {
    if v.closed || v.waiters == [] || !CanReserve(v, v.waiters[0].weight) then 0 else 1 + GrantedCount(GrantFirst(v))
  }

  lemma {:induction false} GrantTakesPrefix(v: View)
    ensures Grant(v).waiters == v.waiters[GrantedCount(v)..]
    ensures forall t :: t in v.held ==> t in Grant(v).held
    ensures forall i :: 0 <= i < GrantedCount(v) ==> v.waiters[i].ticket in Grant(v).held
    decreases |v.waiters|
  {
    if !(v.closed || v.waiters == [] || !CanReserve(v, v.waiters[0].weight)) {
      var u := GrantFirst(v);
      GrantTakesPrefix(u);
      forall i | 0 <= i < GrantedCount(v) ensures v.waiters[i].ticket in Grant(v).held {
        assert i > 0 ==> u.waiters[i - 1] == v.waiters[i];
        assert v.waiters[0].ticket in u.held;
      }
    }
  }

  lemma {:induction false} GrantAddsOnlyPrefix(v: View, t: nat)
    requires t in Grant(v).held && t !in v.held
    ensures exists i :: 0 <= i < GrantedCount(v) && v.waiters[i].ticket == t
    decreases |v.waiters|
  {
    if !(v.closed || v.waiters == [] || !CanReserve(v, v.waiters[0].weight)) {
      var u := GrantFirst(v);
      if t in u.held {
        assert v.waiters[0].ticket == t;
      } else {
        GrantAddsOnlyPrefix(u, t);
        var i :| 0 <= i < GrantedCount(u) && u.waiters[i].ticket == t;
        assert v.waiters[i + 1].ticket == t;
      }
    }
  }

  /** grantWaitersLocked is first come, first served: exactly a prefix of the waiters is granted. */
  lemma GrantIsFifo(v: View, i: nat)
    requires Sound(v) && i < |v.waiters|
    ensures Grant(v).waiters == v.waiters[GrantedCount(v)..]
    ensures v.waiters[i].ticket in Grant(v).held <==> i < GrantedCount(v)
  {
    GrantTakesPrefix(v);
    if v.waiters[i].ticket in Grant(v).held {
      GrantAddsOnlyPrefix(v, v.waiters[i].ticket);
    }
  }

  lemma {:induction false} WeightJoin(a: seq<Entry>, b: seq<Entry>)
    ensures Weight(a + b) == Weight(a) + Weight(b)
    decreases |b|
  {
    if b == [] {
      assert a + b == a;
    } else {
      assert (a + b)[..|a + b| - 1] == a + b[..|b| - 1];
      WeightJoin(a, b[..|b| - 1]);
    }
  }

  lemma {:induction false} WeightNonNegative(es: seq<Entry>)
    requires forall i :: 0 <= i < |es| ==> 0 <= es[i].weight
    ensures 0 <= Weight(es)
  {
    if es != [] { WeightNonNegative(es[..|es| - 1]); }
  }

  lemma {:induction false} HeldNonNegative(m: map<nat, int>)
    requires forall t :: t in m ==> 0 <= m[t]
    ensures 0 <= Held(m)
    decreases |m|
  {
    if m != map[] {
      var t :| t in m && Held(m) == m[t] + Held(m - {t});
      HeldNonNegative(m - {t});
    }
  }

  lemma GiveBackKeepsSound(v: View, ticket: nat)
    requires Sound(v) && ticket in v.held
    ensures Sound(GiveBack(v, ticket))
  {
    HeldRemove(v.held, ticket);
    assert |v.held - {ticket}| == |v.held| - 1;
  }

  lemma {:induction false} WithoutTicketFilters(ws: seq<Waiter>, ticket: nat)
    requires forall i, j :: 0 <= i < j < |ws| ==> ws[i].ticket != ws[j].ticket
    ensures var r := WithoutTicket(ws, ticket);
            && (forall w :: w in r <==> w in ws && w.ticket != ticket)
            && (forall i, j :: 0 <= i < j < |r| ==> r[i].ticket != r[j].ticket)
  {
    if ws != [] {
      if ws[0].ticket == ticket {
      } else {
        WithoutTicketFilters(ws[1..], ticket);
        var rest := WithoutTicket(ws[1..], ticket);
        forall j | 0 <= j < |rest| ensures rest[j].ticket != ws[0].ticket {
          assert rest[j] in rest;
          var k :| 0 <= k < |ws[1..]| && ws[1..][k] == rest[j];
          assert ws[k + 1] == rest[j];
        }
      }
    }
  }

  // ---------------------------------------------------------------- runs of the buffer

  datatype Call =
    | CallReserve(ticket: nat, weight: int, cancelled: bool) | CallCancel(ticket: nat) | CallRelease(ticket: nat)
    | CallAppend(ticket: nat, item: Item)
    | CallNext | CallDiscard(offset: int) | CallRequeue | CallDrain | CallClose

  /** A goroutine reserves with a ticket of its own and gives back only what it holds. */
  predicate Allowed(v: View, c: Call)
  {
    match c
    case CallReserve(t, _, _) => t !in v.held && forall i :: 0 <= i < |v.waiters| ==> v.waiters[i].ticket != t
    case CallRelease(t) => t in v.held
    case CallAppend(t, _) => t in v.held
    case CallNext => v.queue != []
    case _ => true
  }

  function Apply(v: View, c: Call): (r: View)
    requires Allowed(v, c)
  {
    match c
    case CallReserve(t, w, cancelled) => Reserve(v, t, w, cancelled).0
    case CallCancel(t) => Cancel(v, t)
    case CallRelease(t) => Release(v, t)
    case CallAppend(t, it) => Append(v, t, it).0
    case CallNext => Next(v)
    case CallDiscard(off) => Discard(v, AckedCount(Items(v.flight), off))
    case CallRequeue => Requeue(v)
    case CallDrain => Drain(v)
    case CallClose => Close(v)
  }

  lemma AdmissionKeepsGood(v: View, c: Call)
    requires Good(v) && Allowed(v, c)
    requires c.CallReserve? || c.CallCancel? || c.CallRelease?
    ensures Good(Apply(v, c))
  {
    match c {
      case CallReserve(t, w, _) =>
        if v.waiters == [] && !v.closed && 0 <= w && CanReserve(v, w) {
          TakeKeepsSound(v, t, w);
        }
      case CallCancel(t) =>
        if t in v.held {
          GiveBackKeepsSound(v, t);
          GrantKeepsGood(GiveBack(v, t));
        } else {
          LeaveKeepsSound(v, t);
          GrantKeepsGood(v.(waiters := WithoutTicket(v.waiters, t)));
        }
      case CallRelease(t) =>
        GiveBackKeepsSound(v, t);
        GrantKeepsGood(GiveBack(v, t));
    }
  }

  lemma DiscardSound(v: View, n: nat)
    requires Sound(v) && n <= |v.flight|
    ensures Sound(Discarded(v, n))
  {
    var gone, rest := v.flight[..n], v.flight[n..];
    assert gone + rest == v.flight;
    WeightJoin(gone, rest);
    WeightNonNegative(gone);
  }

  lemma DiscardKeepsGood(v: View, n: nat)
    requires Good(v) && n <= |v.flight|
    ensures Good(Discard(v, n))
  {
    DiscardSound(v, n);
    GrantKeepsGood(Discarded(v, n));
  }

  lemma AppendKeepsGood(v: View, t: nat, it: Item)
    requires Good(v) && t in v.held
    ensures Good(Append(v, t, it).0)
  {
    HeldRemove(v.held, t);
    assert |v.held - {t}| == |v.held| - 1;
    WeightJoin(v.queue, [Entry(it, v.held[t])]);
  }

  lemma NextKeepsGood(v: View)
    requires Good(v) && v.queue != []
    ensures Good(Next(v))
  {
    assert [v.queue[0]] + v.queue[1..] == v.queue;
    WeightJoin([v.queue[0]], v.queue[1..]);
    WeightJoin(v.flight, [v.queue[0]]);
  }

  lemma RequeueKeepsGood(v: View)
    requires Good(v)
    ensures Good(Requeue(v))
  {
    WeightJoin(v.flight, v.queue);
  }

  /** Capacity is never exceeded, nothing is leaked and no waiter that fits is left waiting, after any call. */
  lemma CallKeepsGood(v: View, c: Call)
    requires Good(v) && Allowed(v, c)
    ensures Good(Apply(v, c))
  {
    if c.CallReserve? || c.CallCancel? || c.CallRelease? {
      AdmissionKeepsGood(v, c);
    } else if c.CallDiscard? {
      DiscardKeepsGood(v, AckedCount(Items(v.flight), c.offset));
    } else if c.CallAppend? {
      AppendKeepsGood(v, c.ticket, c.item);
    } else if c.CallNext? {
      NextKeepsGood(v);
    } else if c.CallRequeue? {
      RequeueKeepsGood(v);
    }
  }

  ghost predicate Possible(v: View, cs: seq<Call>)
    decreases |cs|
  {
    cs != [] ==> Allowed(v, cs[0]) && Possible(Apply(v, cs[0]), cs[1..])
  }

  function After(v: View, cs: seq<Call>): View
    requires Possible(v, cs)
    decreases |cs|
  {
    if cs == [] then v else After(Apply(v, cs[0]), cs[1..])
  }

  /** ... and so after any sequence of calls on a new buffer. */
  lemma {:induction false} RunKeepsGood(v: View, cs: seq<Call>)
    requires Good(v) && Possible(v, cs)
    ensures Good(After(v, cs))
    decreases |cs|
  {
    if cs != [] {
      CallKeepsGood(v, cs[0]);
      RunKeepsGood(Apply(v, cs[0]), cs[1..]);
    }
  }

  lemma NewBufferIsGood(maxItems: int, byteLimit: int, cs: seq<Call>)
    requires byteLimit <= MAX_INT64 && Possible(Empty(maxItems, byteLimit), cs)
    ensures Good(After(Empty(maxItems, byteLimit), cs))
  {
    RunKeepsGood(Empty(maxItems, byteLimit), cs);
  }

  /**
   While someone waits, some entry or reservation occupies capacity, because a waiter alone in
   an empty buffer always fits.
   */
  lemma WaitersAreWaitingForSomeone(v: View)
    requires Good(v) && v.waiters != []
    ensures !v.closed && !v.reset
    ensures v.queue != [] || v.flight != [] || v.held != map[]
  {
    assert v.queue == [] && v.flight == [] && v.held == map[] ==> v.usedItems == 0 && v.usedBytes == 0;
  }

  predicate IsWaiting(v: View, t: nat)
  {
    exists i :: 0 <= i < |v.waiters| && v.waiters[i].ticket == t
  }

  lemma GrantServes(u: View, t: nat)
    requires IsWaiting(u, t)
    ensures IsWaiting(Grant(u), t) || t in Grant(u).held
  {
    var i :| 0 <= i < |u.waiters| && u.waiters[i].ticket == t;
    GrantTakesPrefix(u);
    var n := GrantedCount(u);
    if i >= n { assert Grant(u).waiters[i - n].ticket == t; }
  }

  /** Leaves `t` in line: neither its own cancellation nor the end of the buffer. */
  predicate LetsWait(c: Call, t: nat)
  {
    c != CallCancel(t) && !c.CallDrain? && !c.CallClose?
  }

  lemma CancelServes(v: View, t: nat, other: nat)
    requires Good(v) && IsWaiting(v, t) && other != t
    ensures IsWaiting(Cancel(v, other), t) || t in Cancel(v, other).held
  {
    if other in v.held {
      assert IsWaiting(GiveBack(v, other), t);
      GrantServes(GiveBack(v, other), t);
    } else {
      var i :| 0 <= i < |v.waiters| && v.waiters[i].ticket == t;
      var u := v.(waiters := WithoutTicket(v.waiters, other));
      WithoutTicketFilters(v.waiters, other);
      assert v.waiters[i] in u.waiters;
      assert IsWaiting(u, t);
      GrantServes(u, t);
    }
  }

  lemma CallServes(v: View, c: Call, t: nat)
    requires Good(v) && Allowed(v, c) && IsWaiting(v, t) && LetsWait(c, t)
    ensures IsWaiting(Apply(v, c), t) || t in Apply(v, c).held
  {
    if c.CallCancel? {
      CancelServes(v, t, c.ticket);
    } else if c.CallRelease? {
      assert IsWaiting(GiveBack(v, c.ticket), t);
      GrantServes(GiveBack(v, c.ticket), t);
    } else if c.CallDiscard? {
      var u := Discarded(v, AckedCount(Items(v.flight), c.offset));
      assert IsWaiting(u, t);
      GrantServes(u, t);
    } else {
      var i :| 0 <= i < |v.waiters| && v.waiters[i].ticket == t;
      assert Apply(v, c).waiters[i].ticket == t;
    }
  }

  /** Whoever waits is served as soon as capacity comes back: in any continuation it still waits, or at some point it held a reservation. */
  lemma {:induction false} WaiterIsServed(v: View, cs: seq<Call>, t: nat) returns (k: nat)
    requires Good(v) && Possible(v, cs) && IsWaiting(v, t)
    requires forall c :: c in cs ==> LetsWait(c, t)
    ensures k <= |cs| && Possible(v, cs[..k])
    ensures IsWaiting(After(v, cs), t) || t in After(v, cs[..k]).held
    decreases |cs|
  {
    k := 0;
    if cs != [] {
      CallServes(v, cs[0], t);
      CallKeepsGood(v, cs[0]);
      var u := Apply(v, cs[0]);
      if t in u.held {
        k := 1;
        assert cs[..1] == [cs[0]] && cs[..1][1..] == [];
      } else {
        k := WaiterIsServed(u, cs[1..], t);
        k := k + 1;
        assert cs[..k][1..] == cs[1..][..k - 1];
      }
    }
  }

  /** So once nothing occupies capacity any more, it has been served. */
  lemma WaiterWasServed(v: View, cs: seq<Call>, t: nat) returns (k: nat)
    requires Good(v) && Possible(v, cs) && IsWaiting(v, t)
    requires forall c :: c in cs ==> LetsWait(c, t)
    requires var u := After(v, cs); u.queue == [] && u.flight == [] && u.held == map[]
    ensures k <= |cs| && Possible(v, cs[..k]) && t in After(v, cs[..k]).held
  {
    k := WaiterIsServed(v, cs, t);
    RunKeepsGood(v, cs);
    if After(v, cs).waiters != [] { WaitersAreWaitingForSomeone(After(v, cs)); }
  }

  /** Among those waiting when grants are made, nobody is granted ahead of someone in front. */
  lemma GrantInOrder(u: View, i: nat, j: nat)
    requires Sound(u) && i < j < |u.waiters| && u.waiters[j].ticket in Grant(u).held
    ensures u.waiters[i].ticket in Grant(u).held
  {
    GrantIsFifo(u, i);
    GrantIsFifo(u, j);
  }

  /** Where the waiters of `v` stand once `ticket` has left the line. */
  function Place(ws: seq<Waiter>, ticket: nat, i: nat): (k: nat)
    requires i < |ws|
    requires forall a, b :: 0 <= a < b < |ws| ==> ws[a].ticket != ws[b].ticket
    ensures ws[i].ticket != ticket ==> k < |WithoutTicket(ws, ticket)| && WithoutTicket(ws, ticket)[k] == ws[i]
  {
    if i == 0 then 0
    else if ws[0].ticket == ticket then i - 1
    else 1 + Place(ws[1..], ticket, i - 1)
  }

  lemma {:induction false} PlaceIsMonotone(ws: seq<Waiter>, ticket: nat, i: nat, j: nat)
    requires i < j < |ws| && ws[i].ticket != ticket && ws[j].ticket != ticket
    requires forall a, b :: 0 <= a < b < |ws| ==> ws[a].ticket != ws[b].ticket
    ensures Place(ws, ticket, i) < Place(ws, ticket, j)
  {
    if i > 0 && ws[0].ticket != ticket {
      PlaceIsMonotone(ws[1..], ticket, i - 1, j - 1);
    }
  }

  lemma CancelInOrder(v: View, t: nat, i: nat, j: nat)
    requires Good(v) && i < j < |v.waiters| && t != v.waiters[i].ticket
    requires v.waiters[j].ticket in Cancel(v, t).held
    ensures v.waiters[i].ticket in Cancel(v, t).held
  {
    if t in v.held {
      GiveBackKeepsSound(v, t);
      GrantInOrder(GiveBack(v, t), i, j);
    } else {
      LeaveKeepsSound(v, t);
      var u := v.(waiters := WithoutTicket(v.waiters, t));
      if t == v.waiters[j].ticket {
        LeftIsNotGranted(v, t);
      } else {
        PlaceIsMonotone(v.waiters, t, i, j);
        GrantInOrder(u, Place(v.waiters, t, i), Place(v.waiters, t, j));
      }
    }
  }

  lemma LeaveKeepsSound(v: View, t: nat)
    requires Sound(v) && t !in v.held
    ensures Sound(v.(waiters := WithoutTicket(v.waiters, t)))
  {
    WithoutTicketFilters(v.waiters, t);
    var u := v.(waiters := WithoutTicket(v.waiters, t));
    assert forall i :: 0 <= i < |u.waiters| ==> u.waiters[i] in u.waiters;
  }

  /** A waiter that cancels is not granted afterwards. */
  lemma LeftIsNotGranted(v: View, t: nat)
    requires Sound(v) && t !in v.held
    ensures t !in Cancel(v, t).held
  {
    LeaveKeepsSound(v, t);
    WithoutTicketFilters(v.waiters, t);
    var u := v.(waiters := WithoutTicket(v.waiters, t));
    assert forall i :: 0 <= i < |u.waiters| ==> u.waiters[i] in u.waiters;
    if t in Grant(u).held {
      GrantAddsOnlyPrefix(u, t);
    }
  }

  /**
   First come, first served over every call: if a waiter is granted by a call, everyone who
   was waiting in front of it is granted by it too, unless that one cancelled in this very call.
   */
  lemma NoOvertaking(v: View, c: Call, i: nat, j: nat)
    requires Good(v) && Allowed(v, c)
    requires i < j < |v.waiters| && c != CallCancel(v.waiters[i].ticket)
    requires v.waiters[j].ticket in Apply(v, c).held
    ensures v.waiters[i].ticket in Apply(v, c).held
  {
    match c {
      case CallCancel(t) => CancelInOrder(v, t, i, j);
      case CallRelease(t) =>
        GiveBackKeepsSound(v, t);
        GrantInOrder(GiveBack(v, t), i, j);
      case CallDiscard(off) =>
        var n := AckedCount(Items(v.flight), off);
        DiscardSound(v, n);
        GrantInOrder(Discarded(v, n), i, j);
      case _ =>
    }
  }

  /**
   The receiver discards while the sender takes: when the acknowledged offset is already in
   flight the two calls commute, so taking "look up the highest in-flight offset, then
   discard" as one step loses no interleaving.
   */
  lemma DiscardCommutesWithNext(v: View, offset: int)
    requires v.queue != [] && v.queue[0].item.offset > offset
    ensures var n := AckedCount(Items(v.flight), offset);
            && AckedCount(Items(Next(v).flight), offset) == n
            && Discard(v, n).queue == v.queue
            && Next(Discard(v, n)) == Discard(Next(v), n)
  {
    var n := AckedCount(Items(v.flight), offset);
    AckedCountSnoc(Items(v.flight), v.queue[0].item, offset);
    assert Items(Next(v).flight) == Items(v.flight) + [v.queue[0].item];
    DiscardedCommutesWithNext(v, n);
    var u := Discarded(v, n);
    GrantIgnoresEntries(u, v.queue[1..], v.flight[n..] + [v.queue[0]]);
    GrantKeepsLists(u);
  }

  lemma DiscardedCommutesWithNext(v: View, n: nat)
    requires v.queue != [] && n <= |v.flight|
    ensures Discarded(Next(v), n) == Discarded(v, n).(queue := v.queue[1..], flight := v.flight[n..] + [v.queue[0]])
  {
    assert (v.flight + [v.queue[0]])[..n] == v.flight[..n];
    assert (v.flight + [v.queue[0]])[n..] == v.flight[n..] + [v.queue[0]];
  }

  lemma {:induction false} AckedCountSnoc(flight: seq<Item>, it: Item, offset: int)
    requires it.offset > offset
    ensures AckedCount(flight + [it], offset) == AckedCount(flight, offset)
    decreases |flight|
  {
    if flight != [] && flight[0].offset <= offset {
      assert (flight + [it])[1..] == flight[1..] + [it];
      AckedCountSnoc(flight[1..], it, offset);
    }
  }

  lemma {:induction false} GrantIgnoresEntries(v: View, queue: seq<Entry>, flight: seq<Entry>)
    ensures Grant(v.(queue := queue, flight := flight)) == Grant(v).(queue := queue, flight := flight)
    decreases |v.waiters|
  {
    if !(v.closed || v.waiters == [] || !CanReserve(v, v.waiters[0].weight)) {
      GrantIgnoresEntries(GrantFirst(v), queue, flight);
    }
  }

  /** One iteration of discardThrough's loop. */
  lemma DiscardOne(all: seq<Entry>, count: nat, offset: int)
    requires count < |all| && all[count].item.offset <= offset
    ensures all[count..][1..] == all[count + 1..]
    ensures AckedCount(Items(all[count..]), offset) == 1 + AckedCount(Items(all[count + 1..]), offset)
    ensures Weight(all[..count + 1]) == Weight(all[..count]) + all[count].weight
  {
    assert Items(all[count..])[1..] == Items(all[count + 1..]);
    assert all[..count + 1][..count] == all[..count];
  }

  /** The buffer's two lists are the queue and the in-flight list of the stream's records. */
  predicate Shows(v: View, d: Records)
  {
    Items(v.queue) == d.queue && Items(v.flight) == d.flight
  }

  lemma {:induction false} GrantKeepsLists(v: View)
    ensures Grant(v).queue == v.queue && Grant(v).flight == v.flight
    decreases |v.waiters|
  {
    if !(v.closed || v.waiters == [] || !CanReserve(v, v.waiters[0].weight)) {
      GrantKeepsLists(GrantFirst(v));
    }
  }

  /** Taking, appending, requeueing and draining do to the two lists what the stream's steps say. */
  lemma ListsRefineRecords(v: View, d: Records, ticket: nat, item: Item)
    requires Shows(v, d)
    ensures v.queue != [] ==> Shows(Next(v), d.(queue := d.queue[1..], flight := d.flight + [d.queue[0]]))
    ensures ticket in v.held && !v.closed ==> Shows(Append(v, ticket, item).0, d.(queue := d.queue + [item]))
    ensures Shows(Requeue(v), d.(queue := d.flight + d.queue, flight := []))
    ensures Shows(Drain(v), d.(queue := [], flight := []))
  {
  }

  /** So do discarding and cancelling, whoever they let in. */
  lemma GrantsRefineRecords(v: View, d: Records, offset: int, ticket: nat)
    requires Shows(v, d)
    ensures var n := AckedCount(d.flight, offset); n <= |v.flight| && Shows(Discard(v, n), d.(flight := d.flight[n..]))
    ensures Shows(Cancel(v, ticket), d)
  {
    var n := AckedCount(d.flight, offset);
    GrantKeepsLists(Discarded(v, n));
    assert Items(v.flight[n..]) == d.flight[n..];
    GrantKeepsLists(if ticket in v.held then GiveBack(v, ticket) else v.(waiters := WithoutTicket(v.waiters, ticket)));
  }

  /** The item that next hands out is the one that goes in flight, and the one the core's sender gets. */
  lemma NextIsTheSenders(v: View, d: Records, c: Conn)
    requires Shows(v, d) && TakeNextStep(d, c).Some?
    ensures var (d', c') := TakeNextStep(d, c).value;
      && v.queue != [] && NextOutcome(v, false) == Took(c'.pc.it) && Shows(Next(v), d')
      && d'.flight[|d'.flight| - 1] == c'.pc.it
  {
  }

  // ---------------------------------------------------------------- what is given back

  lemma {:induction false} GrantKeepsHeld(v: View, t: nat)
    requires Sound(v) && t in v.held
    ensures t in Grant(v).held && Grant(v).held[t] == v.held[t]
    decreases |v.waiters|
  {
    if !(v.closed || v.waiters == [] || !CanReserve(v, v.waiters[0].weight)) {
      GrantFirstKeepsSound(v);
      GrantKeepsHeld(GrantFirst(v), t);
    }
  }

  lemma GoneIsNotGranted(v: View, t: nat)
    requires Sound(v) && t in v.held
    ensures t !in Grant(GiveBack(v, t)).held
  {
    var u := GiveBack(v, t);
    GiveBackKeepsSound(v, t);
    if t in Grant(u).held {
      GrantAddsOnlyPrefix(u, t);
    }
  }

  /** A reservation given back, by release or by cancelling, is gone; every other one is kept as it was. */
  lemma GivenBackIsGone(v: View, t: nat)
    requires Good(v) && t in v.held
    ensures t !in Release(v, t).held && t !in Cancel(v, t).held
    ensures forall u :: u in v.held && u != t ==>
      && u in Release(v, t).held && Release(v, t).held[u] == v.held[u]
      && u in Cancel(v, t).held && Cancel(v, t).held[u] == v.held[u]
  {
    GoneIsNotGranted(v, t);
    GiveBackKeepsSound(v, t);
    forall u | u in v.held && u != t {
      GrantKeepsHeld(GiveBack(v, t), u);
    }
  }

  /** Who cancels while waiting is neither granted nor waiting afterwards. */
  lemma CancelledIsGone(v: View, t: nat)
    requires Good(v)
    ensures t !in Cancel(v, t).held && !IsWaiting(Cancel(v, t), t)
  {
    if t in v.held {
      GivenBackIsGone(v, t);
      GiveBackKeepsSound(v, t);
      GrantTakesPrefix(GiveBack(v, t));
    } else {
      LeftIsNotGranted(v, t);
      LeaveKeepsSound(v, t);
      WithoutTicketFilters(v.waiters, t);
      GrantTakesPrefix(v.(waiters := WithoutTicket(v.waiters, t)));
    }
  }

  // ---------------------------------------------------------------- the buffer, in place

  class Buffer {
    var queue: seq<Entry>
    var flight: seq<Entry>
    var closed: bool
    const maxItems: int
    const maxBytes: int
    var usedItems: int
    var usedBytes: int
    var reset: bool
    var waiters: seq<Waiter>
    var held: map<nat, int>

    function V(): View
      reads this
    {
      View(queue, flight, closed, maxItems, maxBytes, usedItems, usedBytes, reset, waiters, held)
    }

    constructor (maxInflight: int, byteLimit: int)
      requires byteLimit <= MAX_INT64
      ensures V() == Empty(maxInflight, byteLimit) && Good(V())
      ensures maxInflight > 0 ==> maxItems == maxInflight
      ensures byteLimit > 0 ==> maxBytes == byteLimit
    {
      maxItems := if maxInflight <= 0 then DEFAULT_MAX_INFLIGHT else maxInflight;
      maxBytes := if byteLimit > 0 then byteLimit else MAX_INT64;
      queue, flight, closed, usedItems, usedBytes, reset, waiters, held := [], [], false, 0, 0, false, [], map[];
    }

    method GrantWaiters()
      requires Sound(V())
      modifies this
      ensures V() == Grant(old(V())) && Good(V())
    {
      GrantKeepsGood(V());
      while !closed && waiters != []
        invariant Sound(V())
        invariant Grant(V()) == Grant(old(V()))
        decreases |waiters|
      {
        var w := waiters[0];
        if !(usedItems < maxItems && w.weight <= maxBytes - usedBytes) {
          return;
        }
        GrantFirstKeepsSound(V());
        Admit();
      }
    }

    /** The first waiter gets its reservation. */
    method Admit()
      requires waiters != []
      modifies this
      ensures V() == GrantFirst(old(V()))
    {
      var w := waiters[0];
      waiters := waiters[1..];
      usedItems := usedItems + 1;
      usedBytes := usedBytes + w.weight;
      held := held[w.ticket := w.weight];
    }

    /** A reservation goes back, unless drainAll has already wiped the accounts. */
    method ReturnReservation(ticket: nat)
      requires ticket in held
      modifies this
      ensures V() == GiveBack(old(V()), ticket)
    {
      if !reset {
        usedItems := usedItems - 1;
        usedBytes := usedBytes - held[ticket];
      }
      held := held - {ticket};
    }

    method ReserveCapacity(ticket: nat, weight: int, cancelled: bool) returns (r: Admission)
      requires Good(V()) && Allowed(V(), CallReserve(ticket, weight, cancelled))
      modifies this
      ensures (V(), r) == Reserve(old(V()), ticket, weight, cancelled) && Good(V())
      // refused without a trace, in the order of the checks
      ensures r.ContextDone? <==> cancelled
      ensures r.TooLarge? <==> !cancelled && (weight < 0 || weight > maxBytes)
      ensures r.BufferClosed? <==> !cancelled && 0 <= weight <= maxBytes && old(closed)
      ensures r.ContextDone? || r.TooLarge? || r.BufferClosed? ==> V() == old(V())
      // granted only when nobody waits and both limits allow, and then never made to wait
      ensures r.Granted? || r.Waiting? ==>
        (r.Granted? <==> old(waiters) == [] && old(usedItems) < maxItems && old(usedBytes) + weight <= maxBytes)
      ensures r.Granted? ==> held == old(held)[ticket := weight] && waiters == []
      ensures r.Waiting? ==> held == old(held) && waiters == old(waiters) + [Waiter(ticket, weight)]
    {
      CallKeepsGood(V(), CallReserve(ticket, weight, cancelled));
      if cancelled {
        return ContextDone;
      }
      if weight < 0 || weight > maxBytes {
        return TooLarge;
      }
      if closed {
        return BufferClosed;
      }
      if |waiters| == 0 && usedItems < maxItems && weight <= maxBytes - usedBytes {
        usedItems := usedItems + 1;
        usedBytes := usedBytes + weight;
        held := held[ticket := weight];
        return Granted;
      }
      waiters := waiters + [Waiter(ticket, weight)];
      return Waiting;
    }

    /** The waiting caller's context is done before it has used its reservation. */
    method CancelReserve(ticket: nat)
      requires Good(V())
      modifies this
      ensures V() == Cancel(old(V()), ticket) && Good(V())
      ensures ticket !in held && !IsWaiting(V(), ticket)
    {
      ghost var before := V();
      CancelledIsGone(before, ticket);
      if ticket in held {
        GiveBackKeepsSound(before, ticket);
        ReturnReservation(ticket);
      } else {
        LeaveKeepsSound(before, ticket);
        waiters := WithoutTicket(waiters, ticket);
        assert V() == before.(waiters := WithoutTicket(before.waiters, ticket));
      }
      GrantWaiters();
    }

    method ReleaseCapacity(ticket: nat)
      requires Good(V()) && ticket in held
      modifies this
      ensures V() == Release(old(V()), ticket) && Good(V())
      ensures ticket !in held && forall u :: u in old(held) && u != ticket ==> u in held && held[u] == old(held)[u]
      ensures queue == old(queue) && flight == old(flight)
    {
      GivenBackIsGone(V(), ticket);
      GrantKeepsLists(GiveBack(V(), ticket));
      GiveBackKeepsSound(V(), ticket);
      ReturnReservation(ticket);
      if !reset {
        GrantWaiters();
      }
    }

    method AppendItem(ticket: nat, item: Item) returns (ok: bool)
      requires Good(V()) && ticket in held
      modifies this
      ensures (V(), ok) == Append(old(V()), ticket, item) && Good(V())
      ensures (ok <==> !old(closed)) && held == old(held) - {ticket}
      ensures queue == if ok then old(queue) + [Entry(item, old(held)[ticket])] else old(queue)
    {
      CallKeepsGood(V(), CallAppend(ticket, item));
      var weight := held[ticket];
      held := held - {ticket};
      if closed {
        if !reset {
          usedItems := usedItems - 1;
          usedBytes := usedBytes - weight;
        }
        return false;
      }
      queue := queue + [Entry(item, weight)];
      return true;
    }

    /** One look of next at the buffer: the loop around cond.Wait looks again when it gets MustWait. */
    method NextItem(cancelled: bool) returns (r: NextResult)
      requires Good(V())
      modifies this
      ensures r == NextOutcome(old(V()), cancelled)
      ensures V() == if r.Took? then Next(old(V())) else old(V())
      ensures Good(V())
      ensures r.NextCancelled? <==> cancelled
      ensures r.Took? <==> !cancelled && old(queue) != []
      ensures r.NextClosed? <==> !cancelled && old(queue) == [] && old(closed)
      // the entry handed out is the one that goes in flight
      ensures r.Took? ==>
        && r.item == old(queue)[0].item && queue == old(queue)[1..]
        && flight == old(flight) + [old(queue)[0]] && flight[|flight| - 1].item == r.item
    {
      if cancelled {
        return NextCancelled;
      }
      if |queue| == 0 {
        return if closed then NextClosed else MustWait;
      }
      CallKeepsGood(V(), CallNext);
      r := Took(queue[0].item);
      queue, flight := queue[1..], flight + [queue[0]];
    }

    /** discardThrough's loop: evicts the acknowledged prefix of the in-flight list. */
    method EvictAcked(offset: int) returns (first: int, last: int, count: nat, releasedBytes: int)
      modifies `flight
      ensures count == AckedCount(Items(old(flight)), offset) && count <= |old(flight)|
      ensures flight == old(flight)[count..] && releasedBytes == Weight(old(flight)[..count])
      ensures count > 0 ==> first == old(flight)[0].item.offset && last == old(flight)[count - 1].item.offset
    {
      ghost var all := flight;
      ghost var n := AckedCount(Items(all), offset);
      first, last, count, releasedBytes := 0, 0, 0, 0;
      assert all[0..] == all && all[..0] == [];
      while |flight| > 0 && flight[0].item.offset <= offset
        invariant 0 <= count <= n <= |all| && flight == all[count..]
        invariant n == count + AckedCount(Items(flight), offset)
        invariant releasedBytes == Weight(all[..count])
        invariant count > 0 ==> first == all[0].item.offset && last == all[count - 1].item.offset
        decreases |flight|
      {
        if count == 0 {
          first := flight[0].item.offset;
        }
        last := flight[0].item.offset;
        releasedBytes := releasedBytes + flight[0].weight;
        DiscardOne(all, count, offset);
        flight := flight[1..];
        count := count + 1;
      }
    }

    /** discardThrough up to the wake-up. */
    method EvictAndAccount(offset: int) returns (first: int, last: int, count: nat)
      modifies this
      ensures count == AckedCount(Items(old(flight)), offset) && count <= |old(flight)|
      ensures V() == Discarded(old(V()), count)
      ensures count > 0 ==> first == old(flight)[0].item.offset && last == old(flight)[count - 1].item.offset
    {
      var releasedBytes: int;
      first, last, count, releasedBytes := EvictAcked(offset);
      usedItems := usedItems - count;
      usedBytes := usedBytes - releasedBytes;
    }

    /** Removes what is acknowledged, lets waiters in and reports the discarded offsets. */
    method DiscardThrough(offset: int) returns (first: int, last: int, count: nat)
      requires Good(V())
      modifies this
      ensures count == AckedCount(Items(old(flight)), offset)
      ensures V() == Discard(old(V()), count) && Good(V())
      ensures count > 0 ==> first == old(flight)[0].item.offset && last == old(flight)[count - 1].item.offset
    {
      ghost var before := V();
      first, last, count := EvictAndAccount(offset);
      DiscardSound(before, count);
      GrantWaiters();
    }

    method RequeueAll()
      requires Good(V())
      modifies this
      ensures V() == Requeue(old(V())) && Good(V())
      ensures queue == old(flight) + old(queue) && flight == []
    {
      CallKeepsGood(V(), CallRequeue);
      if |flight| == 0 {
        assert flight + queue == queue;
        return;
      }
      queue, flight := flight + queue, [];
    }

    method DrainAll() returns (all: seq<Item>)
      requires Good(V())
      modifies this
      ensures V() == Drain(old(V())) && Good(V())
      ensures all == Items(old(flight)) + Items(old(queue))
      ensures closed && queue == [] && flight == [] && waiters == []
    {
      all := Items(flight) + Items(queue);
      queue, flight, closed, reset, usedItems, usedBytes, waiters := [], [], true, true, 0, 0, [];
    }

    method CloseBuffer()
      requires Good(V())
      modifies this
      ensures V() == Close(old(V())) && Good(V())
      ensures closed && waiters == [] && queue == old(queue) && flight == old(flight) && held == old(held)
    {
      closed, waiters := true, [];
    }
  }
}
