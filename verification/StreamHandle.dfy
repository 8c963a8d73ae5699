/**
 Ownership of native stream handles in the C++ SDK: Stream and ArrowStream
 (cpp/src/stream.cpp, cpp/src/arrow_stream.cpp) and the ResultGuard that owns
 one call's error message (cpp/src/detail/ffi_util.hpp).

 The native side is a log of what was asked of it. `Allowed` is what it demands
 of each request, so that a log is `WellUsed` when no handle and no message is
 touched before it is made or after it is freed. The classes do what the C++
 code does, and the second half proves, for every sequence of constructions,
 moves, calls, closes and destructions, that the log stays well used and that
 nothing is left over.

 An ArrowStream is the case in which no acknowledgement callback is held.
 */
module StreamHandle {
  import opened Common

  /** An allocation, told apart from every other one even where addresses are reused. */
  type Handle = nat
  type Callback = nat

  /** What an FFI call answers: its own return value and the CResult it fills. */
  datatype Reply = Reply(ok: bool, success: bool, message: Option<string>, retryable: bool)

  datatype Call = Ingest | WaitForOffset | Flush | GetUnacked | Close

  datatype Exception = Exception(text: string, retryable: bool)

  /** A message is known by the position in the log of the call that allocated it. */
  datatype Event =
    | Made(h: Handle, callback: Option<Callback>)
    | Called(h: Handle, call: Call, reply: Reply)
    | Freed(h: Handle)
    | MessageFreed(at: nat)

  // ---------------------------------------------------------- native side

  predicate Mentions(e: Event, h: Handle)
  {
    !e.MessageFreed? && e.h == h
  }

  ghost predicate IsMade(log: seq<Event>, h: Handle)
  {
    exists c :: Made(h, c) in log
  }

  ghost predicate Usable(log: seq<Event>, h: Handle)
  {
    IsMade(log, h) && Freed(h) !in log
  }

  predicate LiveMessage(log: seq<Event>, at: nat)
  {
    && at < |log| && log[at].Called? && log[at].reply.message.Some?
    && MessageFreed(at) !in log
  }

  /** What the native side demands of a request. */
  ghost predicate Allowed(log: seq<Event>, e: Event)
  {
    match e
    case Made(h, _) => forall x :: x in log ==> !Mentions(x, h)
    case Called(h, _, _) => Usable(log, h)
    case Freed(h) => Usable(log, h)
    case MessageFreed(at) => LiveMessage(log, at)
  }

  ghost predicate WellUsed(log: seq<Event>)
  {
    forall k :: 0 <= k < |log| ==> Allowed(log[..k], log[k])
  }

  lemma StaysWellUsed(log: seq<Event>, e: Event)
    requires WellUsed(log) && Allowed(log, e)
    ensures WellUsed(log + [e])
  {
    forall k | 0 <= k < |log + [e]| ensures Allowed((log + [e])[..k], (log + [e])[k]) {
      assert (log + [e])[..k] == log[..k];
      assert log[..|log|] == log;
    }
  }

  lemma UsableAfter(log: seq<Event>, e: Event, h: Handle)
    ensures Usable(log + [e], h) ==
      if e.Freed? && e.h == h then false
      else if e.Made? && e.h == h then Freed(h) !in log
      else Usable(log, h)
  {
    if IsMade(log, h) {
      var c :| Made(h, c) in log;
      assert Made(h, c) in log + [e];
    }
    if e.Made? && e.h == h { assert Made(h, e.callback) in log + [e]; }
  }

  lemma LiveAfter(log: seq<Event>, e: Event, at: nat)
    requires WellUsed(log)
    ensures LiveMessage(log + [e], at) ==
      if at == |log| then e.Called? && e.reply.message.Some?
      else LiveMessage(log, at) && e != MessageFreed(at)
  {
    assert forall k :: 0 <= k < |log| && log[k].MessageFreed? ==> Allowed(log[..k], log[k]);
  }

  lemma LiveAfterFree(log: seq<Event>, h: Handle, reply: Reply)
    requires WellUsed(log) && Usable(log, h)
    ensures LiveMessage(log + [Called(h, Call.Close, reply)] + [Freed(h)], |log|) == reply.message.Some?
  {
    var e := Called(h, Call.Close, reply);
    StaysWellUsed(log, e);
    LiveAfter(log, e, |log|);
    LiveAfter(log + [e], Freed(h), |log|);
  }

  class Native {
    var log: seq<Event>

    constructor ()
      ensures log == []
    {
      log := [];
    }

    method Make(h: Handle, callback: Option<Callback>)
      requires WellUsed(log) && Allowed(log, Made(h, callback))
      modifies this
      ensures WellUsed(log)
      ensures log == old(log) + [Made(h, callback)]
    {
      StaysWellUsed(log, Made(h, callback));
      log := log + [Made(h, callback)];
    }

    /** Every zerobus_stream_* call: fills the guard's CResult. */
    method Invoke(h: Handle, call: Call, reply: Reply, guard: ResultGuard)
      requires WellUsed(log) && Usable(log, h)
      requires guard.message.None?
      modifies this, guard
      ensures WellUsed(log)
      ensures log == old(log) + [Called(h, call, reply)]
      ensures guard.success == reply.success && guard.retryable == reply.retryable
      ensures guard.message == (if reply.message.Some? then Some(old(|log|)) else None)
    {
      guard.success, guard.retryable := reply.success, reply.retryable;
      guard.message := if reply.message.Some? then Some(|log|) else None;
      StaysWellUsed(log, Called(h, call, reply));
      log := log + [Called(h, call, reply)];
    }

    method Free(h: Handle)
      requires WellUsed(log) && Usable(log, h)
      modifies this
      ensures WellUsed(log)
      ensures log == old(log) + [Freed(h)]
    {
      StaysWellUsed(log, Freed(h));
      log := log + [Freed(h)];
    }

    method FreeMessage(at: nat)
      requires WellUsed(log) && LiveMessage(log, at)
      modifies this
      ensures WellUsed(log)
      ensures log == old(log) + [MessageFreed(at)]
    {
      StaysWellUsed(log, MessageFreed(at));
      log := log + [MessageFreed(at)];
    }
  }

  // ---------------------------------------------------------- ResultGuard

  function Thrown(reply: Reply): Option<Exception>
  {
    if reply.success then None
    else Some(Exception(if reply.message.Some? then reply.message.value else "unknown Zerobus error",
                        reply.retryable))
  }

  function MessageEvents(message: Option<nat>): seq<Event>
  {
    if message.Some? then [MessageFreed(message.value)] else []
  }

  class ResultGuard {
    var success: bool
    var retryable: bool
    var message: Option<nat>

    constructor ()
      ensures !success && !retryable && message == None
    {
      success, retryable, message := false, false, None;
    }

    ghost predicate Holds(native: Native)
      reads this, native
    {
      WellUsed(native.log) && (message.Some? ==> LiveMessage(native.log, message.value))
    }

    /** What the exception of a failed call says. */
    ghost function Text(native: Native): string
      requires Holds(native)
      reads this, native
    {
      if message.Some? then native.log[message.value].reply.message.value else "unknown Zerobus error"
    }

    /** The text is copied out before the message is freed. */
    method ThrowIfError(native: Native) returns (thrown: Option<Exception>)
      requires Holds(native)
      modifies this, native
      ensures WellUsed(native.log)
      ensures message == None && success == old(success) && retryable == old(retryable)
      ensures native.log == old(native.log) + MessageEvents(old(message))
      ensures thrown.None? <==> success
      ensures thrown.Some? ==> thrown.value.retryable == retryable
      ensures thrown.Some? ==> thrown.value.text == old(Text(native))
    {
      thrown := None;
      if !success {
        var text := if message.Some? then native.log[message.value].reply.message.value
                    else "unknown Zerobus error";
        if message.Some? {
          native.FreeMessage(message.value);
          message := None;
        }
        return Some(Exception(text, retryable));
      }
      if message.Some? {
        native.FreeMessage(message.value);
        message := None;
      }
    }

    /** ~ResultGuard */
    method Destroy(native: Native)
      requires Holds(native)
      modifies this, native
      ensures WellUsed(native.log)
      ensures message == None
      ensures native.log == old(native.log) + MessageEvents(old(message))
    {
      if message.Some? {
        native.FreeMessage(message.value);
        message := None;
      }
    }
  }

  // -------------------------------------------------------------- Stream

  /** The two fields of a Stream. */
  datatype Wrapper = Wrapper(handle: Option<Handle>, callback: Option<Callback>)

  /** One call, with or without freeing the handle after it, at a log of length `at`. */
  function CallEvents(at: nat, h: Handle, call: Call, reply: Reply, free: bool): seq<Event>
  {
    [Called(h, call, reply)] + (if free then [Freed(h)] else [])
    + (if reply.message.Some? then [MessageFreed(at)] else [])
  }

  /** Letting go of a handle, if there is one, whatever its close answers. */
  function ReleaseEvents(at: nat, handle: Option<Handle>, reply: Reply): seq<Event>
  {
    if handle.None? then [] else CallEvents(at, handle.value, Close, reply, true)
  }

  function CloseEvents(at: nat, handle: Option<Handle>, reply: Reply): seq<Event>
  {
    if handle.None? then [] else CallEvents(at, handle.value, Close, reply, reply.ok)
  }

  /** Since `was`, exactly one call was made, of `h`, and then its message freed, if it had one. */
  predicate CalledOnce(was: seq<Event>, now: seq<Event>, h: Handle, call: Call, reply: Reply)
  {
    && |now| == |was| + (if reply.message.Some? then 2 else 1) && was <= now
    && now[|was|] == Called(h, call, reply)
    && (reply.message.Some? ==> now[|was| + 1] == MessageFreed(|was|))
  }

  /** Since `was`, `h` was closed, whatever that answered, then freed, and then the message. */
  predicate ClosedAndFreed(was: seq<Event>, now: seq<Event>, h: Handle, reply: Reply)
  {
    && |now| == |was| + (if reply.message.Some? then 3 else 2) && was <= now
    && now[|was|] == Called(h, Close, reply) && now[|was| + 1] == Freed(h)
    && (reply.message.Some? ==> now[|was| + 2] == MessageFreed(|was|))
  }

  const CLOSED := Exception("Stream has been closed", false)

  class Stream {
    const native: Native
    var handle: Option<Handle>
    var callback: Option<Callback>

    function View(): Wrapper
      reads this
    {
      Wrapper(handle, callback)
    }

    ghost predicate Owns()
      reads this, native
    {
      WellUsed(native.log) && (handle.Some? ==> Usable(native.log, handle.value))
    }

    /** Around the handle that zerobus_sdk_create_stream has made. */
    constructor (native: Native, h: Handle, callback: Option<Callback>)
      ensures this.native == native && View() == Wrapper(Some(h), callback)
    {
      this.native := native;
      this.handle := Some(h);
      this.callback := callback;
    }

    /** Stream(Stream&& other) */
    constructor Move(other: Stream)
      modifies other
      ensures native == other.native
      ensures View() == old(other.View())
      ensures other.View() == Wrapper(None, None)
    {
      native := other.native;
      handle := other.handle;
      callback := other.callback;
      new;
      other.callback := None;
      other.handle := None;
    }

    /** Best-effort close, then free: shared by the destructor and move assignment. */
    method Release(reply: Reply)
      requires Owns()
      modifies this, native
      ensures WellUsed(native.log)
      ensures View() == old(View()).(handle := None)
      ensures native.log == old(native.log) + ReleaseEvents(|old(native.log)|, old(handle), reply)
      ensures if old(handle).None? then native.log == old(native.log)
              else ClosedAndFreed(old(native.log), native.log, old(handle).value, reply)
    {
      if handle.Some? {
        var guard := new ResultGuard();
        native.Invoke(handle.value, Call.Close, reply, guard);
        UsableAfter(old(native.log), Called(handle.value, Call.Close, reply), handle.value);
        native.Free(handle.value);
        LiveAfterFree(old(native.log), handle.value, reply);
        handle := None;
        guard.Destroy(native);
      }
    }

    /** ~Stream */
    method Destroy(reply: Reply)
      requires Owns()
      modifies this, native
      ensures WellUsed(native.log)
      ensures View() == old(View()).(handle := None)
      ensures native.log == old(native.log) + ReleaseEvents(|old(native.log)|, old(handle), reply)
      ensures if old(handle).None? then native.log == old(native.log)
              else ClosedAndFreed(old(native.log), native.log, old(handle).value, reply)
    {
      Release(reply);
    }

    /** operator=(Stream&& other), `other` possibly this very stream */
    method MoveAssign(other: Stream, reply: Reply)
      requires Owns() && other.native == native
      modifies this, other, native
      ensures WellUsed(native.log)
      ensures this == other ==> View() == old(View()) && native.log == old(native.log)
      ensures this != other ==>
        && View() == old(other.View())
        && other.View() == Wrapper(None, None)
        && native.log == old(native.log) + ReleaseEvents(|old(native.log)|, old(handle), reply)
        && if old(handle).None? then native.log == old(native.log)
           else ClosedAndFreed(old(native.log), native.log, old(handle).value, reply)
    {
      if this != other {
        Release(reply);
        handle := other.handle;
        callback := other.callback;
        other.callback := None;
        other.handle := None;
      }
    }

    /** wait_for_offset, flush, ingest_* and get_unacked_records, as far as the handle goes. */
    method Use(call: Call, reply: Reply) returns (thrown: Option<Exception>)
      requires Owns()
      modifies native
      ensures WellUsed(native.log)
      ensures handle.None? ==> thrown == Some(CLOSED) && native.log == old(native.log)
      ensures handle.Some? ==>
        && thrown == Thrown(reply)
        && native.log == old(native.log) + CallEvents(|old(native.log)|, handle.value, call, reply, false)
        && CalledOnce(old(native.log), native.log, handle.value, call, reply)
        && (thrown.None? <==> reply.success)
        && (thrown.Some? ==> thrown.value.retryable == reply.retryable)
        && (thrown.Some? && reply.message.Some? ==> thrown.value.text == reply.message.value)
        && (thrown.Some? && reply.message.None? ==> thrown.value.text == "unknown Zerobus error")
    {
      if handle.None? { return Some(CLOSED); }
      var guard := new ResultGuard();
      native.Invoke(handle.value, call, reply, guard);
      LiveAfter(old(native.log), Called(handle.value, call, reply), |old(native.log)|);
      thrown := guard.ThrowIfError(native);
      guard.Destroy(native);
    }

    /** Only a close that succeeds gives up the handle; after one that fails it can be tried again. */
    method Close(reply: Reply) returns (thrown: Option<Exception>)
      requires Owns()
      modifies this, native
      ensures WellUsed(native.log)
      ensures View() == old(View()).(handle := if reply.ok then None else old(handle))
      ensures native.log == old(native.log) + CloseEvents(|old(native.log)|, old(handle), reply)
      ensures
        if old(handle).None? then native.log == old(native.log)
        else if reply.ok then ClosedAndFreed(old(native.log), native.log, old(handle).value, reply)
        else CalledOnce(old(native.log), native.log, old(handle).value, Call.Close, reply)
      ensures thrown ==
        if old(handle).None? || reply.ok then None
        else if reply.success then Some(Exception("failed to close stream", false))
        else Thrown(reply)
    {
      thrown := None;
      if handle.None? { return; }
      var guard := new ResultGuard();
      native.Invoke(handle.value, Call.Close, reply, guard);
      if !reply.ok {
        LiveAfter(old(native.log), Called(handle.value, Call.Close, reply), |old(native.log)|);
        thrown := guard.ThrowIfError(native);
        if thrown.None? { thrown := Some(Exception("failed to close stream", false)); }
        guard.Destroy(native);
        return;
      }
      UsableAfter(old(native.log), Called(handle.value, Call.Close, reply), handle.value);
      native.Free(handle.value);
      LiveAfterFree(old(native.log), handle.value, reply);
      handle := None;
      guard.Destroy(native);
    }
  }

  /** Sdk::create_stream, once the core has made the stream it was asked for. */
  method CreateStream(native: Native, h: Handle, callback: Option<Callback>) returns (s: Stream)
    requires WellUsed(native.log) && Allowed(native.log, Made(h, callback))
    modifies native
    ensures native.log == old(native.log) + [Made(h, callback)]
    ensures fresh(s) && s.native == native && s.View() == Wrapper(Some(h), callback) && s.Owns()
  {
    UsableAfter(native.log, Made(h, callback), h);
    native.Make(h, callback);
    s := new Stream(native, h, callback);
  }

  // ------------------------------------------------- a whole program's run

  /** All wrappers a program holds, by the variable that holds each, and the native log. */
  datatype World = World(wrappers: map<nat, Wrapper>, log: seq<Event>)

  datatype Op =
    | Construct(id: nat, h: Handle, callback: Option<Callback>)
    | MoveConstruct(id: nat, src: nat)
    | MoveAssign(id: nat, src: nat, reply: Reply)
    | Use(id: nat, call: Call, reply: Reply)
    | CloseIt(id: nat, reply: Reply)
    | Destroy(id: nat, reply: Reply)

  /** Variables are constructed before they are used, and a new handle is a new allocation. */
  predicate Legal(w: World, op: Op)
  {
    match op
    case Construct(id, h, _) => id !in w.wrappers && forall x :: x in w.log ==> !Mentions(x, h)
    case MoveConstruct(id, src) => id !in w.wrappers && src in w.wrappers
    case MoveAssign(id, src, _) => id in w.wrappers && src in w.wrappers
    case Use(id, _, _) => id in w.wrappers
    case CloseIt(id, _) => id in w.wrappers
    case Destroy(id, _) => id in w.wrappers
  }

  const EMPTY := Wrapper(None, None)

  /** The operations of class Stream, on values. */
  function Step(w: World, op: Op): World
    requires Legal(w, op)
  {
    var at := |w.log|;
    match op
    case Construct(id, h, c) =>
      World(w.wrappers[id := Wrapper(Some(h), c)], w.log + [Made(h, c)])
    case MoveConstruct(id, src) =>
      World(w.wrappers[id := w.wrappers[src]][src := EMPTY], w.log)
    case MoveAssign(id, src, reply) =>
      if id == src then w
      else World(w.wrappers[id := w.wrappers[src]][src := EMPTY],
                 w.log + ReleaseEvents(at, w.wrappers[id].handle, reply))
    case Use(id, call, reply) =>
      var h := w.wrappers[id].handle;
      World(w.wrappers, w.log + if h.None? then [] else CallEvents(at, h.value, call, reply, false))
    case CloseIt(id, reply) =>
      var v := w.wrappers[id];
      World(w.wrappers[id := v.(handle := if reply.ok then None else v.handle)],
            w.log + CloseEvents(at, v.handle, reply))
    case Destroy(id, reply) =>
      World(w.wrappers - {id}, w.log + ReleaseEvents(at, w.wrappers[id].handle, reply))
  }

  ghost predicate LegalRun(w: World, ops: seq<Op>)
    decreases |ops|
  {
    ops != [] ==> Legal(w, ops[0]) && LegalRun(Step(w, ops[0]), ops[1..])
  }

  ghost function Run(w: World, ops: seq<Op>): World
    requires LegalRun(w, ops)
    decreases |ops|
  {
    if ops == [] then w else Run(Step(w, ops[0]), ops[1..])
  }

  ghost predicate OwnedBy(w: World, id: nat, h: Handle)
  {
    id in w.wrappers && w.wrappers[id].handle == Some(h)
  }

  ghost predicate HaveOwners(w: World)
  {
    forall h :: Usable(w.log, h) ==> exists id :: OwnedBy(w, id, h)
  }

  /** An owner holds the callback its handle was made with. */
  ghost predicate OwnersFit(w: World)
  {
    forall id, h :: OwnedBy(w, id, h) ==> Usable(w.log, h) && Made(h, w.wrappers[id].callback) in w.log
  }

  ghost predicate OwnersDiffer(w: World)
  {
    forall id, other, h :: OwnedBy(w, id, h) && OwnedBy(w, other, h) ==> id == other
  }

  ghost predicate Inv(w: World)
  {
    && WellUsed(w.log) && (forall at: nat :: !LiveMessage(w.log, at))
    && HaveOwners(w) && OwnersFit(w) && OwnersDiffer(w)
  }

  /** `after` goes on from `log`, with the handles `gone` freed and only the message `pending` live. */
  ghost predicate GoesOn(log: seq<Event>, after: seq<Event>, gone: set<Handle>, pending: Option<nat>)
  {
    && WellUsed(after)
    && (forall at: nat :: LiveMessage(after, at) <==> pending == Some(at))
    && (forall x :: Usable(after, x) <==> Usable(log, x) && x !in gone)
    && (forall x, c :: Made(x, c) in after <==> Made(x, c) in log)
  }

  lemma GoesOnByCall(log: seq<Event>, h: Handle, call: Call, reply: Reply)
    requires GoesOn(log, log, {}, None) && Usable(log, h)
    ensures GoesOn(log, log + [Called(h, call, reply)], {}, Pending(|log|, reply))
  {
    var e := Called(h, call, reply);
    StaysWellUsed(log, e);
    forall x { UsableAfter(log, e, x); }
    forall at: nat { LiveAfter(log, e, at); }
  }

  lemma GoesOnByFree(log: seq<Event>, after: seq<Event>, h: Handle, pending: Option<nat>)
    requires GoesOn(log, after, {}, pending) && Usable(log, h)
    requires pending.Some? ==> pending.value < |after|
    ensures GoesOn(log, after + [Freed(h)], {h}, pending)
  {
    StaysWellUsed(after, Freed(h));
    forall x { UsableAfter(after, Freed(h), x); }
    forall at: nat { LiveAfter(after, Freed(h), at); }
  }

  lemma GoesOnByMessage(log: seq<Event>, after: seq<Event>, gone: set<Handle>, at: nat)
    requires GoesOn(log, after, gone, Some(at)) && at < |after|
    ensures GoesOn(log, after + [MessageFreed(at)], gone, None)
  {
    var e := MessageFreed(at);
    StaysWellUsed(after, e);
    forall x { UsableAfter(after, e, x); }
    forall m: nat { LiveAfter(after, e, m); }
  }

  function Pending(at: nat, reply: Reply): Option<nat>
  {
    if reply.message.Some? then Some(at) else None
  }

  /** The guard leaves no message behind. */
  lemma MessageGoesOn(log: seq<Event>, after: seq<Event>, gone: set<Handle>, reply: Reply)
    requires GoesOn(log, after, gone, Pending(|log|, reply)) && |log| < |after|
    ensures GoesOn(log, after + (if reply.message.Some? then [MessageFreed(|log|)] else []), gone, None)
  {
    if reply.message.Some? {
      GoesOnByMessage(log, after, gone, |log|);
    } else {
      assert after + [] == after;
    }
  }

  lemma CallGoesOn(log: seq<Event>, h: Handle, call: Call, reply: Reply)
    requires GoesOn(log, log, {}, None) && Usable(log, h)
    ensures GoesOn(log, log + CallEvents(|log|, h, call, reply, false), {}, None)
  {
    var one := log + [Called(h, call, reply)];
    GoesOnByCall(log, h, call, reply);
    MessageGoesOn(log, one, {}, reply);
    assert log + CallEvents(|log|, h, call, reply, false)
        == one + if reply.message.Some? then [MessageFreed(|log|)] else [];
  }

  lemma EventsInOrder(log: seq<Event>, h: Handle, call: Call, reply: Reply)
    ensures log + CallEvents(|log|, h, call, reply, true) ==
      log + [Called(h, call, reply)] + [Freed(h)]
      + (if reply.message.Some? then [MessageFreed(|log|)] else [])
  {}

  lemma CallAndFreeGoesOn(log: seq<Event>, h: Handle, call: Call, reply: Reply)
    requires GoesOn(log, log, {}, None) && Usable(log, h)
    ensures GoesOn(log, log + CallEvents(|log|, h, call, reply, true), {h}, None)
  {
    var one := log + [Called(h, call, reply)];
    GoesOnByCall(log, h, call, reply);
    GoesOnByFree(log, one, h, Pending(|log|, reply));
    MessageGoesOn(log, one + [Freed(h)], {h}, reply);
    EventsInOrder(log, h, call, reply);
  }

  function AsSet(handle: Option<Handle>): set<Handle>
  {
    if handle.Some? then {handle.value} else {}
  }

  lemma ReleaseGoesOn(log: seq<Event>, handle: Option<Handle>, reply: Reply)
    requires GoesOn(log, log, {}, None) && (handle.Some? ==> Usable(log, handle.value))
    ensures GoesOn(log, log + ReleaseEvents(|log|, handle, reply), AsSet(handle), None)
  {
    if handle.Some? {
      CallAndFreeGoesOn(log, handle.value, Close, reply);
    } else {
      assert log + [] == log;
    }
  }

  lemma ConstructKeepsInv(w: World, op: Op)
    requires Inv(w) && Legal(w, op) && op.Construct?
    ensures Inv(Step(w, op))
  {
    var e, n := Made(op.h, op.callback), Step(w, op);
    StaysWellUsed(w.log, e);
    forall x { UsableAfter(w.log, e, x); }
    forall at: nat { LiveAfter(w.log, e, at); }
    assert OwnedBy(n, op.id, op.h);
    assert forall id, h :: id != op.id ==> (OwnedBy(n, id, h) <==> OwnedBy(w, id, h));
    assert !Usable(w.log, op.h);
  }

  /** Taking over what `src` owns, once what `id` owned is released. */
  lemma TakeOverKeepsInv(w: World, id: nat, src: nat, log: seq<Event>)
    requires Inv(w) && src in w.wrappers && id != src
    requires GoesOn(w.log, log, if id in w.wrappers then AsSet(w.wrappers[id].handle) else {}, None)
    ensures Inv(World(w.wrappers[id := w.wrappers[src]][src := EMPTY], log))
  {
    var n := World(w.wrappers[id := w.wrappers[src]][src := EMPTY], log);
    forall h | Usable(n.log, h) ensures exists other :: OwnedBy(n, other, h) {
      var other :| OwnedBy(w, other, h);
      assert OwnedBy(n, if other == src then id else other, h);
    }
    forall other, h | OwnedBy(n, other, h)
      ensures OwnedBy(w, if other == id then src else other, h) && other != src
    {}
    assert OwnersFit(n) by {
      forall other, h | OwnedBy(n, other, h)
        ensures Usable(n.log, h) && Made(h, n.wrappers[other].callback) in n.log
      {
        var was := if other == id then src else other;
        assert OwnedBy(w, was, h);
        assert n.wrappers[other] == w.wrappers[was];
        assert OwnedBy(w, id, h) ==> was == id;
      }
    }
    assert OwnersDiffer(n);
  }

  /** Letting go of what `id` owns, or of nothing. */
  lemma LetGoKeepsInv(w: World, n: World, id: nat)
    requires Inv(w) && id in w.wrappers && GoesOn(w.log, n.log, AsSet(w.wrappers[id].handle), None)
    requires forall other :: other != id ==> (other in n.wrappers <==> other in w.wrappers)
    requires forall other :: other != id && other in w.wrappers ==> n.wrappers[other] == w.wrappers[other]
    requires id in n.wrappers ==> n.wrappers[id].handle.None?
    ensures Inv(n)
  {
    forall h | Usable(n.log, h) ensures exists other :: OwnedBy(n, other, h) {
      var other :| OwnedBy(w, other, h);
      assert OwnedBy(n, other, h);
    }
    forall other, h | OwnedBy(n, other, h) ensures other != id && OwnedBy(w, other, h) {}
    assert OwnersFit(n) by {
      forall other, h | OwnedBy(n, other, h)
        ensures Usable(n.log, h) && Made(h, n.wrappers[other].callback) in n.log
      {
        assert OwnedBy(w, other, h) && !OwnedBy(w, id, h);
      }
    }
    assert OwnersDiffer(n);
  }

  lemma UseKeepsInv(w: World, n: World)
    requires Inv(w) && n.wrappers == w.wrappers && GoesOn(w.log, n.log, {}, None)
    ensures Inv(n)
  {
    assert forall other, h :: OwnedBy(n, other, h) <==> OwnedBy(w, other, h);
    forall h | Usable(n.log, h) ensures exists other :: OwnedBy(n, other, h) {
      var other :| OwnedBy(w, other, h);
      assert OwnedBy(n, other, h);
    }
  }

  lemma OwnsUsable(w: World, id: nat)
    requires Inv(w) && id in w.wrappers
    ensures w.wrappers[id].handle.Some? ==> Usable(w.log, w.wrappers[id].handle.value)
    ensures GoesOn(w.log, w.log, {}, None)
  {
    if w.wrappers[id].handle.Some? { assert OwnedBy(w, id, w.wrappers[id].handle.value); }
  }

  lemma CloseKeepsInv(w: World, op: Op)
    requires Inv(w) && Legal(w, op) && op.CloseIt?
    ensures Inv(Step(w, op))
  {
    OwnsUsable(w, op.id);
    var n, handle := Step(w, op), w.wrappers[op.id].handle;
    if handle.None? {
      assert n.log == w.log;
      LetGoKeepsInv(w, n, op.id);
    } else if op.reply.ok {
      CallAndFreeGoesOn(w.log, handle.value, Close, op.reply);
      LetGoKeepsInv(w, n, op.id);
    } else {
      CallGoesOn(w.log, handle.value, Close, op.reply);
      UseKeepsInv(w, n);
    }
  }

  lemma StepKeepsInv(w: World, op: Op)
    requires Inv(w) && Legal(w, op)
    ensures Inv(Step(w, op))
  {
    var n := Step(w, op);
    match op {
      case Construct(_, _, _) => ConstructKeepsInv(w, op);
      case MoveConstruct(id, src) =>
        OwnsUsable(w, src);
        TakeOverKeepsInv(w, id, src, w.log);
      case MoveAssign(id, src, reply) =>
        if id != src {
          OwnsUsable(w, id);
          ReleaseGoesOn(w.log, w.wrappers[id].handle, reply);
          TakeOverKeepsInv(w, id, src, n.log);
        }
      case Use(id, call, reply) =>
        OwnsUsable(w, id);
        if w.wrappers[id].handle.Some? {
          CallGoesOn(w.log, w.wrappers[id].handle.value, call, reply);
        } else {
          assert n.log == w.log;
        }
        UseKeepsInv(w, n);
      case CloseIt(_, _) => CloseKeepsInv(w, op);
      case Destroy(id, reply) =>
        OwnsUsable(w, id);
        ReleaseGoesOn(w.log, w.wrappers[id].handle, reply);
        LetGoKeepsInv(w, n, id);
    }
  }

  const START := World(map[], [])

  lemma StartIsInv()
    ensures Inv(START)
  {
    assert forall h :: !IsMade([], h);
  }

  lemma {:induction false} RunKeepsInv(w: World, ops: seq<Op>)
    requires Inv(w) && LegalRun(w, ops)
    ensures Inv(Run(w, ops))
    decreases |ops|
  {
    if ops != [] {
      StepKeepsInv(w, ops[0]);
      RunKeepsInv(Step(w, ops[0]), ops[1..]);
    }
  }

  /** No event of the log touches a handle after it was freed, so none is freed twice. */
  lemma NothingAfterFree(log: seq<Event>, i: nat, j: nat)
    requires WellUsed(log) && i < j < |log| && log[i].Freed?
    ensures !Mentions(log[j], log[i].h)
  {
    assert Allowed(log[..j], log[j]);
    assert log[..j][i] == log[i] && log[i] in log[..j];
  }

  /** At every point of every run, each handle in use has exactly one owner, nothing was used after it was freed or freed twice, and no message is left. */
  lemma LiveHandlesHaveOneOwner(ops: seq<Op>, h: Handle)
    requires LegalRun(START, ops)
    ensures var w := Run(START, ops);
      && (Usable(w.log, h) <==> exists id :: OwnedBy(w, id, h))
      && (forall id, other :: OwnedBy(w, id, h) && OwnedBy(w, other, h) ==> id == other)
      && (forall id :: OwnedBy(w, id, h) ==> Made(h, w.wrappers[id].callback) in w.log)
      && (forall i, j :: 0 <= i < j < |w.log| && w.log[i] == Freed(h) ==> !Mentions(w.log[j], h))
      && (forall at: nat :: !LiveMessage(w.log, at))
  {
    StartIsInv();
    RunKeepsInv(START, ops);
    var w := Run(START, ops);
    forall i, j | 0 <= i < j < |w.log| && w.log[i] == Freed(h) ensures !Mentions(w.log[j], h) {
      NothingAfterFree(w.log, i, j);
    }
  }

  /** A handle is freed only right after it was closed. */
  ghost predicate FreedAfterClose(log: seq<Event>)
  {
    forall i :: 0 <= i < |log| && log[i].Freed? ==>
      0 < i && log[i - 1].Called? && log[i - 1].h == log[i].h && log[i - 1].call.Close?
  }

  lemma EventsCloseFirst(log: seq<Event>, h: Handle, call: Call, reply: Reply, free: bool)
    requires FreedAfterClose(log) && (free ==> call.Close?)
    ensures FreedAfterClose(log + CallEvents(|log|, h, call, reply, free))
  {
    var events := CallEvents(|log|, h, call, reply, free);
    assert events[0] == Called(h, call, reply);
    forall i | |log| <= i < |log + events| && (log + events)[i].Freed? ensures i == |log| + 1 && free {
      assert (log + events)[i] == events[i - |log|];
    }
  }

  lemma StepClosesFirst(w: World, op: Op)
    requires Legal(w, op) && FreedAfterClose(w.log)
    ensures FreedAfterClose(Step(w, op).log)
  {
    if op.Construct? || op.MoveConstruct? {
    } else if w.wrappers[op.id].handle.Some? {
      var h := w.wrappers[op.id].handle.value;
      if op.Use? {
        EventsCloseFirst(w.log, h, op.call, op.reply, false);
      } else {
        EventsCloseFirst(w.log, h, Close, op.reply, true);
        EventsCloseFirst(w.log, h, Close, op.reply, false);
      }
    } else {
      assert w.log + [] == w.log;
    }
  }

  lemma {:induction false} RunClosesFirst(w: World, ops: seq<Op>)
    requires LegalRun(w, ops) && FreedAfterClose(w.log)
    ensures FreedAfterClose(Run(w, ops).log)
    decreases |ops|
  {
    if ops != [] {
      StepClosesFirst(w, ops[0]);
      RunClosesFirst(Step(w, ops[0]), ops[1..]);
    }
  }

  /** In every run each free directly follows a close of the same handle: nothing is dropped unflushed. */
  lemma ClosedBeforeFreed(ops: seq<Op>)
    requires LegalRun(START, ops)
    ensures FreedAfterClose(Run(START, ops).log)
  {
    RunClosesFirst(START, ops);
  }

  /** Once every wrapper is gone, each handle ever made has been freed, and freed once. */
  lemma FreedExactlyOnce(ops: seq<Op>, h: Handle)
    requires LegalRun(START, ops) && Run(START, ops).wrappers == map[]
    requires IsMade(Run(START, ops).log, h)
    ensures var log := Run(START, ops).log;
      exists i :: 0 <= i < |log| && log[i] == Freed(h)
        && forall j :: 0 <= j < |log| && log[j] == Freed(h) ==> j == i
  {
    LiveHandlesHaveOneOwner(ops, h);
    var w := Run(START, ops);
    assert !Usable(w.log, h);
    var i :| 0 <= i < |w.log| && w.log[i] == Freed(h);
    forall j | 0 <= j < |w.log| && w.log[j] == Freed(h) ensures j == i {
      assert Mentions(w.log[j], h) && Mentions(w.log[i], h);
    }
  }

  /** Every error message a call allocated has been freed, and freed once. */
  lemma MessagesFreedExactlyOnce(ops: seq<Op>, at: nat)
    requires LegalRun(START, ops)
    requires var log := Run(START, ops).log;
      at < |log| && log[at].Called? && log[at].reply.message.Some?
    ensures var log := Run(START, ops).log;
      exists i :: at < i < |log| && log[i] == MessageFreed(at)
        && forall j :: 0 <= j < |log| && log[j] == MessageFreed(at) ==> j == i
  {
    StartIsInv();
    RunKeepsInv(START, ops);
    var log := Run(START, ops).log;
    assert !LiveMessage(log, at);
    var i :| 0 <= i < |log| && log[i] == MessageFreed(at);
    assert Allowed(log[..i], log[i]);
    assert forall j, k :: 0 <= k < j < |log| && log[j] == MessageFreed(at) ==>
        Allowed(log[..j], log[j]) && log[..j][k] == log[k];
  }

  // ------------------------------------------------- the classes take these steps

  function Objects(vars: map<nat, Stream>): set<Stream>
  {
    set id | id in vars :: vars[id]
  }

  /** The program's variables hold distinct objects, which with the native log are the world. */
  ghost predicate Matches(native: Native, vars: map<nat, Stream>, w: World)
    reads native, Objects(vars)
  {
    && native.log == w.log && vars.Keys == w.wrappers.Keys
    && (forall id :: id in vars ==> vars[id].native == native && vars[id].View() == w.wrappers[id])
    && (forall id, other :: id in vars && other in vars && vars[id] == vars[other] ==> id == other)
  }

  method PerformMove(native: Native, vars: map<nat, Stream>, op: Op, ghost w: World)
    requires Inv(w) && Legal(w, op) && Matches(native, vars, w) && op.MoveAssign?
    modifies native, Objects(vars)
    ensures Matches(native, vars, Step(w, op))
  {
    OwnsUsable(w, op.id);
    vars[op.id].MoveAssign(vars[op.src], op.reply);
  }

  /** A call on one variable, or the end of it. */
  method PerformOn(native: Native, vars: map<nat, Stream>, op: Op, ghost w: World) returns (now: map<nat, Stream>)
    requires Inv(w) && Legal(w, op) && Matches(native, vars, w) && (op.Use? || op.CloseIt? || op.Destroy?)
    modifies native, Objects(vars)
    ensures Matches(native, now, Step(w, op)) && Objects(now) <= Objects(vars)
  {
    now := vars;
    OwnsUsable(w, op.id);
    if op.Use? {
      var thrown := vars[op.id].Use(op.call, op.reply);
    } else if op.CloseIt? {
      var thrown := vars[op.id].Close(op.reply);
    } else {
      vars[op.id].Destroy(op.reply);
      now := vars - {op.id};
    }
  }

  /** One operation, as the class performs it, is the step of the world. */
  method Perform(native: Native, vars: map<nat, Stream>, op: Op, ghost w: World) returns (now: map<nat, Stream>)
    requires Inv(w) && Legal(w, op) && Matches(native, vars, w)
    modifies native, Objects(vars)
    ensures Matches(native, now, Step(w, op))
    ensures forall s :: s in Objects(now) ==> s in Objects(vars) || fresh(s)
  {
    if op.Construct? {
      var s := CreateStream(native, op.h, op.callback);
      now := vars[op.id := s];
    } else if op.MoveConstruct? {
      var s := new Stream.Move(vars[op.src]);
      now := vars[op.id := s];
    } else if op.MoveAssign? {
      PerformMove(native, vars, op, w);
      now := vars;
    } else {
      now := PerformOn(native, vars, op, w);
    }
  }

  /** So a whole program of the classes leaves the native log and the wrappers that its run on values says. */
  method Execute(native: Native, ops: seq<Op>) returns (vars: map<nat, Stream>)
    requires native.log == [] && LegalRun(START, ops)
    modifies native
    ensures Matches(native, vars, Run(START, ops))
  {
    vars := map[];
    ghost var w := START;
    StartIsInv();
    for i := 0 to |ops|
      invariant Inv(w) && Matches(native, vars, w) && LegalRun(w, ops[i..]) && Run(w, ops[i..]) == Run(START, ops)
      invariant forall s :: s in Objects(vars) ==> fresh(s)
    {
      vars := Perform(native, vars, ops[i], w);
      StepKeepsInv(w, ops[i]);
      w := Step(w, ops[i]);
      assert ops[i..][1..] == ops[i + 1..];
    }
  }
}
