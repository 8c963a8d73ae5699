/**
 The C++ headers trampoline: asks the user's provider for headers and marshals them into a
 CHeaders whose array and strings come from the Rust allocator, which may fail at any call.
 The caller releases the result with one zerobus_free_headers.
 */
module HeadersTrampoline {
  import opened Common

  /** One array element; None is a null pointer. */
  datatype CHeader = CHeader(key: Option<Ptr>, value: Option<Ptr>)

  datatype CHeaders = CHeaders(headers: Option<Ptr>, count: nat, error: Option<Ptr>)

  function PtrsOfCell(c: CHeader): set<Ptr>
  {
    (if c.key.Some? then {c.key.value} else {}) + (if c.value.Some? then {c.value.value} else {})
  }

  /** Every string the array elements point to. */
  function PtrsOf(cells: seq<CHeader>): set<Ptr>
  {
    if cells == [] then {} else PtrsOf(cells[..|cells| - 1]) + PtrsOfCell(cells[|cells| - 1])
  }

  /** No string is pointed to twice, so freeing all of them frees each once. */
  ghost predicate Distinct(cells: seq<CHeader>)
  {
    cells != [] ==>
      var c := cells[|cells| - 1];
      && (c.key.Some? && c.value.Some? ==> c.key.value != c.value.value)
      && PtrsOf(cells[..|cells| - 1]) !! PtrsOfCell(c)
      && Distinct(cells[..|cells| - 1])
  }

  predicate HasNul(s: Bytes)
  {
    exists i :: 0 <= i < |s| && s[i] == 0
  }

  function NullCells(count: nat): seq<CHeader>
  {
    seq(count, _ => CHeader(None, None))
  }

  /**
   The Rust side: live C strings with their text and live header arrays.  Allocation attempt
   number n fails when n is in `failing`, an arbitrary set.
   */
  class RustHeap {
    var strings: map<Ptr, Bytes>
    var arrays: map<Ptr, seq<CHeader>>
    var attempts: nat
    const failing: iset<nat>

    constructor (failing: iset<nat>)
      ensures strings == map[] && arrays == map[] && attempts == 0 && this.failing == failing
    {
      strings, arrays, attempts := map[], map[], 0;
      this.failing := failing;
    }

    /** zerobus_alloc_cstring */
    method AllocCString(text: Bytes) returns (p: Option<Ptr>)
      modifies this`strings, this`attempts
      ensures attempts == old(attempts) + 1
      ensures p.Some? <==> old(attempts) !in failing && !HasNul(text)
      ensures p.Some? ==> p.value !in old(strings) && strings == old(strings)[p.value := text]
      ensures p.None? ==> strings == old(strings)
    {
      var fails := IsFailing(attempts);
      attempts := attempts + 1;
      if fails || HasNul(text) {
        return None;
      }
      var q := FreshPtr(strings.Keys);
      strings := strings[q := text];
      p := Some(q);
    }

    function IsFailing(n: nat): bool
    {
      n in failing
    }

    /** zerobus_alloc_header_array: zeroed, null for a count of 0 or when it fails */
    method AllocHeaderArray(count: nat) returns (p: Option<Ptr>)
      modifies this`arrays, this`attempts
      ensures attempts == old(attempts) + 1
      ensures p.Some? <==> count > 0 && old(attempts) !in failing
      ensures p.Some? ==> p.value !in old(arrays) && arrays == old(arrays)[p.value := NullCells(count)]
      ensures p.None? ==> arrays == old(arrays)
    {
      var fails := IsFailing(attempts);
      attempts := attempts + 1;
      if count == 0 || fails {
        return None;
      }
      var q := FreshPtr(arrays.Keys);
      arrays := arrays[q := NullCells(count)];
      p := Some(q);
    }

    /** What one zerobus_free_headers may be given: everything it frees is live, and nothing is freed twice. */
    ghost predicate MayFree(h: CHeaders)
      reads this
    {
      && (h.headers.Some? ==>
            && h.headers.value in arrays && h.count <= |arrays[h.headers.value]|
            && Distinct(arrays[h.headers.value][..h.count])
            && PtrsOf(arrays[h.headers.value][..h.count]) <= strings.Keys)
      && (h.error.Some? ==> h.error.value in strings)
      && (h.headers.Some? && h.error.Some? ==> h.error.value !in PtrsOf(arrays[h.headers.value][..h.count]))
    }

    /** The strings reachable from `h`, as zerobus_free_headers reaches them. */
    function StringsOf(h: CHeaders): set<Ptr>
      reads this
      requires h.headers.Some? ==> h.headers.value in arrays && h.count <= |arrays[h.headers.value]|
    {
      (if h.headers.Some? then PtrsOf(arrays[h.headers.value][..h.count]) else {})
      + (if h.error.Some? then {h.error.value} else {})
    }

    /** zerobus_free_headers */
    method FreeHeaders(h: CHeaders)
      requires MayFree(h)
      modifies this`strings, this`arrays
      ensures strings == old(strings) - old(StringsOf(h))
      ensures arrays == old(arrays) - (if h.headers.Some? then {h.headers.value} else {})
    {
      strings := strings - StringsOf(h);
      if h.headers.Some? {
        arrays := arrays - {h.headers.value};
      }
    }

    method SetKey(arr: Ptr, i: nat, p: Option<Ptr>)
      requires arr in arrays && i < |arrays[arr]|
      modifies this`arrays
      ensures arrays == old(arrays)[arr := old(arrays)[arr][i := old(arrays)[arr][i].(key := p)]]
    {
      arrays := arrays[arr := arrays[arr][i := arrays[arr][i].(key := p)]];
    }

    method SetValue(arr: Ptr, i: nat, p: Option<Ptr>)
      requires arr in arrays && i < |arrays[arr]|
      modifies this`arrays
      ensures arrays == old(arrays)[arr := old(arrays)[arr][i := old(arrays)[arr][i].(value := p)]]
    {
      arrays := arrays[arr := arrays[arr][i := arrays[arr][i].(value := p)]];
    }
  }

  /** A C++ string constant. */
  function Ascii(s: string): (b: Bytes)
    ensures |b| == |s| && !HasNul(b)
  {
    seq(|s|, i requires 0 <= i < |s| => if 0 < s[i] as int < 128 then (s[i] as int) as byte else 63)
  }

  /** make_error: an error with its message, or with an empty message when that cannot be allocated */
  method MakeError(heap: RustHeap, message: Bytes) returns (h: CHeaders)
    modifies heap`strings, heap`attempts
    ensures h.headers.None? && h.count == 0
    ensures heap.strings.Keys == old(heap.strings).Keys + (if h.error.Some? then {h.error.value} else {})
    ensures h.error.Some? ==> h.error.value !in old(heap.strings)
    ensures forall p :: p in old(heap.strings) ==> heap.strings[p] == old(heap.strings)[p]
    ensures h.error.None? <==> (old(heap.attempts) in heap.failing || HasNul(message)) && old(heap.attempts) + 1 in heap.failing
    ensures h.error.Some? ==>
              heap.strings[h.error.value] == (if old(heap.attempts) in heap.failing || HasNul(message) then [] else message)
  {
    var e := heap.AllocCString(message);
    if e.None? {
      e := heap.AllocCString([]);
    }
    h := CHeaders(None, 0, e);
  }

  /** What the provider does when asked. */
  datatype Provider =
    | NullUserData | NullProvider
    | Throws(what: Bytes) | ThrowsOther
    | Returns(headers: seq<(Bytes, Bytes)>) // the map, in key order

  predicate CleanPair(kv: (Bytes, Bytes))
  {
    !HasNul(kv.0) && !HasNul(kv.1)
  }

  /** Header `i` is marshalled when it has no NUL and its two strings, allocated from attempt `at` on, are there. */
  ghost predicate MarshalsAt(headers: seq<(Bytes, Bytes)>, failing: iset<nat>, at: nat, i: nat)
    requires i < |headers|
  {
    CleanPair(headers[i]) && at + 2 * i !in failing && at + 2 * i + 1 !in failing
  }

  /** The first header, from `i` on, that is not marshalled; all of them are when it is past the end. */
  ghost function Obstacle(headers: seq<(Bytes, Bytes)>, failing: iset<nat>, at: nat, i: nat): (o: nat)
    requires i <= |headers|
    ensures i <= o <= |headers|
    ensures forall j :: i <= j < o ==> MarshalsAt(headers, failing, at, j)
    ensures o < |headers| ==> !MarshalsAt(headers, failing, at, o)
    decreases |headers| - i
  {
    if i == |headers| || !MarshalsAt(headers, failing, at, i) then i else Obstacle(headers, failing, at, i + 1)
  }

  /** How many strings are asked for before the obstacle is met: a NUL is seen first, a failed allocation after both attempts. */
  ghost function Asked(headers: seq<(Bytes, Bytes)>, failing: iset<nat>, at: nat): nat
  {
    var o := Obstacle(headers, failing, at, 0);
    2 * o + (if o < |headers| && CleanPair(headers[o]) then 2 else 0)
  }

  /** The run in which every header is marshalled: the array is allocated at attempt `at` and no header fails. */
  ghost predicate Marshals(headers: seq<(Bytes, Bytes)>, failing: iset<nat>, at: nat)
  {
    headers != [] ==> at !in failing && Obstacle(headers, failing, at + 1, 0) == |headers|
  }

  /** The obstacle is a NUL, not an allocation. */
  ghost predicate StopsAtNul(headers: seq<(Bytes, Bytes)>, failing: iset<nat>, at: nat)
  {
    at !in failing &&
    var o := Obstacle(headers, failing, at + 1, 0); o < |headers| && !CleanPair(headers[o])
  }

  /** The allocation attempts that marshalling makes, the array's among them. */
  ghost function Attempts(headers: seq<(Bytes, Bytes)>, failing: iset<nat>, at: nat): nat
  {
    if at in failing then 1 else 1 + Asked(headers, failing, at + 1)
  }

  /** Reading `cells` as the Rust side does gives `headers`, in order. */
  ghost predicate Decodes(strings: map<Ptr, Bytes>, cells: seq<CHeader>, headers: seq<(Bytes, Bytes)>)
  {
    && |cells| == |headers|
    && forall i :: 0 <= i < |cells| ==>
         && cells[i].key.Some? && cells[i].key.value in strings && strings[cells[i].key.value] == headers[i].0
         && cells[i].value.Some? && cells[i].value.value in strings && strings[cells[i].value.value] == headers[i].1
  }

  /** `now` is `before` plus exactly the strings in `ptrs`, which are new. */
  ghost predicate Grown(before: map<Ptr, Bytes>, now: map<Ptr, Bytes>, ptrs: set<Ptr>)
  {
    && now.Keys == before.Keys + ptrs && before.Keys !! ptrs
    && forall p :: p in before ==> now[p] == before[p]
  }

  lemma PtrsOfSnoc(cells: seq<CHeader>, c: CHeader)
    ensures PtrsOf(cells + [c]) == PtrsOf(cells) + PtrsOfCell(c)
    ensures Distinct(cells + [c]) <==> Distinct(cells) && PtrsOf(cells) !! PtrsOfCell(c)
                                       && (c.key.Some? && c.value.Some? ==> c.key.value != c.value.value)
  {
    assert (cells + [c])[..|cells|] == cells;
  }

  /** One cell more, its strings just allocated. */
  lemma CellAdded(before: map<Ptr, Bytes>, mid: map<Ptr, Bytes>, now: map<Ptr, Bytes>, cells: seq<CHeader>, c: CHeader)
    requires Distinct(cells) && Grown(before, mid, PtrsOf(cells)) && Grown(mid, now, PtrsOfCell(c))
    requires c.key.Some? && c.value.Some? ==> c.key.value != c.value.value
    ensures Distinct(cells + [c]) && Grown(before, now, PtrsOf(cells + [c]))
  {
    PtrsOfSnoc(cells, c);
  }

  lemma DecodesSnoc(mid: map<Ptr, Bytes>, now: map<Ptr, Bytes>, cells: seq<CHeader>, c: CHeader,
                    headers: seq<(Bytes, Bytes)>, kv: (Bytes, Bytes))
    requires Decodes(mid, cells, headers) && Grown(mid, now, PtrsOfCell(c))
    requires c.key.Some? && c.value.Some? && now[c.key.value] == kv.0 && now[c.value.value] == kv.1
    ensures Decodes(now, cells + [c], headers + [kv])
  {
  }

  /** Allocates and stores the two strings of entry `i`. */
  method FillCell(heap: RustHeap, arr: Ptr, i: nat, kv: (Bytes, Bytes)) returns (ok: bool)
    requires arr in heap.arrays && i < |heap.arrays[arr]| && CleanPair(kv)
    modifies heap
    ensures heap.attempts == old(heap.attempts) + 2
    ensures ok <==> old(heap.attempts) !in heap.failing && old(heap.attempts) + 1 !in heap.failing
    ensures arr in heap.arrays && |heap.arrays[arr]| == |old(heap.arrays)[arr]|
    ensures var c := heap.arrays[arr][i];
            && heap.arrays == old(heap.arrays)[arr := old(heap.arrays)[arr][i := c]]
            && Grown(old(heap.strings), heap.strings, PtrsOfCell(c))
            && (c.key.Some? && c.value.Some? ==> c.key.value != c.value.value)
            && (ok ==> c.key.Some? && c.value.Some? && heap.strings[c.key.value] == kv.0 && heap.strings[c.value.value] == kv.1)
  {
    var k := heap.AllocCString(kv.0);
    heap.SetKey(arr, i, k);
    var v := heap.AllocCString(kv.1);
    heap.SetValue(arr, i, v);
    ghost var cells := old(heap.arrays)[arr];
    assert cells[i := cells[i].(key := k)][i := CHeader(k, v)] == cells[i := CHeader(k, v)];
    ok := k.Some? && v.Some?;
  }

  /**
   free_partial_headers, given the cells filled so far: whatever was allocated since `before`
   is gone again, the array included.
   */
  method FreePartial(heap: RustHeap, arr: Ptr, count: nat, ghost before: map<Ptr, Bytes>)
    requires arr in heap.arrays && count <= |heap.arrays[arr]|
    requires Partly(before, heap.strings, heap.arrays[arr][..count])
    modifies heap
    ensures heap.strings == before && heap.arrays == old(heap.arrays) - {arr} && heap.attempts == old(heap.attempts)
  {
    heap.FreeHeaders(CHeaders(Some(arr), count, None));
  }

  /** Outcome of a headers call against the heap as it was: exactly what the result reaches is new. */
  twostate predicate ExactlyReachable(heap: RustHeap, h: CHeaders)
    reads heap
  {
    && heap.MayFree(h)
    && Grown(old(heap.strings), heap.strings, heap.StringsOf(h))
    && heap.arrays.Keys == old(heap.arrays).Keys + (if h.headers.Some? then {h.headers.value} else {})
    && (h.headers.Some? ==> h.headers.value !in old(heap.arrays) && h.count == |heap.arrays[h.headers.value]|)
    && (forall p :: p in old(heap.arrays) ==> heap.arrays[p] == old(heap.arrays)[p])
  }

  /** The cells so far own exactly what was allocated since `before`. */
  ghost predicate Partly(before: map<Ptr, Bytes>, now: map<Ptr, Bytes>, cells: seq<CHeader>)
  {
    Distinct(cells) && Grown(before, now, PtrsOf(cells))
  }

  /** One iteration of the loop over the headers, after which `n` cells may own strings. */
  method AddCell(heap: RustHeap, a: Ptr, i: nat, headers: seq<(Bytes, Bytes)>, ghost before: map<Ptr, Bytes>)
    returns (ok: bool, n: nat, nul: bool)
    requires a in heap.arrays && i < |heap.arrays[a]| == |headers|
    requires Partly(before, heap.strings, heap.arrays[a][..i])
    requires Decodes(heap.strings, heap.arrays[a][..i], headers[..i])
    modifies heap
    ensures nul <==> !CleanPair(headers[i])
    ensures heap.attempts == old(heap.attempts) + if nul then 0 else 2
    ensures ok <==> !nul && old(heap.attempts) !in heap.failing && old(heap.attempts) + 1 !in heap.failing
    ensures a in heap.arrays && |heap.arrays[a]| == |headers| && n == if nul then i else i + 1
    ensures heap.arrays == old(heap.arrays)[a := heap.arrays[a]]
    ensures Partly(before, heap.strings, heap.arrays[a][..n])
    ensures ok ==> Decodes(heap.strings, heap.arrays[a][..n], headers[..n])
  {
    if HasNul(headers[i].0) || HasNul(headers[i].1) {
      return false, i, true;
    }
    ghost var mid, cells := heap.strings, heap.arrays[a][..i];
    ok := FillCell(heap, a, i, headers[i]);
    n, nul := i + 1, false;
    ghost var c := heap.arrays[a][i];
    assert heap.arrays[a][..i + 1] == cells + [c];
    CellAdded(before, mid, heap.strings, cells, c);
    if ok {
      assert headers[..i + 1] == headers[..i] + [headers[i]];
      DecodesSnoc(mid, heap.strings, cells, c, headers[..i], headers[i]);
    }
  }

  lemma Overwritten(m: map<Ptr, seq<CHeader>>, a: Ptr, x: seq<CHeader>, y: seq<CHeader>)
    ensures m[a := x][a := y] == m[a := y]
  {
  }

  /** The loop over the provider's headers: fills `count` cells, stopping at a NUL or a failed allocation. */
  method FillCells(heap: RustHeap, a: Ptr, headers: seq<(Bytes, Bytes)>) returns (ok: bool, count: nat, nul: bool)
    requires a in heap.arrays && heap.arrays[a] == NullCells(|headers|)
    modifies heap
    ensures heap.attempts == old(heap.attempts) + Asked(headers, heap.failing, old(heap.attempts))
    ensures a in heap.arrays && |heap.arrays[a]| == |headers| && count <= |headers|
    ensures heap.arrays == old(heap.arrays)[a := heap.arrays[a]]
    ensures Partly(old(heap.strings), heap.strings, heap.arrays[a][..count])
    ensures var o := Obstacle(headers, heap.failing, old(heap.attempts), 0);
      (ok <==> o == |headers|) && (nul <==> o < |headers| && !CleanPair(headers[o]))
    ensures ok ==> count == |headers| && Decodes(heap.strings, heap.arrays[a], headers)
  {
    ok, count, nul := true, 0, false;
    ghost var before, arrays, at := heap.strings, heap.arrays, heap.attempts;
    ghost var o := Obstacle(headers, heap.failing, at, 0);
    assert heap.arrays[a][..0] == [] && headers[..0] == [];
    while ok && count < |headers|
      invariant 0 <= count <= |headers|
      invariant a in heap.arrays && |heap.arrays[a]| == |headers|
      invariant heap.arrays == arrays[a := heap.arrays[a]]
      invariant ok ==> !nul && count <= o && heap.attempts == at + 2 * count
      invariant !ok ==> o < |headers| && nul == !CleanPair(headers[o]) && heap.attempts == at + Asked(headers, heap.failing, at)
      invariant Partly(before, heap.strings, heap.arrays[a][..count])
      invariant ok ==> Decodes(heap.strings, heap.arrays[a][..count], headers[..count])
      decreases ok, |headers| - count
    {
      assert o == count <==> !MarshalsAt(headers, heap.failing, at, count);
      ghost var was := heap.arrays[a];
      ok, count, nul := AddCell(heap, a, count, headers, before);
      Overwritten(arrays, a, was, heap.arrays[a]);
    }
    if ok {
      assert heap.arrays[a][..count] == heap.arrays[a] && headers[..count] == headers;
    }
  }

  /**
   Marshalling the provider's headers.  On success every header is there in key order; on
   failure everything allocated for them has been given back, and the first obstacle is named.
   */
  method MarshalHeaders(heap: RustHeap, headers: seq<(Bytes, Bytes)>) returns (arr: Option<Ptr>, nul: bool)
    requires headers != []
    modifies heap
    ensures arr.Some? <==> Marshals(headers, heap.failing, old(heap.attempts))
    ensures nul <==> StopsAtNul(headers, heap.failing, old(heap.attempts))
    ensures heap.attempts == old(heap.attempts) + Attempts(headers, heap.failing, old(heap.attempts))
    ensures arr.None? ==> heap.strings == old(heap.strings) && heap.arrays == old(heap.arrays)
    ensures arr.Some? ==>
              && arr.value !in old(heap.arrays) && heap.arrays.Keys == old(heap.arrays).Keys + {arr.value}
              && (forall p :: p in old(heap.arrays) ==> heap.arrays[p] == old(heap.arrays)[p])
              && Partly(old(heap.strings), heap.strings, heap.arrays[arr.value])
              && Decodes(heap.strings, heap.arrays[arr.value], headers)
  {
    nul := false;
    arr := heap.AllocHeaderArray(|headers|);
    if arr.None? { return; }
    var a := arr.value;
    ghost var before := heap.strings;
    var ok, count;
    ok, count, nul := FillCells(heap, a, headers);
    if !ok {
      FreePartial(heap, a, count, before);
      return None, nul;
    }
    assert heap.arrays[a][..count] == heap.arrays[a];
  }

  function ProviderError(p: Provider): Bytes
    requires !p.Returns?
  {
    match p
    case Throws(what) => what
    case ThrowsOther => Ascii("headers provider threw a non-std::exception")
    case _ => Ascii("null headers provider")
  }

  function MarshalError(nul: bool): Bytes
  {
    if nul then Ascii("header key or value contains an embedded NUL byte")
    else Ascii("out of memory marshalling headers")
  }

  /** The outcome in which the provider's headers are returned. */
  ghost predicate Succeeds(p: Provider, failing: iset<nat>, at: nat)
  {
    p.Returns? && Marshals(p.headers, failing, at)
  }

  /** The allocation attempt an error's message is made with, when the call starts at attempt `at`; the empty fallback is the next. */
  ghost function ErrorAttempt(p: Provider, failing: iset<nat>, at: nat): nat
  {
    if p.Returns? then at + Attempts(p.headers, failing, at) else at
  }

  /** What the error says. */
  ghost function ErrorText(p: Provider, failing: iset<nat>, at: nat): Bytes
  {
    if p.Returns? then MarshalError(StopsAtNul(p.headers, failing, at)) else ProviderError(p)
  }

  /**
   The error names its cause: what was thrown, or the first header with a NUL in its key or
   value when no allocation failed before it, or else the memory.
   */
  lemma ErrorNamesItsCause(p: Provider, failing: iset<nat>, at: nat)
    requires !Succeeds(p, failing, at)
    ensures p.Throws? ==> ErrorText(p, failing, at) == p.what
    ensures p.ThrowsOther? ==> ErrorText(p, failing, at) == Ascii("headers provider threw a non-std::exception")
    ensures p.NullUserData? || p.NullProvider? ==> ErrorText(p, failing, at) == Ascii("null headers provider")
    ensures p.Returns? ==>
      var nul := Ascii("header key or value contains an embedded NUL byte");
      var memory := Ascii("out of memory marshalling headers");
      if exists i :: FirstNul(p.headers, failing, at, i) then ErrorText(p, failing, at) == nul
      else ErrorText(p, failing, at) == memory
  {
    if p.Returns? {
      var o := Obstacle(p.headers, failing, at + 1, 0);
      if i :| FirstNul(p.headers, failing, at, i) {
        assert !MarshalsAt(p.headers, failing, at + 1, i);
        assert o < |p.headers|;
        assert i == o;
      }
      if StopsAtNul(p.headers, failing, at) { StopIsFirstNul(p.headers, failing, at); }
    }
  }

  lemma StopIsFirstNul(headers: seq<(Bytes, Bytes)>, failing: iset<nat>, at: nat)
    requires StopsAtNul(headers, failing, at)
    ensures FirstNul(headers, failing, at, Obstacle(headers, failing, at + 1, 0))
  {
    var o := Obstacle(headers, failing, at + 1, 0);
    forall j | 0 <= j < o ensures !HasNul(headers[j].0) && !HasNul(headers[j].1) {
      assert MarshalsAt(headers, failing, at + 1, j);
    }
    forall k | at < k <= at + 2 * o ensures k !in failing {
      assert MarshalsAt(headers, failing, at + 1, (k - at - 1) / 2);
    }
  }

  /** Header `i` is the first with a NUL, and the array's allocation and those of all earlier headers succeed. */
  ghost predicate FirstNul(headers: seq<(Bytes, Bytes)>, failing: iset<nat>, at: nat, i: nat)
  {
    && i < |headers| && (HasNul(headers[i].0) || HasNul(headers[i].1))
    && (forall j :: 0 <= j < i ==> !HasNul(headers[j].0) && !HasNul(headers[j].1))
    && forall k :: at <= k <= at + 2 * i ==> k !in failing
  }

  /** zerobus_cpp_headers_trampoline */
  method Trampoline(heap: RustHeap, provider: Provider) returns (h: CHeaders)
    requires provider.Throws? ==> !HasNul(provider.what)
    modifies heap
    // whatever fails, exactly what the result reaches is new
    ensures ExactlyReachable(heap, h)
    // the provider's map in key order, or an error and no header at all
    ensures Succeeds(provider, heap.failing, old(heap.attempts)) ==>
              h.error.None? && h.count == |provider.headers|
              && (if h.headers.None? then provider.headers == [] else Decodes(heap.strings, heap.arrays[h.headers.value], provider.headers))
    ensures !Succeeds(provider, heap.failing, old(heap.attempts)) ==> h.headers.None? && h.count == 0
    // an error is lost, and read as "no headers", exactly when its message and the empty fallback both fail to allocate
    ensures !Succeeds(provider, heap.failing, old(heap.attempts)) ==>
              var e := ErrorAttempt(provider, heap.failing, old(heap.attempts));
              h.error.None? <==> e in heap.failing && e + 1 in heap.failing
    // and it says what went wrong, as far as its message could be allocated
    ensures h.error.Some? ==>
              var e := ErrorAttempt(provider, heap.failing, old(heap.attempts));
              heap.strings[h.error.value] ==
                (if e in heap.failing then [] else ErrorText(provider, heap.failing, old(heap.attempts)))
  {
    if !provider.Returns? {
      h := MakeError(heap, ProviderError(provider));
      return;
    }
    if provider.headers == [] {
      return CHeaders(None, 0, None);
    }
    var arr, nul := MarshalHeaders(heap, provider.headers);
    if arr.None? {
      h := MakeError(heap, MarshalError(nul));
      return;
    }
    h := CHeaders(arr, |provider.headers|, None);
    assert heap.arrays[arr.value][..h.count] == heap.arrays[arr.value];
  }

  /** The caller's side: one zerobus_free_headers after the call leaves the heap as it was, for every failure pattern. */
  method CallThenFree(heap: RustHeap, provider: Provider)
    requires provider.Throws? ==> !HasNul(provider.what)
    modifies heap
    ensures heap.strings == old(heap.strings) && heap.arrays == old(heap.arrays)
  {
    var h := Trampoline(heap, provider);
    heap.FreeHeaders(h);
  }
}
