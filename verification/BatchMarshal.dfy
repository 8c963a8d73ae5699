/**
 How batches cross the C interface: the pointer and length arrays that C++
 (cpp/src/stream.cpp) and Go (go/ffi.go) build for records on their way in, and
 the record array that Rust (rust/ffi/src/stream.rs) builds and C++ copies out
 for records on their way back.
 */
module BatchMarshal {
  import opened Common

  const NUL: byte := 0

  // -------------------------------------------------- protobuf records, in

  /** Byte-addressed memory. */
  type Memory = map<Ptr, byte>

  /** What std::slice::from_raw_parts asks for, also when the length is 0. */
  predicate Readable(mem: Memory, p: Ptr, len: nat)
  {
    p != NULL && forall i :: p <= i < p + len ==> i in mem
  }

  function Slice(mem: Memory, p: Ptr, len: nat): (s: Bytes)
    requires len > 0 ==> Readable(mem, p, len)
    ensures |s| == len
  {
    seq(len, i requires 0 <= i < len => mem[p + i])
  }

  /** A caller's record: a vector or a slice, whose data pointer may be anything when it is empty. */
  datatype Record = Record(data: Ptr, bytes: Bytes)

  predicate Stored(mem: Memory, r: Record)
  {
    r.bytes != [] ==> Readable(mem, r.data, |r.bytes|) && Slice(mem, r.data, |r.bytes|) == r.bytes
  }

  predicate AllStored(mem: Memory, records: seq<Record>)
  {
    forall r :: r in records ==> Stored(mem, r)
  }

  function BytesOf(records: seq<Record>): seq<Bytes>
  {
    seq(|records|, i requires 0 <= i < |records| => records[i].bytes)
  }

  /** The arrays a batch call passes. */
  datatype Batch = Batch(ptrs: seq<Ptr>, lens: seq<nat>)

  /** What zerobus_stream_ingest_proto_records may rely on. */
  predicate FitToRead(mem: Memory, b: Batch)
  {
    |b.ptrs| == |b.lens| && forall i :: 0 <= i < |b.ptrs| ==> Readable(mem, b.ptrs[i], b.lens[i])
  }

  /** The records Rust collects from the arrays, an empty slice wherever the length is 0. */
  function Collected(mem: Memory, b: Batch): seq<Bytes>
    requires |b.ptrs| == |b.lens|
    requires forall i :: 0 <= i < |b.ptrs| && b.lens[i] > 0 ==> Readable(mem, b.ptrs[i], b.lens[i])
  {
    seq(|b.ptrs|, i requires 0 <= i < |b.ptrs| => Slice(mem, b.ptrs[i], b.lens[i]))
  }

  /** make_proto_batch; `sentinel` is the address of the static byte that stands in for empty payloads. */
  method MakeProtoBatch(records: seq<Record>, sentinel: Ptr, ghost mem: Memory) returns (b: Batch)
    requires AllStored(mem, records) && Readable(mem, sentinel, 0)
    ensures FitToRead(mem, b) && Collected(mem, b) == BytesOf(records)
  {
    var ptrs: seq<Ptr>, lens: seq<nat> := [], [];
    for i := 0 to |records|
      invariant |ptrs| == |lens| == i
      invariant forall k :: 0 <= k < i ==> lens[k] == |records[k].bytes|
      invariant forall k :: 0 <= k < i ==>
        ptrs[k] == if records[k].bytes == [] then sentinel else records[k].data
    {
      var r := records[i];
      ptrs := ptrs + [if r.bytes == [] then sentinel else r.data];
      lens := lens + [|r.bytes|];
    }
    b := Batch(ptrs, lens);
    assert forall k :: 0 <= k < |records| ==> Stored(mem, records[k]);
  }

  /** The arrays Go fills: calloc'ed, and written only for records that hold something. */
  method FillGoBatch(records: seq<Record>, ptrs: array<Ptr>, lens: array<nat>)
    requires ptrs.Length == lens.Length == |records| && ptrs != lens
    requires forall k :: 0 <= k < |records| ==> ptrs[k] == NULL && lens[k] == 0
    modifies ptrs, lens
    ensures Batch(ptrs[..], lens[..]) == GoBatch(records)
  {
    ghost var b := GoBatch(records);
    for i := 0 to |records|
      invariant forall k :: 0 <= k < i ==> ptrs[k] == b.ptrs[k] && lens[k] == b.lens[k]
      invariant forall k :: i <= k < |records| ==> ptrs[k] == NULL && lens[k] == 0
    {
      if |records[i].bytes| > 0 {
        ptrs[i] := records[i].data;
        lens[i] := |records[i].bytes|;
      } else {
        assert records[i].bytes == [];
      }
    }
  }

  function GoBatch(records: seq<Record>): Batch
  {
    Batch(seq(|records|, i requires 0 <= i < |records| =>
            if records[i].bytes == [] then NULL else records[i].data),
          seq(|records|, i requires 0 <= i < |records| => |records[i].bytes|))
  }

  /** Both layouts read back as the records, empty ones included. */
  lemma GoBatchReadsBack(mem: Memory, records: seq<Record>)
    requires AllStored(mem, records)
    ensures var b := GoBatch(records);
      && (forall i :: 0 <= i < |b.ptrs| && b.lens[i] > 0 ==> Readable(mem, b.ptrs[i], b.lens[i]))
      && Collected(mem, b) == BytesOf(records)
  {
    forall i | 0 <= i < |records| ensures Stored(mem, records[i]) && (records[i].bytes == [] <==> |records[i].bytes| == 0) {
      assert records[i] in records;
    }
    assert forall i :: 0 <= i < |records| && records[i].bytes == [] ==>
        Slice(mem, GoBatch(records).ptrs[i], 0) == records[i].bytes;
  }

  /** The C allocator, as far as a call's own blocks go. */
  class CHeap {
    var live: set<Ptr>

    method Alloc(outOfMemory: bool) returns (p: Ptr)
      modifies this
      ensures outOfMemory ==> p == NULL && live == old(live)
      ensures !outOfMemory ==> p != NULL && p !in old(live) && live == old(live) + {p}
    {
      if outOfMemory { return NULL; }
      p := FreshPtr(live);
      live := live + {p};
    }

    method Free(p: Ptr)
      requires p in live
      modifies this
      ensures live == old(live) - {p}
    {
      live := live - {p};
    }
  }

  /** streamIngestProtoRecords: `answer` is what Rust says if it is asked. */
  method GoIngestProto(heap: CHeap, records: seq<Record>, noPtrs: bool, noLens: bool, answer: Reply)
    returns (sent: Option<Batch>, out: Outcome)
    modifies heap
    ensures heap.live == old(heap.live)
    ensures sent == if records == [] || noPtrs || noLens then None else Some(GoBatch(records))
    ensures out ==
      if records == [] then Returned(-1)
      else if noPtrs then Threw("out of memory allocating record pointer array")
      else if noLens then Threw("out of memory allocating record length array")
      else GoOutcome(answer)
  {
    sent := None;
    if |records| == 0 { return sent, Returned(-1); }
    var cPtrs := heap.Alloc(noPtrs);
    if cPtrs == NULL { return sent, Threw("out of memory allocating record pointer array"); }
    var cLens := heap.Alloc(noLens);
    if cLens == NULL {
      heap.Free(cPtrs);
      return sent, Threw("out of memory allocating record length array");
    }
    var ptrs := new Ptr[|records|](_ => NULL);
    var lens := new nat[|records|](_ => 0);
    FillGoBatch(records, ptrs, lens);
    sent := Some(Batch(ptrs[..], lens[..]));
    out := GoOutcome(answer);
    heap.Free(cLens);
    heap.Free(cPtrs);
  }

  /** streamIngestJSONRecords: every C string is freed, then the array. */
  method GoIngestJson(heap: CHeap, records: seq<Bytes>, noArray: bool, answer: Reply)
    returns (sent: Option<seq<Bytes>>, out: Outcome)
    modifies heap
    ensures heap.live == old(heap.live)
    ensures sent == if records == [] || noArray then None else Some(CStrings(records))
    ensures out ==
      if records == [] then Returned(-1)
      else if noArray then Threw("out of memory allocating C string array")
      else GoOutcome(answer)
  {
    sent := None;
    if |records| == 0 { return sent, Returned(-1); }
    var cArray := heap.Alloc(noArray);
    if cArray == NULL { return sent, Threw("out of memory allocating C string array"); }
    ghost var before := heap.live;
    var cStrings: seq<Ptr>, texts: seq<Bytes> := [], [];
    for i := 0 to |records|
      invariant texts == CStrings(records[..i]) && |cStrings| == i
      invariant forall p :: p in cStrings ==> p !in before
      invariant forall j, k :: 0 <= j < k < i ==> cStrings[j] != cStrings[k]
      invariant heap.live == before + (set p | p in cStrings)
    {
      var p := heap.Alloc(false);
      cStrings := cStrings + [p];
      texts := texts + [records[i] + [NUL]];
    }
    assert records[..|records|] == records;
    sent := Some(texts);
    out := GoOutcome(answer);
    for i := 0 to |cStrings|
      invariant heap.live == before + (set p | p in cStrings[i..])
    {
      heap.Free(cStrings[i]);
      assert cStrings[i..] == [cStrings[i]] + cStrings[i + 1..];
    }
    heap.Free(cArray);
  }

  /** But only the sentinel keeps the pointers non-null: Go's layout meets what the slices ask for exactly when no record is empty. */
  lemma GoBatchIsFitExactly(mem: Memory, records: seq<Record>)
    requires AllStored(mem, records)
    ensures FitToRead(mem, GoBatch(records)) <==> forall r :: r in records ==> r.bytes != []
  {
    var b := GoBatch(records);
    assert forall i :: 0 <= i < |records| ==> Stored(mem, records[i]);
    if FitToRead(mem, b) {
      forall r | r in records ensures r.bytes != [] {
        var i :| 0 <= i < |records| && records[i] == r;
        assert Readable(mem, b.ptrs[i], b.lens[i]);
      }
    } else {
      var i :| 0 <= i < |records| && !Readable(mem, b.ptrs[i], b.lens[i]);
      assert records[i] in records;
    }
  }

  // ------------------------------------------------------------ replies

  /** What Rust answers to a batch: an offset, nothing for an empty batch, or an error. */
  datatype CoreResult = Last(offset: nat) | NoRecords | Failed(message: string)

  datatype Reply = Reply(offset: int, success: bool, message: string)

  function Answer(r: CoreResult): Reply
  {
    match r
    case Last(o) => Reply(o, true, "")
    case NoRecords => Reply(-2, true, "")
    case Failed(m) => Reply(-1, false, m)
  }

  /** Offset -1 with no error is how both bindings report an empty batch. */
  datatype Outcome = Returned(offset: int) | Threw(message: string)

  function GoOutcome(r: Reply): Outcome
  {
    if r.offset == -2 then Returned(-1)
    else if r.offset < 0 then (if r.success then Returned(-1) else Threw(r.message))
    else Returned(r.offset)
  }

  function CppOutcome(r: Reply): Outcome
  {
    if !r.success then Threw(r.message)
    else if r.offset < 0 then Threw("unexpected negative offset from Zerobus FFI")
    else Returned(r.offset)
  }

  /** The bindings report the same thing unless Rust finds a batch empty that they sent as not empty. */
  lemma BindingsAgreeExactly(r: CoreResult)
    ensures GoOutcome(Answer(r)) == CppOutcome(Answer(r)) <==> !r.NoRecords?
    ensures r.Last? ==> CppOutcome(Answer(r)) == Returned(r.offset)
    ensures r.Failed? ==> CppOutcome(Answer(r)) == Threw(r.message)
    ensures r.NoRecords? ==> GoOutcome(Answer(r)) == Returned(-1)
    ensures r.NoRecords? ==> CppOutcome(Answer(r)) == Threw("unexpected negative offset from Zerobus FFI")
  {}

  // ------------------------------------------------------- JSON records, in

  /** The C string at a pointer ends at the first NUL. */
  function ReadCString(block: Bytes): Bytes
  {
    if block == [] || block[0] == NUL then [] else [block[0]] + ReadCString(block[1..])
  }

  function ReadAll(blocks: seq<Bytes>): seq<Bytes>
  {
    seq(|blocks|, i requires 0 <= i < |blocks| => ReadCString(blocks[i]))
  }

  lemma {:induction false} ReadsBackExactly(s: Bytes)
    ensures ReadCString(s + [NUL]) == s <==> NUL !in s
  {
    if s != [] {
      assert (s + [NUL])[1..] == s[1..] + [NUL];
      ReadsBackExactly(s[1..]);
      if s[0] != 0 {
        assert s == [s[0]] + s[1..];
        assert ReadCString(s + [NUL])[1..] == ReadCString(s[1..] + [NUL]);
      }
    }
  }

  /** C.CString copies and adds the NUL. */
  function CStrings(records: seq<Bytes>): seq<Bytes>
  {
    seq(|records|, i requires 0 <= i < |records| => records[i] + [NUL])
  }

  /** Go does not look for NULs, so its JSON batch arrives whole exactly when there is none. */
  lemma GoJsonReadsBackExactly(records: seq<Bytes>)
    ensures ReadAll(CStrings(records)) == records <==> forall r :: r in records ==> NUL !in r
  {
    forall i | 0 <= i < |records|
      ensures ReadAll(CStrings(records))[i] == records[i] <==> NUL !in records[i]
    {
      ReadsBackExactly(records[i]);
    }
  }

  /** make_json_batch: all or nothing. */
  method MakeJsonBatch(records: seq<Bytes>) returns (r: Option<seq<Bytes>>)
    ensures r.Some? <==> forall x :: x in records ==> NUL !in x
    ensures r.Some? ==> ReadAll(r.value) == records
  {
    var ptrs: seq<Bytes> := [];
    for i := 0 to |records|
      invariant |ptrs| == i
      invariant forall k :: 0 <= k < i ==> NUL !in records[k]
      invariant ptrs == CStrings(records[..i])
    {
      if NUL in records[i] { return None; }
      ptrs := ptrs + [records[i] + [NUL]];
    }
    assert records[..|records|] == records;
    GoJsonReadsBackExactly(records);
    r := Some(ptrs);
  }

  // ---------------------------------------------------- records, on the way out

  datatype Encoded = Proto(bytes: Bytes) | Json(bytes: Bytes)

  /** CRecord; `data` of an empty record dangles. */
  datatype CRecord = CRecord(isJson: bool, data: Ptr, len: nat)

  datatype UnackedRecord = UnackedRecord(isJson: bool, bytes: Bytes)

  /** A forgotten Vec<CRecord>: its elements, and how many it has room for. */
  datatype CArray = CArray(cells: seq<CRecord>, capacity: nat)

  /**
   Rust's allocations: the record blocks and the arrays of records.  `misfreed` is set by giving
   an array back as a Vec of another capacity than it was allocated with, which the allocator
   does not allow.
   */
  class RustHeap {
    var blocks: map<Ptr, Bytes>
    var arrays: map<Ptr, CArray>
    var misfreed: bool

    /** Box::into_raw of a boxed slice; an empty one takes no memory and its pointer is only non-null. */
    method AllocBlock(bytes: Bytes) returns (p: Ptr)
      modifies this
      ensures p != NULL && arrays == old(arrays) && misfreed == old(misfreed)
      ensures bytes == [] ==> blocks == old(blocks)
      ensures bytes != [] ==> p !in old(blocks) && blocks == old(blocks)[p := bytes]
    {
      if bytes == [] { return 1; }
      p := FreshPtr(blocks.Keys);
      blocks := blocks[p := bytes];
    }

    /** A Vec without capacity takes no memory. */
    method AllocArray(a: CArray) returns (p: Ptr)
      modifies this
      ensures p != NULL && blocks == old(blocks) && misfreed == old(misfreed)
      ensures a.capacity == 0 ==> arrays == old(arrays)
      ensures a.capacity > 0 ==> p !in old(arrays) && arrays == old(arrays)[p := a]
    {
      if a.capacity == 0 { return 1; }
      p := FreshPtr(arrays.Keys);
      arrays := arrays[p := a];
    }

    method FreeBlock(p: Ptr)
      requires p in blocks
      modifies this
      ensures blocks == old(blocks) - {p} && arrays == old(arrays) && misfreed == old(misfreed)
    {
      blocks := blocks - {p};
    }

    method FreeArray(p: Ptr, capacity: nat)
      requires p in arrays
      modifies this
      ensures arrays == old(arrays) - {p} && blocks == old(blocks)
      ensures misfreed <==> old(misfreed) || old(arrays)[p].capacity != capacity
    {
      if arrays[p].capacity != capacity { misfreed := true; }
      arrays := arrays - {p};
    }
  }

  /** The blocks that the cells own. */
  function Owned(cells: seq<CRecord>): set<Ptr>
  {
    set i | 0 <= i < |cells| && cells[i].len > 0 :: cells[i].data
  }

  /** No block is owned by two cells. */
  predicate Apart(cells: seq<CRecord>)
  {
    forall i, j :: 0 <= i < j < |cells| && cells[i].len > 0 && cells[j].len > 0 ==>
      cells[i].data != cells[j].data
  }

  predicate CellHolds(blocks: map<Ptr, Bytes>, cell: CRecord, r: Encoded)
  {
    && cell.isJson == r.Json? && cell.data != NULL && cell.len == |r.bytes|
    && (cell.len > 0 ==> cell.data in blocks && blocks[cell.data] == r.bytes)
  }

  predicate CellsHold(blocks: map<Ptr, Bytes>, cells: seq<CRecord>, records: seq<Encoded>)
  {
    |cells| == |records| && forall i :: 0 <= i < |cells| ==> CellHolds(blocks, cells[i], records[i])
  }

  lemma OwnedSnoc(cells: seq<CRecord>, c: CRecord)
    ensures Owned(cells + [c]) == Owned(cells) + (if c.len > 0 then {c.data} else {})
  {
    assert forall i :: 0 <= i < |cells| ==> (cells + [c])[i] == cells[i];
    assert (cells + [c])[|cells|] == c;
  }

  /** The blocks hold the records' bytes, each in a block of its own, and nothing older has changed. */
  ghost predicate Exported(before: map<Ptr, Bytes>, now: map<Ptr, Bytes>, cells: seq<CRecord>, records: seq<Encoded>)
  {
    && CellsHold(now, cells, records) && Apart(cells)
    && Owned(cells) !! before.Keys && now.Keys == before.Keys + Owned(cells)
    && forall p :: p in before ==> now[p] == before[p]
  }

  /** One record more, in a block just allocated or in none. */
  lemma ExportedSnoc(before: map<Ptr, Bytes>, mid: map<Ptr, Bytes>, now: map<Ptr, Bytes>,
                     cells: seq<CRecord>, records: seq<Encoded>, cell: CRecord, r: Encoded)
    requires Exported(before, mid, cells, records) && CellHolds(now, cell, r)
    requires now == if cell.len > 0 then mid[cell.data := r.bytes] else mid
    requires cell.len > 0 ==> cell.data !in mid
    ensures Exported(before, now, cells + [cell], records + [r])
  {
    OwnedSnoc(cells, cell);
  }

  /** encoded_records_to_c_array; `spare` is the room the collected Vec has beyond its records */
  method ExportRecords(heap: RustHeap, records: seq<Encoded>, spare: nat) returns (cArray: Ptr, cells: seq<CRecord>)
    modifies heap
    ensures cArray != NULL && Exported(old(heap.blocks), heap.blocks, cells, records)
    ensures heap.misfreed == old(heap.misfreed)
    ensures |cells| + spare == 0 ==> heap.arrays == old(heap.arrays)
    ensures |cells| + spare > 0 ==>
      cArray !in old(heap.arrays) && heap.arrays == old(heap.arrays)[cArray := CArray(cells, |cells| + spare)]
  {
    cells := [];
    for i := 0 to |records|
      invariant heap.arrays == old(heap.arrays) && heap.misfreed == old(heap.misfreed)
      invariant Exported(old(heap.blocks), heap.blocks, cells, records[..i])
    {
      ghost var mid := heap.blocks;
      var p := heap.AllocBlock(records[i].bytes);
      var cell := CRecord(records[i].Json?, p, |records[i].bytes|);
      ExportedSnoc(old(heap.blocks), mid, heap.blocks, cells, records[..i], cell, records[i]);
      assert records[..i + 1] == records[..i] + [records[i]];
      cells := cells + [cell];
    }
    assert records[..|records|] == records;
    cArray := heap.AllocArray(CArray(cells, |cells| + spare));
  }

  function Copied(records: seq<Encoded>): seq<UnackedRecord>
  {
    seq(|records|, i requires 0 <= i < |records| => UnackedRecord(records[i].Json?, records[i].bytes))
  }

  /** Record by record: the tag says JSON if and only if the record is JSON, and the bytes are the record's. */
  predicate CopyOf(out: seq<UnackedRecord>, records: seq<Encoded>)
  {
    && |out| == |records|
    && forall i :: 0 <= i < |records| ==> (out[i].isJson <==> records[i].Json?) && out[i].bytes == records[i].bytes
  }

  /** The copy loop of Stream::get_unacked_records; None when an allocation for record `failsAt` throws. */
  method CopyRecords(heap: RustHeap, cArray: Ptr, len: nat, failsAt: nat, ghost records: seq<Encoded>)
    returns (out: Option<seq<UnackedRecord>>)
    requires len == |records|
    requires len > 0 ==>
      cArray != NULL && cArray in heap.arrays && CellsHold(heap.blocks, heap.arrays[cArray].cells, records)
    ensures out == if failsAt < len then None else Some(Copied(records))
    ensures out.Some? ==> CopyOf(out.value, records)
  {
    var copied: seq<UnackedRecord> := [];
    if cArray != NULL && len > 0 {
      for i := 0 to len
        invariant copied == Copied(records)[..i] && i <= failsAt
      {
        if i == failsAt { return None; }
        var rec := heap.arrays[cArray].cells[i];
        assert CellHolds(heap.blocks, rec, records[i]);
        var data: Bytes := [];
        if rec.data != NULL && rec.len > 0 { data := heap.blocks[rec.data]; }
        copied := copied + [UnackedRecord(rec.isJson, data)];
      }
    }
    assert copied == Copied(records)[..len] == Copied(records);
    out := Some(copied);
  }

  /** zerobus_free_record_array: an empty array is left alone, any other given back as a Vec that is exactly full */
  method FreeRecordArray(heap: RustHeap, cArray: Ptr, len: nat)
    requires len > 0 ==> cArray != NULL && cArray in heap.arrays && |heap.arrays[cArray].cells| == len
    requires len > 0 ==> Apart(heap.arrays[cArray].cells)
    requires len > 0 ==>
      forall c :: c in heap.arrays[cArray].cells && c.len > 0 ==> c.data != NULL && c.data in heap.blocks
    modifies heap
    ensures len == 0 ==>
      heap.arrays == old(heap.arrays) && heap.blocks == old(heap.blocks) && heap.misfreed == old(heap.misfreed)
    ensures len > 0 ==>
      && heap.arrays == old(heap.arrays) - {cArray}
      && heap.blocks == old(heap.blocks) - Owned(old(heap.arrays[cArray].cells))
      && (heap.misfreed <==> old(heap.misfreed) || old(heap.arrays[cArray]).capacity != len)
  {
    if cArray == NULL || len == 0 { return; }
    var cells := heap.arrays[cArray].cells;
    heap.FreeArray(cArray, len);
    ghost var misfreed := heap.misfreed;
    for i := 0 to |cells|
      invariant heap.arrays == old(heap.arrays) - {cArray} && heap.misfreed == misfreed
      invariant heap.blocks == old(heap.blocks) - Owned(cells[..i])
    {
      OwnedSnoc(cells[..i], cells[i]);
      assert cells[..i] + [cells[i]] == cells[..i + 1];
      if cells[i].data != NULL && cells[i].len > 0 {
        assert cells[i] in cells && cells[i].data !in Owned(cells[..i]);
        heap.FreeBlock(cells[i].data);
      }
    }
    assert cells[..|cells|] == cells;
  }

  /** How a call of get_unacked_records ends. */
  datatype Unacked = CoreError | OutOfMemory | Records(out: seq<UnackedRecord>)

  /**
   Stream::get_unacked_records, `unacked` being None when the core reports an error: the core's
   records come out in order, tags and bytes, and also when the copy throws half-way every block
   is given back.  The array itself is given back as it was allocated exactly when the Vec that
   Rust collected it in had no spare room.
   */
  method GetUnackedRecords(heap: RustHeap, unacked: Option<seq<Encoded>>, spare: nat, failsAt: nat)
    returns (r: Unacked)
    requires !heap.misfreed
    modifies heap
    ensures r ==
      if unacked.None? then CoreError
      else if failsAt < |unacked.value| then OutOfMemory
      else Records(Copied(unacked.value))
    ensures r.Records? ==> CopyOf(r.out, unacked.value)
    ensures heap.blocks == old(heap.blocks)
    ensures heap.arrays == old(heap.arrays) && !heap.misfreed <==> unacked.None? || spare == 0
  {
    if unacked.None? { return CoreError; }
    var records := unacked.value;
    var cArray, cells := ExportRecords(heap, records, spare);
    assert forall c :: c in cells && c.len > 0 ==> c.data in heap.blocks;
    var copied := CopyRecords(heap, cArray, |cells|, failsAt, records);
    FreeRecordArray(heap, cArray, |cells|); // the guard's destructor, on either path
    assert heap.blocks.Keys == old(heap.blocks).Keys;
    assert |cells| > 0 || spare == 0 ==> heap.arrays == old(heap.arrays);
    assert |cells| == 0 && spare > 0 ==> cArray in heap.arrays && cArray !in old(heap.arrays);
    r := if copied.None? then OutOfMemory else Records(copied.value);
  }
}
