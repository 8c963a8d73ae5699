/**
 How stream options cross the C interface. C++ (cpp/src/detail/config_convert.hpp) and
 Go (go/ffi.go, go/arrow_ffi.go) encode them into C structs with presence flags and
 sentinels; the Rust side (rust/ffi/src/stream.rs, rust/ffi/src/arrow.rs) decodes those
 into what the core runs with. The results relate the two ends.
 */
module ConfigEncoding {
  import opened Common

  const TWO_63: int := 0x8000_0000_0000_0000
  const TWO_64: int := 0x1_0000_0000_0000_0000

  type U64 = x: int | 0 <= x < TWO_64
  type U32 = x: int | 0 <= x < 0x1_0000_0000
  type I64 = x: int | -TWO_63 <= x < TWO_63
  type I32 = x: int | -0x8000_0000 <= x < 0x8000_0000
  type I8 = x: int | -128 <= x < 128

  datatype Result<T> = Ok(value: T) | Err(message: string)

  // ------------------------------------------------------------ both ends

  /** The numbers every kind of stream has. */
  datatype Limits = Limits(
    maxInflight: U64,
    recoveryTimeout: U64,
    recoveryBackoff: U64,
    recoveryRetries: U32,
    ackTimeout: U64,
    flushTimeout: U64)

  /** CStreamConfigurationOptions */
  datatype CStream = CStream(
    limits: Limits,
    recovery: bool,
    recordType: I32,
    pause: U64,
    hasPause: bool,
    callbackWait: U64,
    hasCallbackWait: bool,
    onAck: Option<Ptr>,
    onError: Option<Ptr>,
    userData: Ptr)

  datatype RecordType = Unspecified | Proto | Json

  datatype AckCallback = AckCallback(onAck: Option<Ptr>, onError: Option<Ptr>, userData: Ptr)

  /** What the core runs with; no wait means without end. */
  datatype CoreStream = CoreStream(
    limits: Limits,
    recovery: bool,
    recordType: RecordType,
    pause: Option<U64>,
    callbackWait: Option<U64>,
    ack: Option<AckCallback>)

  function CRecordType(value: I32): RecordType
  {
    if value == 1 then Proto else if value == 2 then Json else Unspecified
  }

  function RecordTypeValue(t: RecordType): I32
  {
    match t
    case Unspecified => 0
    case Proto => 1
    case Json => 2
  }

  /** apply_c_stream_options */
  function Decode(c: CStream): CoreStream
  {
    CoreStream(
      c.limits,
      c.recovery,
      CRecordType(c.recordType),
      if c.hasPause then Some(c.pause) else None,
      if c.hasCallbackWait then Some(c.callbackWait) else None,
      if c.onAck.Some? || c.onError.Some? then Some(AckCallback(c.onAck, c.onError, c.userData)) else None)
  }

  /** zerobus_get_default_config */
  const C_DEFAULT := CStream(
    Limits(1_000_000, 15_000, 2_000, 4, 60_000, 300_000), true, 1, 0, false, 5_000, true, None, None, NULL)

  /** CArrowStreamConfigurationOptions */
  datatype CArrow = CArrow(
    limits: Limits,
    recovery: bool,
    connectionTimeout: U64,
    compression: I32,
    pause: I64)

  /** zerobus_arrow_get_default_config */
  const C_ARROW_DEFAULT := CArrow(Limits(1_000, 15_000, 2_000, 4, 60_000, 300_000), true, 30_000, -1, -1)

  datatype Compression = NoCompression | Lz4Frame | Zstd

  datatype CoreArrow = CoreArrow(
    limits: Limits,
    recovery: bool,
    connectionTimeout: U64,
    compression: Compression,
    pause: Option<U64>)

  function CCompression(value: I32): Compression
  {
    if value == 0 then Lz4Frame else if value == 1 then Zstd else NoCompression
  }

  /** apply_c_arrow_stream_options */
  function DecodeArrow(c: CArrow): CoreArrow
  {
    CoreArrow(c.limits, c.recovery, c.connectionTimeout, CCompression(c.compression),
              if c.pause < 0 then None else Some(c.pause))
  }

  // ------------------------------------------------------------------ C++

  datatype WaitPolicy = UseDefault | Duration(ms: U64) | Forever

  datatype CppStream = CppStream(
    limits: Limits,
    recovery: bool,
    recordType: RecordType,
    pause: Option<U64>,
    wait: WaitPolicy,
    ackCallback: Option<Ptr>)

  /** What the options ask of the core; the default wait is whatever the library's own default is. */
  function Meaning(opts: CppStream, libraryWait: Option<U64>, onAck: Ptr, onError: Ptr): CoreStream
  {
    CoreStream(
      opts.limits,
      opts.recovery,
      opts.recordType,
      opts.pause,
      match opts.wait
        case UseDefault => libraryWait
        case Duration(ms) => Some(ms)
        case Forever => None,
      match opts.ackCallback
        case None => None
        case Some(p) => Some(AckCallback(Some(onAck), Some(onError), p)))
  }

  /** to_c(StreamOptions), from whatever defaults the library returns. */
  method ToC(opts: CppStream, seed: CStream, onAck: Ptr, onError: Ptr) returns (c: CStream)
    ensures Decode(c) == Meaning(opts, Decode(seed).callbackWait, onAck, onError)
    ensures c.limits == opts.limits && c.recovery == opts.recovery
    ensures c.recordType == match opts.recordType case Unspecified => 0 case Proto => 1 case Json => 2
    ensures Decode(c).recordType == opts.recordType && Decode(c).pause == opts.pause
    ensures opts.wait.Forever? ==> Decode(c).callbackWait == None
    ensures opts.wait.Duration? ==> Decode(c).callbackWait == Some(opts.wait.ms)
    ensures opts.wait.UseDefault? ==> Decode(c).callbackWait == Decode(seed).callbackWait
    ensures opts.ackCallback.None? ==> Decode(c).ack == None
    ensures opts.ackCallback.Some? ==>
      Decode(c).ack == Some(AckCallback(Some(onAck), Some(onError), opts.ackCallback.value))
  {
    c := seed;
    c := c.(limits := opts.limits);
    c := c.(recovery := opts.recovery);
    c := c.(recordType := RecordTypeValue(opts.recordType));
    if opts.pause.Some? {
      c := c.(hasPause := true, pause := opts.pause.value);
    } else {
      c := c.(hasPause := false, pause := 0);
    }
    if opts.wait.Forever? {
      c := c.(hasCallbackWait := false, callbackWait := 0);
    } else if opts.wait.Duration? {
      c := c.(hasCallbackWait := true, callbackWait := opts.wait.ms);
    }
    if opts.ackCallback.Some? {
      c := c.(onAck := Some(onAck), onError := Some(onError), userData := opts.ackCallback.value);
    } else {
      c := c.(onAck := None, onError := None, userData := NULL);
    }
  }

  /** Nothing the caller chose is lost on the way: options that mean the same differ at most in how they name the same wait. */
  lemma MeaningIsFaithful(a: CppStream, b: CppStream, libraryWait: Option<U64>, onAck: Ptr, onError: Ptr)
    ensures Meaning(a, libraryWait, onAck, onError) == Meaning(b, libraryWait, onAck, onError) <==>
      a.(wait := b.wait) == b && (a.wait == b.wait || Budget(a.wait, libraryWait) == Budget(b.wait, libraryWait))
  {}

  function Budget(wait: WaitPolicy, libraryWait: Option<U64>): Option<U64>
  {
    if wait.UseDefault? then libraryWait else if wait.Duration? then Some(wait.ms) else None
  }

  datatype CppArrow = CppArrow(
    limits: Limits,
    recovery: bool,
    connectionTimeout: U64,
    compression: Compression,
    pause: Option<U64>)

  function CompressionValue(c: Compression): I32
  {
    match c
    case NoCompression => -1
    case Lz4Frame => 0
    case Zstd => 1
  }

  function ArrowMeaning(opts: CppArrow): CoreArrow
  {
    CoreArrow(opts.limits, opts.recovery, opts.connectionTimeout, opts.compression, opts.pause)
  }

  /** to_c(ArrowStreamOptions): refuses what it could not pass on, and passes on all else. */
  method ArrowToC(opts: CppArrow, seed: CArrow) returns (r: Result<CArrow>)
    ensures r.Ok? <==> opts.limits.maxInflight != 0 && (opts.pause.Some? ==> opts.pause.value < TWO_63)
    ensures r.Ok? ==> DecodeArrow(r.value) == ArrowMeaning(opts)
    ensures r.Ok? ==>
      && r.value.limits == opts.limits && r.value.recovery == opts.recovery
      && r.value.connectionTimeout == opts.connectionTimeout
      && r.value.compression == (match opts.compression case NoCompression => -1 case Lz4Frame => 0 case Zstd => 1)
      && DecodeArrow(r.value).compression == opts.compression && DecodeArrow(r.value).pause == opts.pause
    ensures r == CppArrowEncoded(opts)
  {
    if opts.limits.maxInflight == 0 { return Err("max_inflight_batches must be at least 1"); }
    var c := seed;
    c := c.(limits := opts.limits);
    c := c.(recovery := opts.recovery);
    c := c.(connectionTimeout := opts.connectionTimeout);
    c := c.(compression := CompressionValue(opts.compression));
    if opts.pause.Some? {
      var v := opts.pause.value;
      if v > TWO_63 - 1 {
        return Err("stream_paused_max_wait_time_ms exceeds the maximum supported value");
      }
      c := c.(pause := v);
    } else {
      c := c.(pause := -1);
    }
    r := Ok(c);
  }

  function CppArrowEncoded(opts: CppArrow): Result<CArrow>
  {
    if opts.limits.maxInflight == 0 then Err("max_inflight_batches must be at least 1")
    else if opts.pause.Some? && opts.pause.value >= TWO_63 then
      Err("stream_paused_max_wait_time_ms exceeds the maximum supported value")
    else
      Ok(CArrow(opts.limits, opts.recovery, opts.connectionTimeout, CompressionValue(opts.compression),
                if opts.pause.Some? then opts.pause.value else -1))
  }

  // ------------------------------------------------------------------- Go

  datatype GoStream = GoStream(limits: Limits, recovery: bool, recordType: I32, pause: Option<U64>)

  const GO_LIMITS := Limits(1_000_000, 15_000, 2_000, 4, 60_000, 300_000)

  /** DefaultStreamConfigurationOptions */
  const GO_DEFAULT := GoStream(GO_LIMITS, true, 1, None)

  function FillLimits(l: Limits, d: Limits): Limits
  {
    Limits(
      if l.maxInflight == 0 then d.maxInflight else l.maxInflight,
      if l.recoveryTimeout == 0 then d.recoveryTimeout else l.recoveryTimeout,
      if l.recoveryBackoff == 0 then d.recoveryBackoff else l.recoveryBackoff,
      if l.recoveryRetries == 0 then d.recoveryRetries else l.recoveryRetries,
      if l.ackTimeout == 0 then d.ackTimeout else l.ackTimeout,
      if l.flushTimeout == 0 then d.flushTimeout else l.flushTimeout)
  }

  /** Is any of the fields set by which Go tells that recovery was meant? */
  predicate RecoveryTouched(l: Limits)
  {
    l.recoveryTimeout != 0 || l.recoveryBackoff != 0 || l.recoveryRetries != 0
  }

  /** The options with every default written in. */
  function Filled(o: GoStream): GoStream
  {
    GoStream(
      FillLimits(o.limits, GO_LIMITS),
      if RecoveryTouched(o.limits) then o.recovery else true,
      if o.recordType == 0 then 1 else o.recordType,
      o.pause)
  }

  function GoEncoded(o: GoStream): CStream
  {
    var f := Filled(o);
    CStream(f.limits, f.recovery, f.recordType, if f.pause.Some? then f.pause.value else 0, f.pause.Some?,
            0, false, None, None, NULL)
  }

  /** One field: kept when it was set, and given its own default when it was not. */
  predicate FilledFrom(was: int, now: int, default: int)
  {
    now == if was == 0 then default else was
  }

  /** Each number by itself. */
  predicate LimitsFilled(was: Limits, now: Limits, default: Limits)
  {
    && FilledFrom(was.maxInflight, now.maxInflight, default.maxInflight)
    && FilledFrom(was.recoveryTimeout, now.recoveryTimeout, default.recoveryTimeout)
    && FilledFrom(was.recoveryBackoff, now.recoveryBackoff, default.recoveryBackoff)
    && FilledFrom(was.recoveryRetries, now.recoveryRetries, default.recoveryRetries)
    && FilledFrom(was.ackTimeout, now.ackTimeout, default.ackTimeout)
    && FilledFrom(was.flushTimeout, now.flushTimeout, default.flushTimeout)
  }

  /** The part the two conversions share: a number left at zero gets its default. */
  method FillIn(l: Limits, d: Limits) returns (f: Limits)
    ensures f == FillLimits(l, d) && LimitsFilled(l, f, d)
  {
    var maxInflight := l.maxInflight;
    if maxInflight == 0 { maxInflight := d.maxInflight; }
    var recoveryTimeout := l.recoveryTimeout;
    if recoveryTimeout == 0 { recoveryTimeout := d.recoveryTimeout; }
    var recoveryBackoff := l.recoveryBackoff;
    if recoveryBackoff == 0 { recoveryBackoff := d.recoveryBackoff; }
    var recoveryRetries := l.recoveryRetries;
    if recoveryRetries == 0 { recoveryRetries := d.recoveryRetries; }
    var ackTimeout := l.ackTimeout;
    if ackTimeout == 0 { ackTimeout := d.ackTimeout; }
    var flushTimeout := l.flushTimeout;
    if flushTimeout == 0 { flushTimeout := d.flushTimeout; }
    f := Limits(maxInflight, recoveryTimeout, recoveryBackoff, recoveryRetries, ackTimeout, flushTimeout);
  }

  /** convertConfigToC */
  method ConvertConfigToC(opts: Option<GoStream>, seed: CStream) returns (c: CStream)
    ensures opts.None? ==> c == seed
    ensures opts.Some? ==> c == GoEncoded(opts.value)
    ensures opts.Some? ==> var o := opts.value;
      && LimitsFilled(o.limits, c.limits, Limits(1_000_000, 15_000, 2_000, 4, 60_000, 300_000))
      && (c.recovery <==> o.recovery || !RecoveryTouched(o.limits))
      && FilledFrom(o.recordType, c.recordType, 1)
      && Decode(c).pause == o.pause && Decode(c).callbackWait == None && Decode(c).ack == None
  {
    if opts.None? { return seed; }
    var o := opts.value;
    var defaults := GO_DEFAULT;
    var limits := FillIn(o.limits, defaults.limits);
    var recovery := o.recovery;
    if o.limits.recoveryTimeout == 0 && o.limits.recoveryBackoff == 0 && o.limits.recoveryRetries == 0 {
      recovery := defaults.recovery;
    }
    var recordType := o.recordType;
    if recordType == 0 { recordType := defaults.recordType; }
    var pause: U64, hasPause := 0, false;
    if o.pause.Some? { pause, hasPause := o.pause.value, true; }
    c := CStream(limits, recovery, recordType, pause, hasPause, 0, false, None, None, NULL);
  }

  /** Filling in the defaults is a normal form: it is settled after one pass, and the encoding cannot tell filled options from the originals. */
  lemma FillingIsNormalForm(o: GoStream, p: GoStream)
    ensures Filled(Filled(o)) == Filled(o)
    ensures GoEncoded(Filled(o)) == GoEncoded(o)
    ensures GoEncoded(o) == GoEncoded(p) <==> Filled(o) == Filled(p)
  {}

  /**
   What is left at zero gets its own default and nothing else changes: each number and the
   record type by themselves, the pause not at all, recovery only when none of its settings is
   given.  So filling changes nothing exactly when there is no gap.
   */
  lemma FillingFillsOnlyGaps(o: GoStream)
    ensures var f, was, d := Filled(o), o.limits, GO_DEFAULT.limits;
      && LimitsFilled(was, f.limits, d)
      && FilledFrom(o.recordType, f.recordType, GO_DEFAULT.recordType)
      && f.pause == o.pause
      && (f.recovery == o.recovery <==> o.recovery || RecoveryTouched(was))
    ensures Filled(o) == o <==> NoZero(o.limits) && o.recordType != 0
    ensures Filled(GoStream(Limits(0, 0, 0, 0, 0, 0), o.recovery, 0, None)) == GO_DEFAULT
  {}

  /** Turning recovery off reaches the core exactly when a recovery timeout, backoff or retry count is set beside it. */
  lemma RecoveryOffSurvivesExactly(o: GoStream)
    requires !o.recovery
    ensures !Decode(GoEncoded(o)).recovery <==>
      o.limits.recoveryTimeout != 0 || o.limits.recoveryBackoff != 0 || o.limits.recoveryRetries != 0
  {}

  /** Go's own copy of the defaults is the library's, save that it waits for callbacks without end; Go has no callbacks. */
  lemma GoDefaultsAreTheLibrarys()
    ensures Filled(GO_DEFAULT) == GO_DEFAULT
    ensures Decode(GoEncoded(GO_DEFAULT)) == Decode(C_DEFAULT).(callbackWait := None)
    ensures Decode(C_DEFAULT).callbackWait == Some(5_000)
  {}

  /** The options of both languages reach the core alike exactly when Go's have no gap to fill and C++ waits for callbacks without end. */
  lemma StreamsAgreeExactly(g: GoStream, c: CppStream, onAck: Ptr, onError: Ptr, libraryWait: Option<U64>)
    requires g.limits == c.limits && g.recovery == c.recovery && g.pause == c.pause
    requires g.recordType == RecordTypeValue(c.recordType) && c.ackCallback.None?
    ensures Decode(GoEncoded(g)) == Meaning(c, libraryWait, onAck, onError) <==>
      Filled(g) == g && Budget(c.wait, libraryWait).None?
  {}

  // -------------------------------------------------------------- Go, Arrow

  datatype GoArrow = GoArrow(
    limits: Limits,
    recovery: I8,
    connectionTimeout: U64,
    compression: I8,
    pause: Option<U64>)

  const RECOVERY_ENABLED: I8 := 0
  const RECOVERY_DISABLED: I8 := 1
  const IPC_COMPRESSION_NONE: I8 := 1
  const LZ4_FRAME: I8 := 2
  const ZSTD: I8 := 3

  const GO_ARROW_LIMITS := Limits(1_000, 15_000, 2_000, 4, 60_000, 300_000)
  const GO_CONNECTION_TIMEOUT: U64 := 30_000

  /** DefaultArrowStreamConfigurationOptions */
  const GO_ARROW_DEFAULT :=
    GoArrow(GO_ARROW_LIMITS, RECOVERY_ENABLED, GO_CONNECTION_TIMEOUT, IPC_COMPRESSION_NONE, None)

  /** Go's int64(x) of a uint64 wraps around. */
  function ToInt64(v: U64): I64
  {
    if v < TWO_63 then v else v - TWO_64
  }

  function GoCompression(c: I8): Compression
  {
    if c == LZ4_FRAME then Lz4Frame else if c == ZSTD then Zstd else NoCompression
  }

  function GoArrowEncoded(o: GoArrow): CArrow
  {
    CArrow(
      FillLimits(o.limits, GO_ARROW_LIMITS),
      o.recovery != RECOVERY_DISABLED,
      if o.connectionTimeout == 0 then GO_CONNECTION_TIMEOUT else o.connectionTimeout,
      CompressionValue(GoCompression(o.compression)),
      if o.pause.Some? then ToInt64(o.pause.value) else -1)
  }

  /** What the core gets of the options, field by field; 2 stands for LZ4 frames, 3 for Zstandard, 1 for no recovery. */
  predicate ArrowArrives(o: GoArrow, core: CoreArrow)
  {
    && LimitsFilled(o.limits, core.limits, C_ARROW_DEFAULT.limits)
    && (core.recovery <==> o.recovery != 1)
    && FilledFrom(o.connectionTimeout, core.connectionTimeout, C_ARROW_DEFAULT.connectionTimeout)
    && (core.compression.Lz4Frame? <==> o.compression == 2)
    && (core.compression.Zstd? <==> o.compression == 3)
    && core.pause == (if o.pause.Some? && o.pause.value < TWO_63 then o.pause else None)
  }

  /** convertArrowConfigToC */
  method ConvertArrowConfigToC(opts: Option<GoArrow>, seed: CArrow) returns (c: CArrow)
    ensures opts.None? ==> c == seed
    ensures opts.Some? ==> c == GoArrowEncoded(opts.value)
    ensures opts.Some? ==> ArrowArrives(opts.value, DecodeArrow(c))
  {
    if opts.None? { return seed; }
    var o, d := opts.value, GO_ARROW_LIMITS;
    var limits := FillIn(o.limits, d);
    var recovery := true;
    if o.recovery == RECOVERY_DISABLED { recovery := false; }
    var connectionTimeout := o.connectionTimeout;
    if connectionTimeout == 0 { connectionTimeout := GO_CONNECTION_TIMEOUT; }
    var compression: I32 := -1;
    if o.compression == LZ4_FRAME {
      compression := 0;
    } else if o.compression == ZSTD {
      compression := 1;
    }
    var pause: I64 := -1;
    if o.pause.Some? { pause := ToInt64(o.pause.value); }
    c := CArrow(limits, recovery, connectionTimeout, compression, pause);
  }

  /** A longer pause than a signed 64-bit number holds wraps below zero, and the core reads that as no limit. */
  lemma PauseSurvivesExactly(o: GoArrow)
    ensures DecodeArrow(GoArrowEncoded(o)).pause == o.pause <==> (o.pause.Some? ==> o.pause.value < TWO_63)
    ensures o.pause.Some? && o.pause.value >= TWO_63 ==> DecodeArrow(GoArrowEncoded(o)).pause == None
  {}

  /** What is left at zero gets its own default; recovery and compression arrive as chosen; nothing else changes. */
  lemma ArrowFillingFillsOnlyGaps(o: GoArrow)
    ensures ArrowArrives(o, DecodeArrow(GoArrowEncoded(o)))
    ensures var core := DecodeArrow(GoArrowEncoded(o));
      NoZero(o.limits) && o.connectionTimeout != 0 <==>
      core.limits == o.limits && core.connectionTimeout == o.connectionTimeout
  {}

  /** Go's own copy of the Arrow defaults is the library's, and so is what Go makes of options left at zero. */
  lemma GoArrowDefaultsAreTheLibrarys()
    ensures GoArrowEncoded(GO_ARROW_DEFAULT) == C_ARROW_DEFAULT
    ensures GoArrowEncoded(GoArrow(Limits(0, 0, 0, 0, 0, 0), 0, 0, 0, None)) == C_ARROW_DEFAULT
  {}

  predicate NoZero(l: Limits)
  {
    && l.maxInflight != 0 && l.recoveryTimeout != 0 && l.recoveryBackoff != 0 && l.recoveryRetries != 0
    && l.ackTimeout != 0 && l.flushTimeout != 0
  }

  /** For the same options the two languages encode alike exactly when no number is zero and the pause fits. */
  lemma ArrowEncodingsAgreeExactly(g: GoArrow, c: CppArrow)
    requires g.limits == c.limits && g.connectionTimeout == c.connectionTimeout && g.pause == c.pause
    requires c.recovery <==> g.recovery != RECOVERY_DISABLED
    requires c.compression.Lz4Frame? <==> g.compression == LZ4_FRAME
    requires c.compression.Zstd? <==> g.compression == ZSTD
    ensures CppArrowEncoded(c) == Ok(GoArrowEncoded(g)) <==>
      NoZero(g.limits) && g.connectionTimeout != 0 && (g.pause.Some? ==> g.pause.value < TWO_63)
  {}
}
