/**
 * The boundary with the native engine: handles, the fixed-width and optional field encodings,
 * the errors a wrapper call raises, and the record of native calls every wrapper object keeps.
 */
module Native {
  import opened Wrappers
  import opened ErrorCodes
  import opened RulesetKinds

  /** A ManagedObjectHandle, identified by its id. */
  type Handle = int

  /** The c_int32 size slot of the buffer-size-query protocol. */
  type int32 = x: int | -0x8000_0000 <= x < 0x8000_0000

  /** The engine's float and double fields. The wrapper only copies them, so reals stand in for them. */
  type Float = real

  /** A nullable native field, transferred as the tagged pair {hasValue, value}. */
  datatype NativeOptional<T> = NativeOptional(hasValue: bool, value: T)

  /** `x.value if x.hasValue else None`: absent exactly when hasValue is false, whatever the payload. */
  function DecodeOptional<T>(o: NativeOptional<T>): (r: Option<T>)
    ensures r.None? <==> !o.hasValue
    ensures r.Some? ==> r.value == o.value
  {
    if o.hasValue then Some(o.value) else None
  }

  /** The host-to-native direction: an absent value is sent as hasValue=false with the payload `zero`. */
  function EncodeOptional<T>(x: Option<T>, zero: T): (o: NativeOptional<T>)
    ensures o.hasValue <==> x.Some?
    ensures o.value == if x.Some? then x.value else zero
  {
    match x
    case Some(v) => NativeOptional(true, v)
    case None => NativeOptional(false, zero)
  }

  /** Round trip: an encoded optional decodes to itself. */
  lemma OptionalRoundTrip<T>(x: Option<T>, zero: T)
    ensures DecodeOptional(EncodeOptional(x, zero)) == x
  {
  }

  /** The payload of an absent value is never observed. */
  lemma AbsentPayloadIgnored<T>(a: T, b: T)
    ensures DecodeOptional(NativeOptional(false, a)) == DecodeOptional(NativeOptional(false, b)) == None
  {
  }

  /** The value passed to one of the three Mod_SetSetting* calls. */
  datatype SettingValue = BoolSetting(b: bool) | IntSetting(i: int) | FloatSetting(f: Float)

  /** The operation a failed native call was performing (the "Failed to ..." part of the message). */
  datatype Operation =
    | CreateMod(acronym: string)
    | SetModSetting(key: string, setting: SettingValue)
    | CreateModsCollection
    | AddModToCollection
    | RemoveModFromCollection
    | CreateRuleset(rulesetId: int)
    | CreateBeatmapFromFile(path: string)
    | CreateBeatmapFromText
    | CreateDifficultyCalculator(kind: RulesetKind)
    | CalculateDifficulty(kind: RulesetKind)
    | CreatePerformanceCalculator(kind: RulesetKind)
    | CalculatePerformance(kind: RulesetKind)

  /** What a wrapper call raises. */
  datatype Error =
    | NativeFailure(operation: Operation, code: ErrorCode)  // RuntimeError from check_error
    | BufferSizeQueryFailed(code: ErrorCode)                 // RuntimeError "Error querying buffer size"
    | StringFetchFailed(code: ErrorCode)                     // RuntimeError "Error getting string"
    | InvalidUtf8                                            // UnicodeDecodeError
    | Closed(owner: string)                                  // RuntimeError "<owner> has been closed"
    | UnsupportedRuleset(rulesetId: int)                     // ValueError
    | UnexpectedAttributes(expected: RulesetKind, got: RulesetKind)  // TypeError

  /** One native call a wrapper object made on its own handle: its destroy call, or an operation. */
  datatype NativeCall<Op> = Destroy | Invoke(op: Op)

  /** How many destroy calls a trace holds. */
  function DestroyCount<Op>(t: seq<NativeCall<Op>>): nat {
    if t == [] then 0
    else DestroyCount(t[..|t| - 1]) + (if t[|t| - 1].Destroy? then 1 else 0)
  }

  /**
   * The single-release discipline: an open wrapper has issued no destroy call,
   * a closed one exactly one.
   */
  ghost predicate Lifecycle<Op>(closed: bool, t: seq<NativeCall<Op>>) {
    DestroyCount(t) == if closed then 1 else 0
  }

  lemma DestroyCountAppend<Op>(t: seq<NativeCall<Op>>, c: NativeCall<Op>)
    ensures DestroyCount(t + [c]) == DestroyCount(t) + (if c.Destroy? then 1 else 0)
  {
    assert (t + [c])[..|t|] == t;
  }

  /** close: the first call destroys and closes, a later one changes nothing; either way destroy ran at most once. */
  lemma CloseKeepsLifecycle<Op>(closed: bool, t: seq<NativeCall<Op>>)
    requires Lifecycle(closed, t)
    ensures var t' := if closed then t else t + [Destroy];
      Lifecycle(true, t') && DestroyCount(t') == 1
  {
    DestroyCountAppend(t, Destroy);
  }

  /** Any other native call leaves the number of destroy calls as it was. */
  lemma InvokeKeepsLifecycle<Op>(closed: bool, t: seq<NativeCall<Op>>, op: Op)
    requires Lifecycle(closed, t)
    ensures Lifecycle(closed, t + [Invoke(op)])
  {
    DestroyCountAppend(t, Invoke(op));
  }
}
