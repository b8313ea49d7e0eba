/**
 * The PerformanceCalculator base, its four variants and create_performance_calculator. The
 * variants differ only in their native functions and record types, so one class parameterised
 * by the ruleset kind stands for all four. Unlike the difficulty calculators, the base keeps
 * its own handle and closed flag rather than deriving from NativeHandler.
 */
module PerformanceCalculators {
  import opened Wrappers
  import opened ErrorCodes
  import opened RulesetKinds
  import opened Native
  import NativeHelper
  import opened Rulesets
  import opened Beatmaps
  import opened ModsCollections
  import Score = ScoreInfos
  import Difficulty = DifficultyAttributesModel
  import opened PerformanceAttributesModel

  /** A native call on a performance calculator handle: XPerformanceCalculator_Calculate with the two records it is passed. */
  datatype PerformanceOp = CalculateCall(score: Score.NativeScoreInfo, difficulty: Difficulty.NativeDifficultyAttributes)

  /** The calculator's class name, as the closed guard reports it. */
  function CalculatorName(kind: RulesetKind): string {
    KindName(kind) + "PerformanceCalculator"
  }

  /**
   * The isinstance check of calculate: attributes of the calculator's own ruleset pass, any
   * other variant raises TypeError naming the expected and the actual class.
   */
  function CheckAttributes(kind: RulesetKind, attributes: Difficulty.DifficultyAttributes): (r: Outcome<Error>)
    ensures r.Pass? <==> Difficulty.Kind(attributes) == kind
    ensures r.Fail? ==> r.error == UnexpectedAttributes(kind, Difficulty.Kind(attributes))
  {
    if Difficulty.Kind(attributes) == kind then Pass else Fail(UnexpectedAttributes(kind, Difficulty.Kind(attributes)))
  }

  /**
   * The attributes a difficulty calculator of one ruleset returns pass the check of the
   * performance calculator of that ruleset and fail the check of the other three.
   */
  lemma DifficultyOutputAcceptedOnlyByItsRuleset(n: Difficulty.NativeDifficultyAttributes, kind: RulesetKind)
    ensures CheckAttributes(kind, Difficulty.FromNative(n)).Pass? <==> kind == Difficulty.NativeKind(n)
  {
  }

  class PerformanceCalculator {
    const kind: RulesetKind
    const handle: Handle
    var closed: bool
    /** The native calls made on this handle, in order. */
    ghost var trace: seq<NativeCall<PerformanceOp>>

    ghost predicate Valid()
      reads this
    {
      Lifecycle(closed, trace)
    }

    constructor (kind: RulesetKind, handle: Handle)
      ensures Valid() && this.kind == kind && this.handle == handle && !closed && trace == []
    {
      this.kind := kind;
      this.handle := handle;
      closed := false;
      trace := [];
    }

    /**
     * create: XPerformanceCalculator_Create needs no ruleset or beatmap; a non-success code
     * raises "Failed to create XPerformanceCalculator" and produces no calculator.
     */
    static method Create(kind: RulesetKind, code: int, written: Handle) returns (r: Result<PerformanceCalculator, Error>)
      ensures r.Err? <==> code != Value(Success)
      ensures r.Err? ==> r.error == NativeFailure(Operation.CreatePerformanceCalculator(kind), FromValue(code))
      ensures r.Ok? ==> fresh(r.value) && r.value.Valid() && r.value.kind == kind && r.value.handle == written
      ensures r.Ok? ==> !r.value.closed && r.value.trace == []
    {
      match NativeHelper.CheckError(code, Operation.CreatePerformanceCalculator(kind)) {
        case Fail(e) => r := Err(e);
        case Pass =>
          var c := new PerformanceCalculator(kind, written);
          r := Ok(c);
      }
    }

    /** _check_not_closed: raises "<class> has been closed" exactly when closed. */
    function CheckNotClosed(): (r: Outcome<Error>)
      reads this
      ensures r.Fail? <==> closed
      ensures r.Fail? ==> r.error == Closed(CalculatorName(kind))
    {
      if closed then Fail(Closed(CalculatorName(kind))) else Pass
    }

    /**
     * calculate: the closed guard first, then the variant check, both before any native call;
     * then one native call with the score marshaled against the ruleset, beatmap and mods
     * handles and the attributes re-encoded field by field; its failure raises, and on success
     * the written record is decoded. `written` has the calculator's record type.
     */
    method Calculate(ruleset: Ruleset, beatmap: Beatmap, mods: ModsCollection, score: Score.ScoreInfo,
                     attributes: Difficulty.DifficultyAttributes, code: int, written: NativePerformanceAttributes)
      returns (r: Result<PerformanceAttributes, Error>)
      requires Valid() && NativeKind(written) == kind
      modifies this
      ensures Valid() && closed == old(closed)
      ensures old(closed) ==> r == Err(Closed(CalculatorName(kind))) && trace == old(trace)
      ensures !old(closed) && Difficulty.Kind(attributes) != kind ==>
        r == Err(UnexpectedAttributes(kind, Difficulty.Kind(attributes))) && trace == old(trace)
      ensures !old(closed) && Difficulty.Kind(attributes) == kind ==>
        trace == old(trace) + [Invoke(CalculateCall(
          Score.ToNative(score, ruleset.native.handle, beatmap.native.handle, mods.handle),
          Difficulty.ToNative(attributes)))]
      ensures !old(closed) && Difficulty.Kind(attributes) == kind ==> (r.Err? <==> code != Value(Success))
      ensures !old(closed) && Difficulty.Kind(attributes) == kind && r.Err? ==>
        r.error == NativeFailure(CalculatePerformance(kind), FromValue(code))
      ensures r.Ok? ==> r.value == FromNative(written) && Kind(r.value) == kind
    {
      match CheckNotClosed() {
        case Fail(e) => return Err(e);
        case Pass =>
      }
      match CheckAttributes(kind, attributes) {
        case Fail(e) => return Err(e);
        case Pass =>
      }
      var nativeScore := Score.ToNative(score, ruleset.native.handle, beatmap.native.handle, mods.handle);
      var nativeDifficulty := Difficulty.ToNative(attributes);
      ghost var before := trace;
      trace := trace + [Invoke(CalculateCall(nativeScore, nativeDifficulty))];
      InvokeKeepsLifecycle(closed, before, CalculateCall(nativeScore, nativeDifficulty));
      match NativeHelper.CheckError(code, CalculatePerformance(kind)) {
        case Fail(e) => r := Err(e);
        case Pass => r := Ok(FromNative(written));
      }
    }

    /** close: the variant's destroy at most once over the calculator's life. */
    method Close()
      requires Valid()
      modifies this
      ensures Valid() && closed
      ensures trace == if old(closed) then old(trace) else old(trace) + [Destroy]
      ensures DestroyCount(trace) == 1
    {
      if !closed {
        ghost var before := trace;
        trace := trace + [Destroy];
        closed := true;
        CloseKeepsLifecycle(false, before);
      }
    }

    /** __exit__: leaving a `with` block closes the calculator. */
    method Exit()
      requires Valid()
      modifies this
      ensures Valid() && closed
      ensures trace == if old(closed) then old(trace) else old(trace) + [Destroy]
    {
      Close();
    }

    /** __del__: closes only a calculator that is still open, so a finalizer never destroys twice. */
    method Finalize()
      requires Valid()
      modifies this
      ensures Valid() && closed
      ensures trace == if old(closed) then old(trace) else old(trace) + [Destroy]
    {
      if !closed {
        Close();
      }
    }
  }

  /**
   * create_performance_calculator: reads the ruleset's id (which raises on a closed ruleset) and
   * creates the calculator of that ruleset; any id outside 0..3 raises ValueError, and in both
   * error cases no native create call is made.
   */
  method CreatePerformanceCalculator(ruleset: Ruleset, code: int, written: Handle)
    returns (r: Result<PerformanceCalculator, Error>, ghost createCalls: nat)
    ensures ruleset.closed ==> r == Err(Closed(RulesetClassName)) && createCalls == 0
    ensures !ruleset.closed && KindOfId(ruleset.native.rulesetId).None? ==>
      r == Err(UnsupportedRuleset(ruleset.native.rulesetId)) && createCalls == 0
    ensures !ruleset.closed && KindOfId(ruleset.native.rulesetId).Some? ==> createCalls == 1
    ensures !ruleset.closed && KindOfId(ruleset.native.rulesetId).Some? ==>
      (r.Err? <==> code != Value(Success))
    ensures !ruleset.closed && KindOfId(ruleset.native.rulesetId).Some? && r.Err? ==>
      r.error == NativeFailure(Operation.CreatePerformanceCalculator(KindOfId(ruleset.native.rulesetId).value), FromValue(code))
    ensures r.Ok? ==> fresh(r.value) && r.value.Valid() && !r.value.closed
    ensures r.Ok? ==> Id(r.value.kind) == ruleset.native.rulesetId && r.value.handle == written
  {
    match ruleset.RulesetId() {
      case Err(e) => return Err(e), 0;
      case Ok(id) =>
        match KindOfId(id) {
          case None => return Err(UnsupportedRuleset(id)), 0;
          case Some(kind) =>
            r := PerformanceCalculator.Create(kind, code, written);
            createCalls := 1;
        }
    }
  }
}
