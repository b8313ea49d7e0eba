/**
 * The four difficulty calculators (osu!, taiko, catch, mania) and create_difficulty_calculator.
 * The four classes differ only in their native functions and attributes record, so one class
 * parameterised by the ruleset kind stands for all of them; each is a NativeHandler over the
 * calculator handle.
 */
module DifficultyCalculators {
  import opened Wrappers
  import opened ErrorCodes
  import opened RulesetKinds
  import opened Native
  import NativeHelper
  import opened NativeHandlers
  import opened Rulesets
  import opened Beatmaps
  import opened ModsCollections
  import opened DifficultyAttributesModel

  /** A native call on a difficulty calculator handle: XDifficultyCalculator_Calculate with the mods handle. */
  datatype DifficultyOp = CalculateCall(modsHandle: Handle)

  /** The calculator's class name, as the closed guard reports it. */
  function CalculatorName(kind: RulesetKind): string {
    KindName(kind) + "DifficultyCalculator"
  }

  class DifficultyCalculator {
    const kind: RulesetKind
    const base: NativeHandler<DifficultyOp>

    ghost predicate Valid()
      reads base
    {
      base.Valid() && base.className == CalculatorName(kind)
    }

    constructor (kind: RulesetKind, handle: Handle)
      ensures Valid() && this.kind == kind && fresh(base)
      ensures base.handle == handle && !base.closed && base.trace == []
    {
      this.kind := kind;
      base := new NativeHandler(handle, CalculatorName(kind));
    }

    /**
     * create: XDifficultyCalculator_Create on the ruleset and beatmap handles; a non-success
     * code raises "Failed to create XDifficultyCalculator" and produces no calculator.
     */
    static method Create(kind: RulesetKind, ruleset: Ruleset, beatmap: Beatmap, code: int, written: Handle)
      returns (r: Result<DifficultyCalculator, Error>, ghost sentRuleset: Handle, ghost sentBeatmap: Handle)
      ensures sentRuleset == ruleset.native.handle && sentBeatmap == beatmap.native.handle
      ensures r.Err? <==> code != Value(Success)
      ensures r.Err? ==> r.error == NativeFailure(Operation.CreateDifficultyCalculator(kind), FromValue(code))
      ensures r.Ok? ==> fresh(r.value) && fresh(r.value.base) && r.value.Valid() && r.value.kind == kind
      ensures r.Ok? ==> r.value.base.handle == written && !r.value.base.closed && r.value.base.trace == []
    {
      sentRuleset, sentBeatmap := ruleset.native.handle, beatmap.native.handle;
      match NativeHelper.CheckError(code, Operation.CreateDifficultyCalculator(kind)) {
        case Fail(e) => r := Err(e);
        case Pass =>
          var c := new DifficultyCalculator(kind, written);
          r := Ok(c);
      }
    }

    /**
     * calculate: raises on a closed calculator before any native call; otherwise one native call
     * with the mods handle, and on success the attributes variant of the calculator's own ruleset.
     * `written` is the record the native call writes, which has the calculator's record type.
     */
    method Calculate(mods: ModsCollection, code: int, written: NativeDifficultyAttributes)
      returns (r: Result<DifficultyAttributes, Error>)
      requires Valid() && NativeKind(written) == kind
      modifies base
      ensures Valid() && base.closed == old(base.closed)
      ensures old(base.closed) ==> r == Err(Closed(CalculatorName(kind))) && base.trace == old(base.trace)
      ensures !old(base.closed) ==> base.trace == old(base.trace) + [Invoke(CalculateCall(mods.handle))]
      ensures !old(base.closed) ==> (r.Err? <==> code != Value(Success))
      ensures !old(base.closed) && r.Err? ==> r.error == NativeFailure(CalculateDifficulty(kind), FromValue(code))
      ensures r.Ok? ==> r.value == FromNative(written) && Kind(r.value) == kind
    {
      match base.CheckNotClosed() {
        case Fail(e) => return Err(e);
        case Pass =>
      }
      base.Call(CalculateCall(mods.handle));
      match NativeHelper.CheckError(code, CalculateDifficulty(kind)) {
        case Fail(e) => r := Err(e);
        case Pass => r := Ok(FromNative(written));
      }
    }

    /** close: the variant's destroy at most once over the calculator's life. */
    method Close()
      requires Valid()
      modifies base
      ensures Valid() && base.closed
      ensures base.trace == if old(base.closed) then old(base.trace) else old(base.trace) + [Destroy]
      ensures DestroyCount(base.trace) == 1
    {
      base.Close();
    }

    /** __exit__, inherited from NativeHandler: leaving a `with` block closes the calculator. */
    method Exit()
      requires Valid()
      modifies base
      ensures Valid() && base.closed
      ensures base.trace == if old(base.closed) then old(base.trace) else old(base.trace) + [Destroy]
    {
      base.Exit();
    }
  }

  /**
   * create_difficulty_calculator: reads the ruleset's id (which raises on a closed ruleset) and
   * creates the calculator of that ruleset; any id outside 0..3 raises ValueError, and in both
   * error cases no native create call is made.
   */
  method CreateDifficultyCalculator(ruleset: Ruleset, beatmap: Beatmap, code: int, written: Handle)
    returns (r: Result<DifficultyCalculator, Error>, ghost createCalls: nat)
    ensures ruleset.closed ==> r == Err(Closed(RulesetClassName)) && createCalls == 0
    ensures !ruleset.closed && KindOfId(ruleset.native.rulesetId).None? ==>
      r == Err(UnsupportedRuleset(ruleset.native.rulesetId)) && createCalls == 0
    ensures !ruleset.closed && KindOfId(ruleset.native.rulesetId).Some? ==> createCalls == 1
    ensures !ruleset.closed && KindOfId(ruleset.native.rulesetId).Some? ==>
      (r.Err? <==> code != Value(Success))
    ensures !ruleset.closed && KindOfId(ruleset.native.rulesetId).Some? && r.Err? ==>
      r.error == NativeFailure(Operation.CreateDifficultyCalculator(KindOfId(ruleset.native.rulesetId).value), FromValue(code))
    ensures r.Ok? ==> fresh(r.value) && fresh(r.value.base) && r.value.Valid() && !r.value.base.closed
    ensures r.Ok? ==> Id(r.value.kind) == ruleset.native.rulesetId && r.value.base.handle == written
  {
    match ruleset.RulesetId() {
      case Err(e) => return Err(e), 0;
      case Ok(id) =>
        match KindOfId(id) {
          case None => return Err(UnsupportedRuleset(id)), 0;
          case Some(kind) =>
            ghost var sentRuleset, sentBeatmap;
            r, sentRuleset, sentBeatmap := DifficultyCalculator.Create(kind, ruleset, beatmap, code, written);
            createCalls := 1;
        }
    }
  }
}
