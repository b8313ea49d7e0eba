/**
 * Ruleset: a game mode held by handle, created from its integer id. Its id and short name are
 * readable while it is open; close destroys the handle once.
 */
module Rulesets {
  import opened Wrappers
  import opened ErrorCodes
  import opened Native
  import opened RulesetKinds
  import opened Text
  import NativeHelper

  /** The record Ruleset_CreateFromId writes through its out-pointer. */
  datatype NativeRuleset = NativeRuleset(handle: Handle, rulesetId: int)

  const RulesetClassName := "Ruleset"

  /** The short name of each known ruleset kind. */
  function KindShortName(k: RulesetKind): string {
    match k
    case Osu => "osu"
    case Taiko => "taiko"
    case Catch => "catch"
    case Mania => "mania"
  }

  /** `_RULESET_SHORT_NAME_BY_ID.get(id, f"unknown({id})")`. */
  function ShortNameOf(id: int): (r: string)
    ensures KindOfId(id).Some? ==> r == KindShortName(KindOfId(id).value)
    ensures KindOfId(id).None? ==> r == "unknown(" + IntToString(id) + ")"
  {
    match KindOfId(id)
    case Some(k) => KindShortName(k)
    case None => "unknown(" + IntToString(id) + ")"
  }

  /** The short name determines the id: no two ids, known or unknown, share a short name. */
  lemma ShortNameInjective(a: int, b: int)
    requires ShortNameOf(a) == ShortNameOf(b)
    ensures a == b
  {
    var sa, sb := ShortNameOf(a), ShortNameOf(b);
    if KindOfId(a).None? && KindOfId(b).None? {
      var n := |IntToString(a)|;
      assert |sa| == n + 9 && |sb| == |IntToString(b)| + 9;
      assert IntToString(a) == sa[8..8 + n];
      assert IntToString(b) == sb[8..8 + n];
      IntToStringInjective(a, b);
    }
  }

  /** The prefix of the open-ruleset __str__ up to the id. */
  const StrPrefix := "Ruleset{rulesetId="

  class Ruleset {
    const native: NativeRuleset
    var closed: bool
    /** The native calls made on this handle: a ruleset makes none but its destroy. */
    ghost var trace: seq<NativeCall<()>>

    ghost predicate Valid()
      reads this
    {
      Lifecycle(closed, trace)
    }

    constructor (native: NativeRuleset)
      ensures Valid() && this.native == native && !closed && trace == []
    {
      this.native := native;
      closed := false;
      trace := [];
    }

    /** from_id: a non-success code raises "Failed to create ruleset from ID" and produces no Ruleset. */
    static method FromId(rulesetId: int, code: int, written: NativeRuleset) returns (r: Result<Ruleset, Error>)
      ensures r.Err? <==> code != Value(Success)
      ensures r.Err? ==> r.error == NativeFailure(CreateRuleset(rulesetId), FromValue(code))
      ensures r.Ok? ==> fresh(r.value) && r.value.Valid() && r.value.native == written
      ensures r.Ok? ==> !r.value.closed && r.value.trace == []
    {
      match NativeHelper.CheckError(code, CreateRuleset(rulesetId)) {
        case Fail(e) => r := Err(e);
        case Pass =>
          var rs := new Ruleset(written);
          r := Ok(rs);
      }
    }

    /** ruleset_id: the record's id, or "Ruleset has been closed". */
    function RulesetId(): (r: Result<int, Error>)
      reads this
      ensures r.Err? <==> closed
      ensures r.Err? ==> r.error == Closed(RulesetClassName)
      ensures r.Ok? ==> r.value == native.rulesetId
    {
      if closed then Err(Closed(RulesetClassName)) else Ok(native.rulesetId)
    }

    /** short_name: the table entry for the id, "unknown(<id>)" off the table, or the closed error. */
    function ShortName(): (r: Result<string, Error>)
      reads this
      ensures r.Err? <==> closed
      ensures r.Err? ==> r.error == Closed(RulesetClassName)
      ensures r.Ok? ==> r.value == ShortNameOf(native.rulesetId)
    {
      if closed then Err(Closed(RulesetClassName)) else Ok(ShortNameOf(native.rulesetId))
    }

    /** __str__: "Ruleset{closed=true}" once closed, else "Ruleset{rulesetId=N, shortName='S'}". */
    function ToString(): (r: string)
      reads this
      ensures closed <==> r == "Ruleset{closed=true}"
      ensures !closed ==> r == StrPrefix + IntToString(native.rulesetId) + ", shortName='" + ShortNameOf(native.rulesetId) + "'}"
    {
      if closed then "Ruleset{closed=true}"
      else StrPrefix + IntToString(native.rulesetId) + ", shortName='" + ShortNameOf(native.rulesetId) + "'}"
    }

    /** close: Ruleset_Destroy at most once over the ruleset's life. */
    method Close()
      requires Valid()
      modifies this
      ensures Valid() && closed
      ensures trace == if old(closed) then old(trace) else old(trace) + [Destroy]
      ensures DestroyCount(trace) == 1
    {
      if !closed {
        ghost var before := trace;
        trace := trace + [Destroy];
        closed := true;
        CloseKeepsLifecycle(false, before);
      }
    }

    /** __exit__: leaving a `with` block leaves the ruleset closed. */
    method Exit()
      requires Valid()
      modifies this
      ensures Valid() && closed
      ensures trace == if old(closed) then old(trace) else old(trace) + [Destroy]
    {
      Close();
    }
  }

  /** The id printed by __str__ on an open ruleset reads back as the ruleset's id. */
  lemma ToStringShowsId(rs: Ruleset)
    requires !rs.closed
    ensures var s := rs.ToString(); var n := |IntToString(rs.native.rulesetId)|;
      |s| > |StrPrefix| + n && s[..|StrPrefix|] == StrPrefix
      && ParseInt(s[|StrPrefix|..|StrPrefix| + n]) == rs.native.rulesetId
  {
    var s := rs.ToString();
    var digits := IntToString(rs.native.rulesetId);
    IntToStringRoundTrip(rs.native.rulesetId);
    assert s[|StrPrefix|..|StrPrefix| + |digits|] == digits;
  }
}
