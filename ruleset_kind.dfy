/** The four rulesets (game modes) and their integer discriminants 0..3. */
module RulesetKinds {
  import opened Wrappers

  datatype RulesetKind = Osu | Taiko | Catch | Mania

  /** The ruleset id of each kind. */
  function Id(k: RulesetKind): int {
    match k
    case Osu => 0
    case Taiko => 1
    case Catch => 2
    case Mania => 3
  }

  /** The kind an id selects; only 0..3 select one. */
  function KindOfId(id: int): (r: Option<RulesetKind>)
    ensures r.Some? <==> 0 <= id <= 3
    ensures r.Some? ==> Id(r.value) == id
  {
    if id == 0 then Some(Osu)
    else if id == 1 then Some(Taiko)
    else if id == 2 then Some(Catch)
    else if id == 3 then Some(Mania)
    else None
  }

  /** The prefix of the per-ruleset class names (OsuDifficultyCalculator, ...). */
  function KindName(k: RulesetKind): string {
    match k
    case Osu => "Osu"
    case Taiko => "Taiko"
    case Catch => "Catch"
    case Mania => "Mania"
  }

  /** Every kind is selected by its own id and by no other. */
  lemma KindOfIdRoundTrip(k: RulesetKind)
    ensures KindOfId(Id(k)) == Some(k)
  {
    match k
    case Osu =>
    case Taiko =>
    case Catch =>
    case Mania =>
  }
}
