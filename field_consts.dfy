/** The landmarks of the soccer field that the vision perceptor reports. */
module FieldConsts {
  import opened Common

  datatype GoalPostID = G1L | G1R | G2L | G2R

  datatype FlagID = F1L | F1R | F2L | F2R

  const GoalPostIDs: map<string, GoalPostID> := map[
    "G1L" := G1L, "G1R" := G1R, "G2L" := G2L, "G2R" := G2R]

  const FlagNames: map<string, FlagID> := map[
    "F1L" := F1L, "F1R" := F1R, "F2L" := F2L, "F2R" := F2R]

  function GoalPostName(g: GoalPostID): string
  {
    match g
    case G1L => "G1L"
    case G1R => "G1R"
    case G2L => "G2L"
    case G2R => "G2R"
  }

  function FlagName(f: FlagID): string
  {
    match f
    case F1L => "F1L"
    case F1R => "F1R"
    case F2L => "F2L"
    case F2R => "F2R"
  }

  /**
   * getGoalPostID: case-sensitive table lookup; the result is a goal post
   * exactly when the string is that post's name, and null otherwise.
   */
  function GetGoalPostID(s: string): (r: Option<GoalPostID>)
    ensures forall g :: r == Some(g) <==> s == GoalPostName(g)
    ensures r.None? <==> s !in {"G1L", "G1R", "G2L", "G2R"}
  {
    if s in GoalPostIDs then Some(GoalPostIDs[s]) else None
  }

  /**
   * getFlagID: case-sensitive table lookup; the result is a flag exactly
   * when the string is that flag's name, and null otherwise.
   */
  function GetFlagID(s: string): (r: Option<FlagID>)
    ensures forall f :: r == Some(f) <==> s == FlagName(f)
    ensures r.None? <==> s !in {"F1L", "F1R", "F2L", "F2R"}
  {
    if s in FlagNames then Some(FlagNames[s]) else None
  }

  /** No string names both a goal post and a flag. */
  lemma NamesDisjoint(s: string)
    ensures !(GetGoalPostID(s).Some? && GetFlagID(s).Some?)
  {
  }

  /** Each table maps the names one-to-one onto the enumeration. */
  lemma TablesAreBijections(g1: GoalPostID, g2: GoalPostID, f1: FlagID, f2: FlagID)
    ensures GetGoalPostID(GoalPostName(g1)) == Some(g1)
    ensures GetFlagID(FlagName(f1)) == Some(f1)
    ensures GoalPostName(g1) == GoalPostName(g2) ==> g1 == g2
    ensures FlagName(f1) == FlagName(f2) ==> f1 == f2
  {
  }
}
