/**
 * The play modes of a SimSpark soccer game and the lookup that turns the
 * server's play mode word into one of them.
 */
module GameStateConsts {
  import opened Common

  datatype PlayMode =
    | BeforeKickOff | KickOffLeft | KickOffRight | PlayOn
    | KickInLeft | KickInRight | CornerKickLeft | CornerKickRight
    | GoalKickLeft | GoalKickRight | OffsideLeft | OffsideRight
    | GameOver | GoalLeft | GoalRight | FreeKickLeft | FreeKickRight
    | NoPlayMode

  /** The play mode table, keyed by lowercase names. */
  const ModeMapping: map<string, PlayMode> := map[
    "beforekickoff" := BeforeKickOff,
    "kickoff_left" := KickOffLeft,
    "kickoff_right" := KickOffRight,
    "playon" := PlayOn,
    "kickin_left" := KickInLeft,
    "kickin_right" := KickInRight,
    "corner_kick_left" := CornerKickLeft,
    "corner_kick_right" := CornerKickRight,
    "goal_kick_left" := GoalKickLeft,
    "goal_kick_right" := GoalKickRight,
    "offside_left" := OffsideLeft,
    "offside_right" := OffsideRight,
    "gameover" := GameOver,
    "goal_left" := GoalLeft,
    "goal_right" := GoalRight,
    "free_kick_left" := FreeKickLeft,
    "free_kick_right" := FreeKickRight,
    "none" := NoPlayMode]

  /** The lowercase name of each play mode. */
  function ModeName(m: PlayMode): string
  {
    match m
    case BeforeKickOff => "beforekickoff"
    case KickOffLeft => "kickoff_left"
    case KickOffRight => "kickoff_right"
    case PlayOn => "playon"
    case KickInLeft => "kickin_left"
    case KickInRight => "kickin_right"
    case CornerKickLeft => "corner_kick_left"
    case CornerKickRight => "corner_kick_right"
    case GoalKickLeft => "goal_kick_left"
    case GoalKickRight => "goal_kick_right"
    case OffsideLeft => "offside_left"
    case OffsideRight => "offside_right"
    case GameOver => "gameover"
    case GoalLeft => "goal_left"
    case GoalRight => "goal_right"
    case FreeKickLeft => "free_kick_left"
    case FreeKickRight => "free_kick_right"
    case NoPlayMode => "none"
  }

  /** String.toLowerCase on one character, for the ASCII letters. */
  function LowerChar(c: char): char
  {
    if 'A' <= c <= 'Z' then (c as int + 32) as char else c
  }

  /** String.toLowerCase, for the ASCII letters. */
  function ToLower(s: string): (r: string)
    ensures |r| == |s| && forall i :: 0 <= i < |s| ==> r[i] == LowerChar(s[i])
  {
    if s == [] then [] else [LowerChar(s[0])] + ToLower(s[1..])
  }

  /** getPlayMode: lower-case the word, then look it up; unknown gives null. */
  function GetPlayMode(s: string): Option<PlayMode>
  {
    var key := ToLower(s);
    if key in ModeMapping then Some(ModeMapping[key]) else None
  }

  /** Each play mode's name is in the table, and leads to that play mode. */
  lemma NamesLeadToModes(m: PlayMode)
    ensures ModeName(m) in ModeMapping && ModeMapping[ModeName(m)] == m
  {
  }

  /** Every key of the table is the name of the play mode it maps to. */
  lemma EntryIsNamed(key: string)
    requires key in ModeMapping
    ensures ModeName(ModeMapping[key]) == key
  {
  }

  /** The table holds the 18 names and nothing else. */
  lemma TableIsTheNames(key: string)
    ensures key in ModeMapping <==> exists m :: ModeName(m) == key
  {
    if key in ModeMapping {
      EntryIsNamed(key);
    } else {
      forall m ensures ModeName(m) != key {
        NamesLeadToModes(m);
      }
    }
  }

  /** `s` holds no ASCII uppercase letter. */
  predicate NoUpper(s: string)
  {
    forall c :: c in s ==> !('A' <= c <= 'Z')
  }

  /** Lower-casing a string without uppercase letters changes nothing. */
  lemma LowerOfLower(s: string)
    requires NoUpper(s)
    ensures ToLower(s) == s
  {
    forall i | 0 <= i < |s| ensures ToLower(s)[i] == s[i] {
      assert s[i] in s;
    }
  }

  /**
   * The table's names are already lowercase, so each of them is reachable
   * through the lower-casing lookup.
   */
  lemma NamesAreLowercase(m: PlayMode)
    ensures ToLower(ModeName(m)) == ModeName(m)
    ensures GetPlayMode(ModeName(m)) == Some(m)
  {
    ModeNameNoUpper(m);
    LowerOfLower(ModeName(m));
    NamesLeadToModes(m);
  }

  /** No play mode name holds an uppercase letter. */
  lemma ModeNameNoUpper(m: PlayMode)
    ensures NoUpper(ModeName(m))
  {
  }

  lemma ToLowerIdempotent(s: string)
    ensures ToLower(ToLower(s)) == ToLower(s)
  {
  }

  /**
   * The lookup yields a play mode exactly for the strings that lower-case
   * to its name; every other string yields null.
   */
  lemma GetPlayModeExactly(s: string, m: PlayMode)
    ensures GetPlayMode(s) == Some(m) <==> ToLower(s) == ModeName(m)
  {
    NamesLeadToModes(m);
    var key := ToLower(s);
    if key in ModeMapping {
      EntryIsNamed(key);
    }
  }

  /** Matching ignores case: a string and its lowercase form agree. */
  lemma GetPlayModeIgnoresCase(s: string)
    ensures GetPlayMode(s) == GetPlayMode(ToLower(s))
  {
    ToLowerIdempotent(s);
  }

  /** Distinct play modes have distinct names, so the table is a bijection. */
  lemma ModeNamesInjective(m1: PlayMode, m2: PlayMode)
    requires ModeName(m1) == ModeName(m2)
    ensures m1 == m2
  {
    NamesLeadToModes(m1);
    NamesLeadToModes(m2);
  }
}
