/**
 * The values the perceptor parser delivers: game state, hear messages, foot
 * pressure, field lines, and the player detections of the vision perceptor.
 */
module Perceptors {
  import opened Common
  import opened RobotConsts
  import opened GameStateConsts

  /** GameStatePerceptor: play time and the play mode, null when unknown. */
  datatype GameState = GameState(playTime: real, playMode: Option<PlayMode>)

  /** HearPerceptor: when and from which direction a message was heard. */
  datatype Hear = Hear(time: real, direction: real, message: string)

  /** ForceResistancePerceptor: point of contact and force on one foot. */
  datatype ForceResistance = ForceResistance(origin: Vec3, force: Vec3)

  /**
   * LineVisionPerceptor: the two end points of a seen field line; an end
   * point whose numbers did not parse is null.
   */
  datatype LinePerception = LinePerception(start: Option<Polar>, end: Option<Polar>)

  /**
   * A player as the vision message describes it: team and id when they
   * were sent, and the polar position of each body part under the name the
   * message used (null for a position given without a part name).
   */
  datatype PlayerDetection = PlayerDetection(
    team: Option<string>, id: Option<string>, parts: map<Option<string>, Option<Polar>>)

  /**
   * `out` is the body part table built from the name-keyed table `input`:
   * it has one key per translated input name, a known body part holds the
   * value reported under its own lowercase name, and the null key (every
   * unknown name, and the missing name) holds the value of one of the
   * names that translate to null.
   */
  ghost predicate Translated(input: map<Option<string>, Option<Polar>>,
                             out: map<Option<BodyPartName>, Option<Polar>>)
  {
    && out.Keys == (set s | s in input.Keys :: GetBodyPartName(s))
    && (forall b: BodyPartName :: Some(b) in out ==> Some(BodyPartString(b)) in input &&
                                                      out[Some(b)] == input[Some(BodyPartString(b))])
    && (None in out ==> exists s :: s in input && GetBodyPartName(s).None? && out[None] == input[s])
  }

  /** PlayerVisionPerceptor: one detected player, fixed once built. */
  class PlayerVision {
    const team: Option<string>
    const id: Option<string>
    const bodyParts: map<Option<BodyPartName>, Option<Polar>>

    /** This perceptor holds exactly what the detection reported. */
    ghost predicate Describes(d: PlayerDetection)
    {
      team == d.team && id == d.id && Translated(d.parts, bodyParts)
    }

    /**
     * Keeps team and id as given (null included) and fills a new table by
     * translating every key of the given one, in the table's own iteration
     * order, which the model leaves open.
     */
    constructor (teamName: Option<string>, playerID: Option<string>,
                 partsByName: map<Option<string>, Option<Polar>>)
      ensures Describes(PlayerDetection(teamName, playerID, partsByName))
    {
      var table: map<Option<BodyPartName>, Option<Polar>> := map[];
      var left := partsByName.Keys;
      while left != {}
        invariant left <= partsByName.Keys
        invariant table.Keys == (set s | s in partsByName.Keys - left :: GetBodyPartName(s))
        invariant forall b: BodyPartName :: Some(b) in table ==>
                    Some(BodyPartString(b)) in partsByName &&
                    table[Some(b)] == partsByName[Some(BodyPartString(b))]
        invariant None in table ==> exists s :: s in partsByName && GetBodyPartName(s).None? &&
                                                 table[None] == partsByName[s]
        decreases |left|
      {
        var s :| s in left;
        table := table[GetBodyPartName(s) := partsByName[s]];
        left := left - {s};
      }
      assert partsByName.Keys - left == partsByName.Keys;
      team := teamName;
      id := playerID;
      bodyParts := table;
    }

    /** getBodyPart: the stored position of a body part, null when unseen. */
    function GetBodyPart(b: BodyPartName): Option<Polar>
    {
      if Some(b) in bodyParts then bodyParts[Some(b)] else None
    }

    /**
     * Asking for a body part gives the position the detection reported
     * under that part's name, or null when it reported none.
     */
    lemma GetBodyPartReportsDetection(d: PlayerDetection, b: BodyPartName)
      requires Describes(d)
      ensures GetBodyPart(b) == if Some(BodyPartString(b)) in d.parts
                                then d.parts[Some(BodyPartString(b))] else None
    {
      if Some(BodyPartString(b)) in d.parts {
        assert Some(b) == GetBodyPartName(Some(BodyPartString(b)));
        assert Some(b) in bodyParts;
      }
    }
  }
}
