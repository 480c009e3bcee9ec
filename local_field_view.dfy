/**
 * LocalFieldView: what the agent knows of the field around it, kept
 * across cycles from the vision readings: the lines of the last sighting,
 * the goal posts, flags and ball with the time each was last seen, and
 * every other player ever seen, in a table keyed by team and id and in a
 * list in the order they were first seen.
 */
module FieldView {
  import opened Common
  import opened RobotConsts
  import opened FieldConsts
  import opened Perceptors
  import opened Perception
  import opened DatedItems

  // ---------------------------------------------------------------------
  // Coordinates
  // ---------------------------------------------------------------------

  /**
   * correctCoordsByHeadPos: the reading as seen from a head turned by the
   * neck angles: the distance is kept, the neck yaw is added to the
   * azimuth and the neck pitch to the elevation.
   */
  function Corrected(neckYaw: real, neckPitch: real, p: Polar): (q: Polar)
    ensures q.distance == p.distance
    ensures q.alpha - p.alpha == neckYaw && q.delta - p.delta == neckPitch
  {
    Polar(p.distance, p.alpha + neckYaw, p.delta + neckPitch)
  }

  /** Correcting by the opposite neck angles undoes a correction. */
  lemma CorrectedInverse(neckYaw: real, neckPitch: real, p: Polar)
    ensures Corrected(-neckYaw, -neckPitch, Corrected(neckYaw, neckPitch, p)) == p
  {
  }

  /** The data of a ball, goal post or flag model after a cycle: the corrected position when seen, else None. */
  function Sighting(d: ItemData, seen: Option<Polar>, neckYaw: real, neckPitch: real): Option<ItemData>
    requires !d.PlayerData?
  {
    if seen.Some? then Some(WithCoords(d, Corrected(neckYaw, neckPitch, seen.value))) else None
  }

  // ---------------------------------------------------------------------
  // Lines
  // ---------------------------------------------------------------------

  /** LineModel: the two corrected end points and the time of the sighting. */
  datatype LineModel = LineModel(start: Polar, end: Polar, timeStamp: real)

  /** A line with a null end point makes correctCoordsByHeadPos throw a NullPointerException. */
  predicate Broken(lp: LinePerception)
  {
    lp.start.None? || lp.end.None?
  }

  /** The model of a line that is not broken. */
  function LineOf(lp: LinePerception, neckYaw: real, neckPitch: real, now: real): LineModel
    requires !Broken(lp)
  {
    LineModel(Corrected(neckYaw, neckPitch, lp.start.value), Corrected(neckYaw, neckPitch, lp.end.value), now)
  }

  /** The lines built from a sighting, and whether a broken one stopped the build. */
  datatype LinesBuilt = LinesBuilt(models: seq<LineModel>, thrown: bool)

  /**
   * The line loop of update: one model per line, in order, up to the first
   * broken line, where the exception ends the loop.
   */
  function BuildLines(lps: seq<LinePerception>, neckYaw: real, neckPitch: real, now: real): (r: LinesBuilt)
    ensures r.thrown <==> exists i :: 0 <= i < |lps| && Broken(lps[i])
    ensures |r.models| <= |lps| && (!r.thrown ==> |r.models| == |lps|)
    ensures forall i :: 0 <= i < |r.models| ==>
              !Broken(lps[i]) && r.models[i] == LineOf(lps[i], neckYaw, neckPitch, now)
    ensures r.thrown ==> Broken(lps[|r.models|])
  {
    if lps == [] then LinesBuilt([], false)
    else if Broken(lps[0]) then LinesBuilt([], true)
    else
      var rest := BuildLines(lps[1..], neckYaw, neckPitch, now);
      assert forall i :: 1 <= i < |lps| ==> lps[i] == lps[1..][i - 1];
      LinesBuilt([LineOf(lps[0], neckYaw, neckPitch, now)] + rest.models, rest.thrown)
  }

  // ---------------------------------------------------------------------
  // Players
  // ---------------------------------------------------------------------

  /** Java's string concatenation writes a null reference as "null". */
  function NullText(s: Option<string>): string
  {
    if s.Some? then s.value else "null"
  }

  /** The table key of a player: team and id concatenated. */
  function PlayerKey(team: Option<string>, id: Option<string>): string
  {
    NullText(team) + NullText(id)
  }

  /** The key of a player model's data. */
  function KeyOf(d: ItemData): string
    requires d.PlayerData?
  {
    PlayerKey(d.team, d.id)
  }

  /** Different team/id pairs can share a key, and so a model. */
  lemma KeysCollide()
    ensures PlayerKey(Some("ab"), Some("1")) == PlayerKey(Some("a"), Some("b1"))
    ensures PlayerKey(None, Some("7")) == PlayerKey(Some("null"), Some("7"))
  {
  }

  /** The corrected positions of the body parts a detection reports. */
  function BodyPartsSeen(pvp: PlayerVision, neckYaw: real, neckPitch: real): (m: map<BodyPartName, Polar>)
    ensures forall b :: b in m <==> pvp.GetBodyPart(b).Some?
    ensures forall b :: b in m ==> m[b] == Corrected(neckYaw, neckPitch, pvp.GetBodyPart(b).value)
  {
    map b: BodyPartName | pvp.GetBodyPart(b).Some? :: Corrected(neckYaw, neckPitch, pvp.GetBodyPart(b).value)
  }

  /** The player table's value: the model of each key, and the keys in the order of the list. */
  datatype Roster = Roster(table: map<string, Dated>, order: seq<string>)

  /**
   * The table and the list agree: each model is a player stored under its
   * own key, and the list holds every key exactly once.
   */
  predicate RosterOK(r: Roster)
  {
    && (forall k :: k in r.table ==> r.table[k].data.PlayerData? && KeyOf(r.table[k].data) == k)
    && (forall i, j :: 0 <= i < j < |r.order| ==> r.order[i] != r.order[j])
    && (forall k :: k in r.table ==> k in r.order)
    && (forall i :: 0 <= i < |r.order| ==> r.order[i] in r.table)
  }

  /**
   * One detection in the player loop: ignored when it has the agent's own
   * key; a known key is stamped now with the new body parts; a new key
   * gets a new model, appended to the list.
   */
  function SeePlayer(r: Roster, own: string, pvp: PlayerVision, neckYaw: real, neckPitch: real, now: real): Roster
  {
    var key := PlayerKey(pvp.team, pvp.id);
    var parts := BodyPartsSeen(pvp, neckYaw, neckPitch);
    if key == own then r
    else if key in r.table && r.table[key].data.PlayerData? then
      Roster(r.table[key := Dated(now, true, r.table[key].data.(bodyParts := parts))], r.order)
    else Roster(r.table[key := Dated(now, true, PlayerData(pvp.team, pvp.id, parts))], r.order + [key])
  }

  /** The player loop over the detections of a cycle, in order. */
  function SeePlayers(r: Roster, own: string, ps: seq<PlayerVision>, neckYaw: real, neckPitch: real, now: real): Roster
  {
    if ps == [] then r
    else SeePlayer(SeePlayers(r, own, ps[..|ps| - 1], neckYaw, neckPitch, now), own, ps[|ps| - 1], neckYaw, neckPitch, now)
  }

  /** The keys of the detections other than the agent's own. */
  function SeenKeys(own: string, ps: seq<PlayerVision>): set<string>
  {
    set i | 0 <= i < |ps| && PlayerKey(ps[i].team, ps[i].id) != own :: PlayerKey(ps[i].team, ps[i].id)
  }

  /** The key a detection adds or refreshes: none when it is the agent's own. */
  function SeenKey(own: string, pvp: PlayerVision): set<string>
  {
    var key := PlayerKey(pvp.team, pvp.id);
    if key == own then {} else {key}
  }

  /**
   * One detection keeps the table and the list in agreement; its key, unless
   * it is the agent's own, is stamped now and in view; every other model is
   * unchanged; players are never removed and the list only grows at its end.
   */
  lemma SeePlayerKeeps(r: Roster, own: string, pvp: PlayerVision, neckYaw: real, neckPitch: real, now: real)
    requires RosterOK(r)
    ensures var r' := SeePlayer(r, own, pvp, neckYaw, neckPitch, now);
            && RosterOK(r')
            && r'.table.Keys == r.table.Keys + SeenKey(own, pvp)
            && (forall k :: k in SeenKey(own, pvp) ==> r'.table[k].timeStamp == now && r'.table[k].inFOV)
            && (forall k :: k in r.table && k !in SeenKey(own, pvp) ==> r'.table[k] == r.table[k])
            && r.order <= r'.order
  {
    var key := PlayerKey(pvp.team, pvp.id);
    var r' := SeePlayer(r, own, pvp, neckYaw, neckPitch, now);
    SeePlayerKeys(r, own, pvp, neckYaw, neckPitch, now);
    if key == own {
    } else if key in r.table {
      assert r'.order == r.order;
      forall k | k in r'.table
        ensures r'.table[k].data.PlayerData? && KeyOf(r'.table[k].data) == k
      {
        if k != key {
          assert r'.table[k] == r.table[k];
        }
      }
    } else {
      assert key !in r.order;
      assert r'.order == r.order + [key];
      forall k | k in r'.table
        ensures r'.table[k].data.PlayerData? && KeyOf(r'.table[k].data) == k
      {
        if k != key {
          assert r'.table[k] == r.table[k];
        }
      }
      forall i, j | 0 <= i < j < |r'.order|
        ensures r'.order[i] != r'.order[j]
      {
        assert r'.order[i] == r.order[i];
      }
    }
  }

  /** The keys seen in a list of detections are those of all but its last, plus the last's. */
  lemma SeenKeysSnoc(own: string, ps: seq<PlayerVision>)
    requires ps != []
    ensures SeenKeys(own, ps) == SeenKeys(own, ps[..|ps| - 1]) + SeenKey(own, ps[|ps| - 1])
  {
    var init := ps[..|ps| - 1];
    forall k | k in SeenKeys(own, ps)
      ensures k in SeenKeys(own, init) + SeenKey(own, ps[|ps| - 1])
    {
      var i :| 0 <= i < |ps| && PlayerKey(ps[i].team, ps[i].id) != own && k == PlayerKey(ps[i].team, ps[i].id);
      if i < |ps| - 1 {
        assert ps[i] == init[i];
      }
    }
    forall k | k in SeenKeys(own, init)
      ensures k in SeenKeys(own, ps)
    {
      var i :| 0 <= i < |init| && PlayerKey(init[i].team, init[i].id) != own && k == PlayerKey(init[i].team, init[i].id);
      assert init[i] == ps[i];
    }
  }

  /**
   * The player loop keeps the table and the list in agreement, and the list
   * only grows at its end.
   */
  lemma {:induction false} SeePlayersKeeps(r: Roster, own: string, ps: seq<PlayerVision>,
                                           neckYaw: real, neckPitch: real, now: real)
    requires RosterOK(r)
    ensures RosterOK(SeePlayers(r, own, ps, neckYaw, neckPitch, now))
    ensures r.order <= SeePlayers(r, own, ps, neckYaw, neckPitch, now).order
  {
    if ps != [] {
      var init := ps[..|ps| - 1];
      SeePlayersKeeps(r, own, init, neckYaw, neckPitch, now);
      var mid := SeePlayers(r, own, init, neckYaw, neckPitch, now);
      SeePlayerKeeps(mid, own, ps[|ps| - 1], neckYaw, neckPitch, now);
      var r' := SeePlayers(r, own, ps, neckYaw, neckPitch, now);
      assert r.order == r'.order[..|r.order|];
    }
  }

  /**
   * After the player loop the keys are the old ones plus those seen, minus
   * the agent's own, which is never added.
   */
  lemma {:induction false} SeePlayersKeys(r: Roster, own: string, ps: seq<PlayerVision>,
                                          neckYaw: real, neckPitch: real, now: real)
    ensures SeePlayers(r, own, ps, neckYaw, neckPitch, now).table.Keys == r.table.Keys + SeenKeys(own, ps)
    ensures own !in r.table ==> own !in SeePlayers(r, own, ps, neckYaw, neckPitch, now).table
  {
    if ps != [] {
      var init := ps[..|ps| - 1];
      SeePlayersKeys(r, own, init, neckYaw, neckPitch, now);
      var mid := SeePlayers(r, own, init, neckYaw, neckPitch, now);
      SeePlayerKeys(mid, own, ps[|ps| - 1], neckYaw, neckPitch, now);
      SeenKeysSnoc(own, ps);
    }
  }

  /** One detection adds its key, unless it is the agent's own, and no other. */
  lemma SeePlayerKeys(r: Roster, own: string, pvp: PlayerVision, neckYaw: real, neckPitch: real, now: real)
    ensures SeePlayer(r, own, pvp, neckYaw, neckPitch, now).table.Keys == r.table.Keys + SeenKey(own, pvp)
  {
  }

  /**
   * After the player loop every key seen (the agent's own excepted) is
   * stamped now and in view, and every other model is unchanged.
   */
  lemma {:induction false} SeePlayersStamps(r: Roster, own: string, ps: seq<PlayerVision>,
                                            neckYaw: real, neckPitch: real, now: real)
    requires RosterOK(r)
    ensures var r' := SeePlayers(r, own, ps, neckYaw, neckPitch, now);
            forall k :: k in SeenKeys(own, ps) ==> k in r'.table && r'.table[k].timeStamp == now && r'.table[k].inFOV
    ensures var r' := SeePlayers(r, own, ps, neckYaw, neckPitch, now);
            forall k :: k in r.table && k !in SeenKeys(own, ps) ==> k in r'.table && r'.table[k] == r.table[k]
  {
    if ps != [] {
      var init := ps[..|ps| - 1];
      SeePlayersStamps(r, own, init, neckYaw, neckPitch, now);
      SeePlayersKeeps(r, own, init, neckYaw, neckPitch, now);
      var mid := SeePlayers(r, own, init, neckYaw, neckPitch, now);
      SeePlayerKeeps(mid, own, ps[|ps| - 1], neckYaw, neckPitch, now);
      SeenKeysSnoc(own, ps);
    }
  }

  /** The closing loop of update: every player not seen for more than UpToDatePeriod drops out of view. */
  function MarkStale(table: map<string, Dated>, now: real): (t: map<string, Dated>)
    ensures t.Keys == table.Keys
  {
    map k | k in table :: Refreshed(table[k], None, now)
  }

  /** After the closing loop every player in view was seen within UpToDatePeriod, and none lost its key or data. */
  lemma MarkStaleRecent(table: map<string, Dated>, now: real)
    ensures forall k :: k in MarkStale(table, now) && MarkStale(table, now)[k].inFOV ==>
              now - MarkStale(table, now)[k].timeStamp <= UpToDatePeriod
    ensures forall k :: k in table ==> MarkStale(table, now)[k].data == table[k].data
  {
  }

  /**
   * The player part of update as a whole: the table and list stay in
   * agreement; no player is removed and the agent itself is never added;
   * every player seen is stamped now and in view; every player in view was
   * seen within UpToDatePeriod; no player unseen changes its data.
   */
  lemma PlayerPartEffect(r: Roster, own: string, ps: seq<PlayerVision>, neckYaw: real, neckPitch: real, now: real)
    requires RosterOK(r)
    ensures var seen := SeePlayers(r, own, ps, neckYaw, neckPitch, now);
            var t := MarkStale(seen.table, now);
            && RosterOK(Roster(t, seen.order))
            && t.Keys == r.table.Keys + SeenKeys(own, ps)
            && (own !in r.table ==> own !in t)
            && (forall k :: k in SeenKeys(own, ps) ==> t[k].timeStamp == now && t[k].inFOV)
            && (forall k :: k in t && t[k].inFOV ==> now - t[k].timeStamp <= UpToDatePeriod)
            && (forall k :: k in r.table && k !in SeenKeys(own, ps) ==> t[k].data == r.table[k].data)
  {
    var seen := SeePlayers(r, own, ps, neckYaw, neckPitch, now);
    SeePlayersKeeps(r, own, ps, neckYaw, neckPitch, now);
    SeePlayersKeys(r, own, ps, neckYaw, neckPitch, now);
    SeePlayersStamps(r, own, ps, neckYaw, neckPitch, now);
    MarkStaleRecent(seen.table, now);
    RosterSameData(seen, Roster(MarkStale(seen.table, now), seen.order));
  }

  // ---------------------------------------------------------------------
  // The view
  // ---------------------------------------------------------------------

  /** GoalPostID.values() and FlagID.values(), in declaration order. */
  const GoalPosts: seq<GoalPostID> := [G1L, G1R, G2L, G2R]
  const Flags: seq<FlagID> := [F1L, F1R, F2L, F2R]

  /** The position of a goal post in GoalPostID.values(). */
  function GoalIndex(g: GoalPostID): (i: nat)
    ensures i < |GoalPosts| && GoalPosts[i] == g
  {
    match g
    case G1L => 0
    case G1R => 1
    case G2L => 2
    case G2R => 3
  }

  /** The position of a flag in FlagID.values(). */
  function FlagIndex(f: FlagID): (i: nat)
    ensures i < |Flags| && Flags[i] == f
  {
    match f
    case F1L => 0
    case F1R => 1
    case F2L => 2
    case F2R => 3
  }

  /** The goal post models of the constructor: stamped 0, out of view, one per post. */
  method NewGoalModels() returns (goals: map<GoalPostID, DatedItemModel>)
    ensures forall g: GoalPostID :: g in goals && fresh(goals[g]) &&
                                    goals[g].State() == Dated(0.0, false, GoalPostData(None, g))
  {
    goals := map[];
    for k := 0 to |GoalPosts|
      invariant forall g: GoalPostID :: g in goals <==> GoalIndex(g) < k
      invariant forall g :: g in goals ==>
                  fresh(goals[g]) && goals[g].State() == Dated(0.0, false, GoalPostData(None, g))
    {
      var id := GoalPosts[k];
      var model := new DatedItemModel(GoalPostData(None, id), 0.0);
      model.SetInFOVnow(false);
      goals := goals[id := model];
    }
  }

  /** The flag models of the constructor: stamped 0, out of view, one per flag. */
  method NewFlagModels() returns (flags: map<FlagID, DatedItemModel>)
    ensures forall f: FlagID :: f in flags && fresh(flags[f]) &&
                                flags[f].State() == Dated(0.0, false, FlagData(None, f))
  {
    flags := map[];
    for k := 0 to |Flags|
      invariant forall f: FlagID :: f in flags <==> FlagIndex(f) < k
      invariant forall f :: f in flags ==>
                  fresh(flags[f]) && flags[f].State() == Dated(0.0, false, FlagData(None, f))
    {
      var id := Flags[k];
      var model := new DatedItemModel(FlagData(None, id), 0.0);
      model.SetInFOVnow(false);
      flags := flags[id := model];
    }
  }

  /** BodyPartName.values(), in declaration order. */
  const BodyParts: seq<BodyPartName> := [Head, RLowerArm, LLowerArm, RFoot, LFoot]

  /** The position of a body part in BodyPartName.values(). */
  function BodyPartIndex(b: BodyPartName): (i: nat)
    ensures i < |BodyParts| && BodyParts[i] == b
  {
    match b
    case Head => 0
    case RLowerArm => 1
    case LLowerArm => 2
    case RFoot => 3
    case LFoot => 4
  }

  /** The body part loop of update: the corrected position of each part the detection reports. */
  method NewBodyParts(pvp: PlayerVision, neckYaw: real, neckPitch: real) returns (newBPs: map<BodyPartName, Polar>)
    ensures newBPs == BodyPartsSeen(pvp, neckYaw, neckPitch)
  {
    newBPs := map[];
    for k := 0 to |BodyParts|
      invariant forall b :: b in newBPs <==> BodyPartIndex(b) < k && pvp.GetBodyPart(b).Some?
      invariant forall b :: b in newBPs ==> newBPs[b] == Corrected(neckYaw, neckPitch, pvp.GetBodyPart(b).value)
    {
      var id := BodyParts[k];
      var vec := pvp.GetBodyPart(id);
      if vec.Some? {
        newBPs := newBPs[id := Corrected(neckYaw, neckPitch, vec.value)];
      }
    }
  }

  /**
   * The handling of one ball, goal post or flag model in update: stamped
   * with the corrected position when seen, marked out of view when unseen
   * for more than UpToDatePeriod.
   */
  method RefreshPoint(m: DatedItemModel, seen: Option<Polar>, neckYaw: real, neckPitch: real, now: real)
    requires !m.data.PlayerData?
    modifies m
    ensures m.State() == Refreshed(old(m.State()), Sighting(old(m.data), seen, neckYaw, neckPitch), now)
  {
    if seen.Some? {
      m.UpdateCoords(Corrected(neckYaw, neckPitch, seen.value), now);
    } else if now - m.GetTimeStamp() > UpToDatePeriod {
      m.SetInFOVnow(false);
    }
  }

  /**
   * The line list after the line part of update, given the list of
   * sighted lines, null when there is none.
   */
  function LinesAfter(lines: seq<LineModel>, lpList: Option<seq<LinePerception>>,
                      neckYaw: real, neckPitch: real, now: real): seq<LineModel>
  {
    if lpList.Some? then BuildLines(lpList.value, neckYaw, neckPitch, now).models
    else if lines != [] && now - lines[0].timeStamp > UpToDatePeriod then []
    else lines
  }

  /** Two rosters with the same keys, order and data agree alike. */
  lemma RosterSameData(r: Roster, r': Roster)
    requires RosterOK(r) && r'.order == r.order && r'.table.Keys == r.table.Keys
    requires forall k :: k in r.table ==> r'.table[k].data == r.table[k].data
    ensures RosterOK(r')
  {
  }

  /** A table whose every entry is its old one refreshed unseen is the old table marked stale. */
  lemma MarkStaleAll(table: map<string, Dated>, t: map<string, Dated>, now: real)
    requires t.Keys == table.Keys && forall k :: k in t ==> t[k] == Refreshed(table[k], None, now)
    ensures t == MarkStale(table, now)
  {
  }

  /**
   * The line loop stops at index i exactly when the lines before i are
   * whole and i is the end or a broken line; the models built are then
   * the first i.
   */
  lemma BuildLinesStop(lps: seq<LinePerception>, i: nat, neckYaw: real, neckPitch: real, now: real)
    requires i <= |lps| && (forall j :: 0 <= j < i ==> !Broken(lps[j]))
    requires i == |lps| || Broken(lps[i])
    ensures |BuildLines(lps, neckYaw, neckPitch, now).models| == i
    ensures BuildLines(lps, neckYaw, neckPitch, now).thrown == (i < |lps|)
  {
    var r := BuildLines(lps, neckYaw, neckPitch, now);
    if r.thrown {
      assert Broken(lps[|r.models|]);
    }
  }

  class LocalFieldView {
    const percIn: PerceptorInput
    const ownTeam: Option<string>
    const ownID: Option<string>
    var lines: seq<LineModel>
    const goals: map<GoalPostID, DatedItemModel>
    const flags: map<FlagID, DatedItemModel>
    const ball: DatedItemModel
    var allOtherPlayers: map<string, DatedItemModel>
    var allOthPlayersList: seq<DatedItemModel>
    /** The keys of the list's models, in list order. */
    ghost var order: seq<string>

    ghost function OwnKey(): string
    {
      PlayerKey(ownTeam, ownID)
    }

    /** The value of the player table and list. */
    ghost function Players(): Roster
      reads this`allOtherPlayers, this`order, allOtherPlayers.Values
    {
      Roster(map k | k in allOtherPlayers :: allOtherPlayers[k].State(), order)
    }

    /** The models of ball, goal posts, flags and players are all different. */
    ghost predicate Separate()
      reads this`allOtherPlayers
    {
      && ball !in goals.Values && ball !in flags.Values && ball !in allOtherPlayers.Values
      && goals.Values !! flags.Values && goals.Values !! allOtherPlayers.Values
      && flags.Values !! allOtherPlayers.Values
    }

    /** Every goal post has its model, tagged with its own id. */
    ghost predicate GoalsOK()
      reads goals.Values
    {
      forall g: GoalPostID :: g in goals && goals[g].data.GoalPostData? && goals[g].data.post == g
    }

    /** Every flag has its model, tagged with its own id. */
    ghost predicate FlagsOK()
      reads flags.Values
    {
      forall f: FlagID :: f in flags && flags[f].data.FlagData? && flags[f].data.flag == f
    }

    /** The list holds, in order, the models of the keys in `order`. */
    ghost predicate ListOK()
      reads this`allOtherPlayers, this`allOthPlayersList, this`order
    {
      && |allOthPlayersList| == |order|
      && (forall i :: 0 <= i < |order| ==> order[i] in allOtherPlayers && allOtherPlayers[order[i]] == allOthPlayersList[i])
    }

    /**
     * Every goal post and flag has its model, tagged with its own id; the
     * models of ball, posts, flags and players are all different; the
     * player table and list agree.
     */
    ghost predicate Valid()
      reads this`allOtherPlayers, this`allOthPlayersList, this`order
      reads goals.Values, flags.Values, ball, allOtherPlayers.Values
    {
      && Separate() && GoalsOK() && FlagsOK() && ball.data.BallData?
      && ListOK() && RosterOK(Players())
    }

    /**
     * The list holds each model of the table exactly once, and nothing
     * else.
     */
    lemma ListMatchesTable()
      requires Valid()
      ensures forall i, j :: 0 <= i < j < |allOthPlayersList| ==> allOthPlayersList[i] != allOthPlayersList[j]
      ensures forall m :: m in allOthPlayersList <==> m in allOtherPlayers.Values
    {
      var r := Players();
      forall i, j | 0 <= i < j < |allOthPlayersList|
        ensures allOthPlayersList[i] != allOthPlayersList[j]
      {
        assert r.table[order[i]].data.PlayerData? && KeyOf(r.table[order[i]].data) == order[i];
        assert r.table[order[j]].data.PlayerData? && KeyOf(r.table[order[j]].data) == order[j];
      }
      forall m | m in allOtherPlayers.Values
        ensures m in allOthPlayersList
      {
        var k :| k in allOtherPlayers && allOtherPlayers[k] == m;
        assert k in r.table;
        var i :| 0 <= i < |order| && order[i] == k;
        assert allOthPlayersList[i] == m;
      }
    }

    /**
     * The constructor: no lines and no players yet; every goal post and
     * flag has a model stamped 0 and out of view; the ball has one stamped
     * 0 too, but its flag is never cleared, so it starts in view.
     */
    constructor (percIn: PerceptorInput, ownTeam: Option<string>, ownID: Option<string>)
      ensures Valid() && this.percIn == percIn && this.ownTeam == ownTeam && this.ownID == ownID
      ensures lines == [] && allOtherPlayers == map[] && allOthPlayersList == []
      ensures forall g: GoalPostID :: goals[g].State() == Dated(0.0, false, GoalPostData(None, g))
      ensures forall f: FlagID :: flags[f].State() == Dated(0.0, false, FlagData(None, f))
      ensures ball.State() == Dated(0.0, true, BallData(None))
      ensures fresh(goals.Values) && fresh(flags.Values) && fresh(ball)
    {
      var goalModels := NewGoalModels();
      var flagModels := NewFlagModels();
      this.percIn := percIn;
      this.ownTeam := ownTeam;
      this.ownID := ownID;
      lines := [];
      goals := goalModels;
      flags := flagModels;
      ball := new DatedItemModel(BallData(None), 0.0);
      allOtherPlayers := map[];
      allOthPlayersList := [];
      order := [];
    }

    /**
     * The line part of update. With lines sighted, the list is rebuilt
     * from them, stamped now, up to a broken one, whose exception escapes;
     * with none, it is emptied only when its first line is more than
     * UpToDatePeriod old.
     */
    method UpdateLines(lpList: Option<seq<LinePerception>>, neckYaw: real, neckPitch: real, now: real) returns (thrown: bool)
      modifies this`lines
      ensures lines == LinesAfter(old(lines), lpList, neckYaw, neckPitch, now)
      ensures thrown == (lpList.Some? && BuildLines(lpList.value, neckYaw, neckPitch, now).thrown)
    {
      thrown := false;
      if lpList.Some? {
        var lps := lpList.value;
        lines := [];
        var i := 0;
        while i < |lps| && !thrown
          invariant i <= |lps| && |lines| == i
          invariant forall j :: 0 <= j < i ==> !Broken(lps[j]) && lines[j] == LineOf(lps[j], neckYaw, neckPitch, now)
          invariant thrown ==> i < |lps| && Broken(lps[i])
          decreases |lps| - i, !thrown
        {
          var lp := lps[i];
          if lp.start.None? || lp.end.None? {
            thrown := true;
          } else {
            var start := Corrected(neckYaw, neckPitch, lp.start.value);
            var end := Corrected(neckYaw, neckPitch, lp.end.value);
            lines := lines + [LineModel(start, end, now)];
            i := i + 1;
          }
        }
        BuildLinesStop(lps, i, neckYaw, neckPitch, now);
      } else if lines != [] && now - lines[0].timeStamp > UpToDatePeriod {
        lines := [];
      }
    }

    /** The goal post loop of update: each post's model refreshed from this cycle's sighting. */
    method UpdateGoals(neckYaw: real, neckPitch: real, now: real)
      requires GoalsOK() && percIn.cycleStarted
      modifies goals.Values
      ensures GoalsOK()
      ensures forall g: GoalPostID :: goals[g].State() ==
                Refreshed(old(goals[g].State()), Sighting(old(goals[g].data), percIn.GetGoalPost(g), neckYaw, neckPitch), now)
    {
      for k := 0 to |GoalPosts|
        invariant GoalsOK()
        invariant forall g: GoalPostID :: goals[g].State() ==
                    if GoalIndex(g) < k
                    then Refreshed(old(goals[g].State()), Sighting(old(goals[g].data), percIn.GetGoalPost(g), neckYaw, neckPitch), now)
                    else old(goals[g].State())
      {
        var id := GoalPosts[k];
        RefreshPoint(goals[id], percIn.GetGoalPost(id), neckYaw, neckPitch, now);
      }
    }

    /** The flag loop of update: each flag's model refreshed from this cycle's sighting. */
    method UpdateFlags(neckYaw: real, neckPitch: real, now: real)
      requires FlagsOK() && percIn.cycleStarted
      modifies flags.Values
      ensures FlagsOK()
      ensures forall f: FlagID :: flags[f].State() ==
                Refreshed(old(flags[f].State()), Sighting(old(flags[f].data), percIn.GetFlag(f), neckYaw, neckPitch), now)
    {
      for k := 0 to |Flags|
        invariant FlagsOK()
        invariant forall f: FlagID :: flags[f].State() ==
                    if FlagIndex(f) < k
                    then Refreshed(old(flags[f].State()), Sighting(old(flags[f].data), percIn.GetFlag(f), neckYaw, neckPitch), now)
                    else old(flags[f].State())
      {
        var id := Flags[k];
        RefreshPoint(flags[id], percIn.GetFlag(id), neckYaw, neckPitch, now);
      }
    }

    /** A known player seen again: its model, found by key, is stamped now with the new body parts. */
    method RefreshPlayer(pvp: PlayerVision, neckYaw: real, neckPitch: real, now: real)
      requires RosterOK(Players())
      requires PlayerKey(pvp.team, pvp.id) != OwnKey() && PlayerKey(pvp.team, pvp.id) in allOtherPlayers
      modifies allOtherPlayers[PlayerKey(pvp.team, pvp.id)]
      ensures Players() == SeePlayer(old(Players()), OwnKey(), pvp, neckYaw, neckPitch, now)
    {
      var newBPs := NewBodyParts(pvp, neckYaw, neckPitch);
      var key := PlayerKey(pvp.team, pvp.id);
      var pm := allOtherPlayers[key];
      assert old(Players()).table[key] == pm.State();
      pm.UpdateBodyParts(newBPs, now);
      forall k | k in allOtherPlayers && k != key
        ensures allOtherPlayers[k] != pm && allOtherPlayers[k].State() == old(allOtherPlayers[k].State())
      {
        assert old(Players()).table[k] == old(allOtherPlayers[k].State());
      }
    }

    /** A new player: a new model stamped now, put in the table under its key and appended to the list. */
    method AddPlayer(pvp: PlayerVision, neckYaw: real, neckPitch: real, now: real)
      requires Separate() && ListOK()
      requires PlayerKey(pvp.team, pvp.id) != OwnKey() && PlayerKey(pvp.team, pvp.id) !in allOtherPlayers
      modifies this`allOtherPlayers, this`allOthPlayersList, this`order
      ensures Separate() && ListOK()
      ensures Players() == SeePlayer(old(Players()), OwnKey(), pvp, neckYaw, neckPitch, now)
      ensures old(allOtherPlayers.Values) <= allOtherPlayers.Values
      ensures fresh(allOtherPlayers.Values - old(allOtherPlayers.Values))
    {
      var newBPs := NewBodyParts(pvp, neckYaw, neckPitch);
      var key := PlayerKey(pvp.team, pvp.id);
      var pm := new DatedItemModel(PlayerData(pvp.team, pvp.id, newBPs), now);
      allOtherPlayers := allOtherPlayers[key := pm];
      allOthPlayersList := allOthPlayersList + [pm];
      order := order + [key];
      forall i | 0 <= i < |order|
        ensures order[i] in allOtherPlayers && allOtherPlayers[order[i]] == allOthPlayersList[i]
      {
        if i < |order| - 1 {
          assert order[i] == old(order)[i] && allOthPlayersList[i] == old(allOthPlayersList)[i];
        }
      }
      forall m | m in old(allOtherPlayers.Values)
        ensures m in allOtherPlayers.Values
      {
        var k :| k in old(allOtherPlayers) && old(allOtherPlayers)[k] == m;
        assert allOtherPlayers[k] == m;
      }

    }

    /**
     * One detection of the player loop of update: skipped when its key is
     * the agent's own; a known key's model is stamped now with the new
     * body parts; a new key gets a new model, put in the table and
     * appended to the list.
     */
    method SeeOnePlayer(pvp: PlayerVision, neckYaw: real, neckPitch: real, now: real)
      requires Separate() && ListOK() && RosterOK(Players())
      modifies this`allOtherPlayers, this`allOthPlayersList, this`order, allOtherPlayers.Values
      ensures Separate() && ListOK() && RosterOK(Players())
      ensures Players() == SeePlayer(old(Players()), OwnKey(), pvp, neckYaw, neckPitch, now)
      ensures old(allOtherPlayers.Values) <= allOtherPlayers.Values
      ensures fresh(allOtherPlayers.Values - old(allOtherPlayers.Values))
    {
      ghost var before := Players();
      var playerKey := PlayerKey(pvp.team, pvp.id);
      if playerKey != PlayerKey(ownTeam, ownID) {
        if playerKey in allOtherPlayers {
          RefreshPlayer(pvp, neckYaw, neckPitch, now);
        } else {
          AddPlayer(pvp, neckYaw, neckPitch, now);
        }
      }
      SeePlayerKeeps(before, OwnKey(), pvp, neckYaw, neckPitch, now);
    }

    /** The player loop of update, over this cycle's detections in order. */
    method SeeAllPlayers(ps: seq<PlayerVision>, neckYaw: real, neckPitch: real, now: real)
      requires Separate() && ListOK() && RosterOK(Players())
      modifies this`allOtherPlayers, this`allOthPlayersList, this`order, allOtherPlayers.Values
      ensures Separate() && ListOK() && RosterOK(Players())
      ensures Players() == SeePlayers(old(Players()), OwnKey(), ps, neckYaw, neckPitch, now)
      ensures old(allOtherPlayers.Values) <= allOtherPlayers.Values
      ensures fresh(allOtherPlayers.Values - old(allOtherPlayers.Values))
    {
      for i := 0 to |ps|
        invariant Separate() && ListOK() && RosterOK(Players())
        invariant Players() == SeePlayers(old(Players()), OwnKey(), ps[..i], neckYaw, neckPitch, now)
        invariant old(allOtherPlayers.Values) <= allOtherPlayers.Values
        invariant fresh(allOtherPlayers.Values - old(allOtherPlayers.Values))
      {
        SeeOnePlayer(ps[i], neckYaw, neckPitch, now);
        assert ps[..i + 1][..i] == ps[..i];
      }
      assert ps[..|ps|] == ps;
    }

    /** The closing loop of update: every player model unseen for more than UpToDatePeriod drops out of view. */
    method MarkStalePlayers(now: real)
      requires RosterOK(Players())
      modifies allOtherPlayers.Values`inFOVnow
      ensures RosterOK(Players())
      ensures Players() == Roster(MarkStale(old(Players()).table, now), order)
    {
      var rest := allOtherPlayers.Values;
      while rest != {}
        invariant rest <= allOtherPlayers.Values
        invariant forall m :: m in allOtherPlayers.Values ==>
                    m.State() == if m in rest then old(m.State()) else Refreshed(old(m.State()), None, now)
        decreases |rest|
      {
        var pm :| pm in rest;
        if now - pm.GetTimeStamp() > UpToDatePeriod {
          pm.SetInFOVnow(false);
        }
        rest := rest - {pm};
      }
      ghost var before := old(Players());
      ghost var after := Players();
      forall k | k in after.table
        ensures after.table[k] == Refreshed(before.table[k], None, now)
      {
        assert allOtherPlayers[k] in allOtherPlayers.Values;
      }
      MarkStaleAll(before.table, after.table, now);
      RosterSameData(before, after);
    }

    /**
     * Every goal post, every flag and the ball refreshed from this cycle's
     * sighting, corrected by the neck angles and stamped `now`.
     */
    twostate predicate ItemsRefreshed(neckYaw: real, neckPitch: real, now: real)
      requires percIn.cycleStarted
      reads percIn, goals.Values, flags.Values, ball
    {
      && (forall g: GoalPostID :: g in goals && old(goals[g].data).GoalPostData? && goals[g].State() ==
            Refreshed(old(goals[g].State()), Sighting(old(goals[g].data), percIn.GetGoalPost(g), neckYaw, neckPitch), now))
      && (forall f: FlagID :: f in flags && old(flags[f].data).FlagData? && flags[f].State() ==
            Refreshed(old(flags[f].State()), Sighting(old(flags[f].data), percIn.GetFlag(f), neckYaw, neckPitch), now))
      && old(ball.data).BallData?
      && ball.State() == Refreshed(old(ball.State()), Sighting(old(ball.data), percIn.ball, neckYaw, neckPitch), now)
    }

    /** The goal post, flag and ball part of update. */
    method UpdateItems(neckYaw: real, neckPitch: real, now: real)
      requires Separate() && GoalsOK() && FlagsOK() && ball.data.BallData? && percIn.cycleStarted
      modifies goals.Values, flags.Values, ball
      ensures GoalsOK() && FlagsOK() && ball.data.BallData?
      ensures ItemsRefreshed(neckYaw, neckPitch, now)
    {
      UpdateGoals(neckYaw, neckPitch, now);
      UpdateFlags(neckYaw, neckPitch, now);
      RefreshPoint(ball, percIn.ball, neckYaw, neckPitch, now);
    }

    /**
     * The player part of update: the player loop over the detections, null
     * when there are none, then the closing loop.
     */
    method UpdatePlayers(playerPercList: Option<seq<PlayerVision>>, neckYaw: real, neckPitch: real, now: real)
      requires Separate() && ListOK() && RosterOK(Players())
      modifies this`allOtherPlayers, this`allOthPlayersList, this`order, allOtherPlayers.Values
      ensures Separate() && ListOK() && RosterOK(Players())
      ensures var seen := SeePlayers(old(Players()), OwnKey(), if playerPercList.Some? then playerPercList.value else [],
                                     neckYaw, neckPitch, now);
              Players() == Roster(MarkStale(seen.table, now), seen.order)
      ensures old(allOtherPlayers.Values) <= allOtherPlayers.Values
      ensures fresh(allOtherPlayers.Values - old(allOtherPlayers.Values))
    {
      if playerPercList.Some? {
        SeeAllPlayers(playerPercList.value, neckYaw, neckPitch, now);
      }
      MarkStalePlayers(now);
    }

    /**
     * The part of update after the lines: goal posts, flags and ball, then
     * the players.
     */
    method UpdateRest(neckYaw: real, neckPitch: real, now: real)
      requires Valid() && percIn.cycleStarted
      modifies this`allOtherPlayers, this`allOthPlayersList, this`order
      modifies goals.Values, flags.Values, ball, allOtherPlayers.Values
      ensures Valid()
      ensures ItemsRefreshed(neckYaw, neckPitch, now)
      ensures var seen := SeePlayers(old(Players()), OwnKey(), percIn.players, neckYaw, neckPitch, now);
              Players() == Roster(MarkStale(seen.table, now), seen.order)
    {
      ghost var before := Players();
      UpdateItems(neckYaw, neckPitch, now);
      assert Players() == before && ListOK() && Separate();
      var playerPercList := percIn.GetPlayerPositions();
      assert (if playerPercList.Some? then playerPercList.value else []) == percIn.players;
      UpdatePlayers(playerPercList, neckYaw, neckPitch, now);
      assert GoalsOK() && FlagsOK() && ball.data.BallData?;
    }

    /**
     * update: with the server time and the sensed neck angles of this
     * cycle, the lines are rebuilt or aged; then, unless a broken line's
     * exception escaped, every goal post, flag and the ball is refreshed
     * from its sighting, the detected players are added or stamped, and
     * every player unseen for more than UpToDatePeriod drops out of view.
     */
    method Update() returns (thrown: bool)
      requires Valid() && percIn.Valid() && percIn.cycleStarted
      modifies this`lines, this`allOtherPlayers, this`allOthPlayersList, this`order
      modifies goals.Values, flags.Values, ball, allOtherPlayers.Values
      ensures Valid()
      ensures var now, yaw, pitch := percIn.serverTime, percIn.hingeJoints[NeckYaw], percIn.hingeJoints[NeckPitch];
              && thrown == (percIn.lines != [] && BuildLines(percIn.lines, yaw, pitch, now).thrown)
              && lines == LinesAfter(old(lines), percIn.GetLines(), yaw, pitch, now)
      ensures thrown ==> unchanged(goals.Values, flags.Values, ball) && Players() == old(Players())
                         && allOthPlayersList == old(allOthPlayersList)
      ensures !thrown ==> ItemsRefreshed(percIn.hingeJoints[NeckYaw], percIn.hingeJoints[NeckPitch], percIn.serverTime)
      ensures var now, yaw, pitch := percIn.serverTime, percIn.hingeJoints[NeckYaw], percIn.hingeJoints[NeckPitch];
              var seen := SeePlayers(old(Players()), OwnKey(), percIn.players, yaw, pitch, now);
              !thrown ==> Players() == Roster(MarkStale(seen.table, now), seen.order)
    {
      var messageTimeStamp := percIn.serverTime;
      var neckYaw := percIn.GetJoint(NeckYaw);
      var neckPitch := percIn.GetJoint(NeckPitch);

      ghost var before := Players();
      thrown := UpdateLines(percIn.GetLines(), neckYaw, neckPitch, messageTimeStamp);
      assert Players() == before && Valid();
      if !thrown {
        UpdateRest(neckYaw, neckPitch, messageTimeStamp);
        ghost var seen := SeePlayers(before, OwnKey(), percIn.players, neckYaw, neckPitch, messageTimeStamp);
        assert Players() == Roster(MarkStale(seen.table, messageTimeStamp), seen.order);
      }
    }
  }
}
