/**
 * DatedItemModel and the models built on it (ball, goal post, flag,
 * player): an item of the local field view with the server time it was
 * last seen and whether it is in the field of view now.
 */
module DatedItems {
  import opened Common
  import opened RobotConsts
  import opened FieldConsts

  /** How long, in seconds of server time, a sighting keeps an item in the field of view. */
  const UpToDatePeriod: real := 0.05

  /**
   * What a model holds besides its time stamp and flag: the position of
   * the ball, a goal post or a flag (None while it is still Vector3D.NaN,
   * that is, never seen), with the post's or the flag's id, or a player's
   * team, id and the body part positions last seen.
   */
  datatype ItemData =
    | BallData(coords: Option<Polar>)
    | GoalPostData(coords: Option<Polar>, post: GoalPostID)
    | FlagData(coords: Option<Polar>, flag: FlagID)
    | PlayerData(team: Option<string>, id: Option<string>, bodyParts: map<BodyPartName, Polar>)

  /** A model's value: time stamp, in-field-of-view flag and data. */
  datatype Dated = Dated(timeStamp: real, inFOV: bool, data: ItemData)

  /**
   * One cycle of the field view for one item: seen this cycle with data
   * `seen`, it is stamped `now` and in view; unseen and stamped more than
   * UpToDatePeriod ago, it drops out of view; otherwise it stays as it was.
   */
  function Refreshed(d: Dated, seen: Option<ItemData>, now: real): (r: Dated)
    ensures r.inFOV <==> seen.Some? || (d.inFOV && now - d.timeStamp <= UpToDatePeriod)
    ensures r.inFOV ==> now - r.timeStamp <= UpToDatePeriod
    ensures seen.Some? ==> r.timeStamp == now && r.data == seen.value
    ensures seen.None? ==> r.timeStamp == d.timeStamp && r.data == d.data
  {
    if seen.Some? then Dated(now, true, seen.value)
    else if now - d.timeStamp > UpToDatePeriod then d.(inFOV := false)
    else d
  }

  /** A cycle in which an item is not seen changes nothing when repeated at the same time. */
  lemma RefreshedUnseenIdempotent(d: Dated, now: real)
    ensures Refreshed(Refreshed(d, None, now), None, now) == Refreshed(d, None, now)
  {
  }

  /** The position part of a ball, goal post or flag, replaced; the id is kept. */
  function WithCoords(d: ItemData, c: Polar): (r: ItemData)
    requires !d.PlayerData?
    ensures !r.PlayerData? && r.coords == Some(c) && (r.BallData? <==> d.BallData?)
    ensures r.GoalPostData? <==> d.GoalPostData?
    ensures r.GoalPostData? ==> r.post == d.post
    ensures r.FlagData? <==> d.FlagData?
    ensures r.FlagData? ==> r.flag == d.flag
  {
    d.(coords := Some(c))
  }

  /** getCoords of a ball, goal post or flag model: None while still Vector3D.NaN. */
  function Coords(d: ItemData): Option<Polar>
  {
    if d.PlayerData? then None else d.coords
  }

  /** `a.getAlpha() <= b.getAlpha()` for two getCoords results: false when either is NaN. */
  predicate AlphaAtMost(a: Option<Polar>, b: Option<Polar>)
  {
    a.Some? && b.Some? && a.value.alpha <= b.value.alpha
  }

  /** DatedItemModel with the fields of its subclasses. */
  class DatedItemModel {
    var timeStamp: real
    var inFOVnow: bool
    var data: ItemData

    function State(): Dated
      reads this
    {
      Dated(timeStamp, inFOVnow, data)
    }

    /** A model is made when its item is first seen: stamped now and in view. */
    constructor (data: ItemData, timeNow: real)
      ensures State() == Dated(timeNow, true, data)
    {
      timeStamp := timeNow;
      inFOVnow := true;
      this.data := data;
    }

    /** setTimeStamp: stamped with the given time and in view, both together. */
    method SetTimeStamp(timeNow: real)
      modifies this`timeStamp, this`inFOVnow
      ensures timeStamp == timeNow && inFOVnow
    {
      timeStamp := timeNow;
      inFOVnow := true;
    }

    /** setInFOVnow: only the flag changes. */
    method SetInFOVnow(inFOV: bool)
      modifies this`inFOVnow
      ensures inFOVnow == inFOV
    {
      inFOVnow := inFOV;
    }

    function IsInFOVnow(): bool
      reads this
    {
      inFOVnow
    }

    function GetTimeStamp(): real
      reads this
    {
      timeStamp
    }

    /** update of BallModel, GoalPostModel and FlagModel: stamped now, with the new position. */
    method UpdateCoords(coords: Polar, timeNow: real)
      requires !data.PlayerData?
      modifies this
      ensures State() == Dated(timeNow, true, WithCoords(old(data), coords))
    {
      SetTimeStamp(timeNow);
      data := data.(coords := Some(coords));
    }

    /** update of PlayerModel: stamped now, with the new body part table; team and id stay. */
    method UpdateBodyParts(bodyParts: map<BodyPartName, Polar>, timeNow: real)
      requires data.PlayerData?
      modifies this
      ensures State() == Dated(timeNow, true, old(data).(bodyParts := bodyParts))
    {
      SetTimeStamp(timeNow);
      data := data.(bodyParts := bodyParts);
    }
  }
}
