/**
 * What PerceptorInput does to its perceptions in one server cycle, stated
 * as functions over a value `Percepts` that holds every field the decoder
 * writes.
 *
 * Java exceptions are part of the behaviour: a PerceptorConversionException
 * raised while decoding one top-level fragment is caught and the next
 * fragment is decoded, while every other exception (a failed cast, an index
 * the code does not guard, a number that does not parse where nobody
 * catches it) leaves `update` and stops the cycle. Each decoder therefore
 * returns its status next to the new perceptions, and the new perceptions
 * include whatever the decoder had already written before it threw.
 */
module PerceptorParsing {
  import opened Common
  import opened SymbolTree
  import opened RobotConsts
  import opened GameStateConsts
  import opened FieldConsts
  import opened Perceptors

  /** Every field the decoder writes, as a value. */
  datatype Percepts = Percepts(
    serverTime: real,
    gameState: Option<GameState>,
    joints: seq<real>,
    gyro: Option<Vec3>,
    acc: Option<Vec3>,
    frLeft: Option<ForceResistance>,
    frRight: Option<ForceResistance>,
    ball: Option<Polar>,
    lines: seq<LinePerception>,
    players: seq<PlayerDetection>,
    goals: map<Option<GoalPostID>, Option<Polar>>,
    flags: map<Option<FlagID>, Option<Polar>>,
    hears: seq<Hear>)

  /**
   * How a decoder ends: normally, with a PerceptorConversionException
   * (caught per fragment), or with any other exception (escapes update).
   */
  datatype Status = Done | Conversion | Escape

  /** The perceptions after a decoder, and how it ended. */
  datatype Step = Step(after: Percepts, status: Status)

  /** A decoder that builds a value rather than writing fields. */
  datatype Out<T> = Value(value: T) | ConversionError | Crash

  /**
   * Why reading one child failed: the index is past the end
   * (IndexOutOfBoundsException), the child has the wrong kind
   * (ClassCastException), or its text is not a number
   * (NumberFormatException).
   */
  datatype Fault = Missing | WrongKind | NotNumber

  datatype Read<T> = Got(value: T) | Bad(fault: Fault)

  // ---------------------------------------------------------------------
  // Reading children
  // ---------------------------------------------------------------------

  /** `(String) children[i]`. */
  function TextAt(cs: seq<Sym>, i: nat): (r: Read<string>)
    ensures r.Got? <==> i < |cs| && cs[i].Leaf?
    ensures r.Got? ==> cs[i] == Leaf(r.value)
    ensures r == Bad(Missing) <==> i >= |cs|
  {
    if i >= |cs| then Bad(Missing)
    else match cs[i]
      case Leaf(x) => Got(x)
      case Node(_) => Bad(WrongKind)
  }

  /** `(SymbolNode) children[i]`, giving that node's children. */
  function NodeAt(cs: seq<Sym>, i: nat): (r: Read<seq<Sym>>)
    ensures r.Got? <==> i < |cs| && cs[i].Node?
    ensures r.Got? ==> cs[i] == Node(r.value)
    ensures r == Bad(Missing) <==> i >= |cs|
  {
    if i >= |cs| then Bad(Missing)
    else match cs[i]
      case Leaf(_) => Bad(WrongKind)
      case Node(sub) => Got(sub)
  }

  /** `Double.valueOf((String) children[i])`. */
  function NumberAt(num: NumberReader, cs: seq<Sym>, i: nat): (r: Read<real>)
    ensures r.Got? <==> i < |cs| && cs[i].Leaf? && num(cs[i].text).Some?
    ensures r.Got? ==> Some(r.value) == num(cs[i].text)
    ensures r == Bad(NotNumber) <==> i < |cs| && cs[i].Leaf? && num(cs[i].text).None?
  {
    match TextAt(cs, i)
    case Bad(f) => Bad(f)
    case Got(x) => if num(x).Some? then Got(num(x).value) else Bad(NotNumber)
  }

  /**
   * `new Vector3D(valueOf(children[1]), valueOf(children[2]),
   * valueOf(children[3]))`: the arguments are read left to right and the
   * first failure is the one thrown.
   */
  function VectorAt(num: NumberReader, cs: seq<Sym>): (r: Read<Vec3>)
    ensures r.Got? <==> NumberAt(num, cs, 1).Got? && NumberAt(num, cs, 2).Got? &&
                        NumberAt(num, cs, 3).Got?
    ensures r.Got? ==> r.value == Vec3(NumberAt(num, cs, 1).value, NumberAt(num, cs, 2).value,
                                        NumberAt(num, cs, 3).value)
  {
    match NumberAt(num, cs, 1)
    case Bad(f) => Bad(f)
    case Got(x) =>
      match NumberAt(num, cs, 2)
      case Bad(f) => Bad(f)
      case Got(y) =>
        match NumberAt(num, cs, 3)
        case Bad(f) => Bad(f)
        case Got(z) => Got(Vec3(x, y, z))
  }

  /** `children[i].equals(tag)` where the index is known to exist. */
  predicate Is(cs: seq<Sym>, i: nat, tag: string)
  {
    i < |cs| && cs[i] == Leaf(tag)
  }

  /**
   * The status of a read failure inside a `try` that catches only
   * IndexOutOfBoundsException: a cast failure escapes, and a number
   * failure ends as `onNumber` says.
   */
  function Caught(f: Fault, onNumber: Status): Status
  {
    match f
    case Missing => Conversion
    case WrongKind => Escape
    case NotNumber => onNumber
  }

  /** The same mapping for decoders that build a value. */
  function CaughtOut<T>(f: Fault): Out<T>
    requires f != NotNumber
  {
    if f == Missing then ConversionError else Crash
  }

  function StatusOut<T>(o: Out<T>): Status
  {
    match o
    case Value(_) => Done
    case ConversionError => Conversion
    case Crash => Escape
  }

  // ---------------------------------------------------------------------
  // Vision: parsePolar, parseLine, parsePlayer, parseVision
  // ---------------------------------------------------------------------

  /**
   * parsePolar: exactly four children headed "pol", or a conversion error;
   * then distance, azimuth and elevation, the angles turned into radians. A
   * number that does not parse makes the reading absent (null), a
   * sub-node where a number belongs escapes.
   */
  function PolarSpec(num: NumberReader, cs: seq<Sym>): Out<Option<Polar>>
  {
    if |cs| != 4 || cs[0] != Leaf("pol") then ConversionError
    else match VectorAt(num, cs)
      case Bad(Missing) => ConversionError
      case Bad(WrongKind) => Crash
      case Bad(NotNumber) => Value(None)
      case Got(v) => Value(Some(Polar(v.x, ToRadians(v.y), ToRadians(v.z))))
  }

  /** `parsePolar((SymbolNode) children[i])`. */
  function PolarAt(num: NumberReader, cs: seq<Sym>, i: nat): Out<Option<Polar>>
  {
    match NodeAt(cs, i)
    case Bad(f) => CaughtOut(f)
    case Got(sub) => PolarSpec(num, sub)
  }

  /**
   * parseLine: the polar readings of children 1 and 2, in that order (its
   * assert statements are disabled at run time and check nothing).
   */
  function LineSpec(num: NumberReader, cs: seq<Sym>): Out<LinePerception>
  {
    match PolarAt(num, cs, 1)
    case ConversionError => ConversionError
    case Crash => Crash
    case Value(a) =>
      match PolarAt(num, cs, 2)
      case ConversionError => ConversionError
      case Crash => Crash
      case Value(b) => Value(LinePerception(a, b))
  }

  /**
   * The part of parsePlayer's loop that handles one body part entry
   * `param`: "(name (pol d a e))" stores under "name", a bare
   * "(pol d a e)" under null, and an entry whose inner node is not headed
   * "pol" is skipped. Returns the table after the entry.
   */
  function PlayerPart(num: NumberReader, param: seq<Sym>, parts: map<Option<string>, Option<Polar>>)
    : Out<map<Option<string>, Option<Polar>>>
    requires |param| > 0
  {
    var named: Out<(Option<string>, seq<Sym>)> :=
      if param[0] == Leaf("pol") then Value((None, param))
      else if param[0].Node? then Crash
      else match NodeAt(param, 1)
        case Bad(f) => CaughtOut(f)
        case Got(inner) => Value((Some(param[0].text), inner));
    match named
    case ConversionError => ConversionError
    case Crash => Crash
    case Value((name, inner)) =>
      if |inner| == 0 then ConversionError
      else if inner[0] != Leaf("pol") then Value(parts)
      else match PolarSpec(num, inner)
        case ConversionError => ConversionError
        case Crash => Crash
        case Value(pos) => Value(parts[name := pos])
  }

  /**
   * parsePlayer's loop from child `i` on, with the team, id and body part
   * table collected so far: "team" and "id" entries set the names (the
   * last one wins), every other entry is a body part; a leaf child or an
   * empty entry is a conversion error.
   */
  function PlayerFrom(num: NumberReader, cs: seq<Sym>, i: nat, team: Option<string>, id: Option<string>,
                      parts: map<Option<string>, Option<Polar>>): Out<PlayerDetection>
    decreases |cs| - i
  {
    if i >= |cs| then Value(PlayerDetection(team, id, parts))
    else match cs[i]
      case Leaf(_) => ConversionError
      case Node(param) =>
        if |param| == 0 then ConversionError
        else if param[0] == Leaf("team") then
          match TextAt(param, 1)
          case Bad(f) => CaughtOut(f)
          case Got(t) => PlayerFrom(num, cs, i + 1, Some(t), id, parts)
        else if param[0] == Leaf("id") then
          match TextAt(param, 1)
          case Bad(f) => CaughtOut(f)
          case Got(n) => PlayerFrom(num, cs, i + 1, team, Some(n), parts)
        else
          match PlayerPart(num, param, parts)
          case ConversionError => ConversionError
          case Crash => Crash
          case Value(next) => PlayerFrom(num, cs, i + 1, team, id, next)
  }

  /** parsePlayer: a "(P ...)" node, starting with no team, no id, no parts. */
  function PlayerSpec(num: NumberReader, cs: seq<Sym>): Out<PlayerDetection>
  {
    PlayerFrom(num, cs, 1, None, None, map[])
  }

  predicate StartsWith(s: string, c: char)
  {
    |s| > 0 && s[0] == c
  }

  /**
   * One item of parseVision's loop. A leaf item is skipped; a node item is
   * dispatched on its tag: P adds a player, L a line, B sets the ball, a
   * tag starting with G or F stores a goal post or flag under its ID (null
   * for an unknown name), any other tag is ignored. A failing item changes
   * nothing.
   */
  function VisionItem(num: NumberReader, p: Percepts, item: Sym): (r: Step)
    ensures r.status != Done ==> r.after == p
    ensures r.after.joints == p.joints && r.after.hears == p.hears
    ensures r.after.serverTime == p.serverTime && r.after.gameState == p.gameState
    ensures r.after.gyro == p.gyro && r.after.acc == p.acc
    ensures r.after.frLeft == p.frLeft && r.after.frRight == p.frRight
    ensures p.players <= r.after.players && p.lines <= r.after.lines
    ensures p.goals.Keys <= r.after.goals.Keys && p.flags.Keys <= r.after.flags.Keys
  {
    match item
    case Leaf(_) => Step(p, Done)
    case Node(sub) =>
      if |sub| == 0 || sub[0].Node? then Step(p, Conversion)
      else
        var tag := sub[0].text;
        if tag == "P" then
          match PlayerSpec(num, sub)
          case Value(d) => Step(p.(players := p.players + [d]), Done)
          case o => Step(p, StatusOut(o))
        else if tag == "L" then
          match LineSpec(num, sub)
          case Value(l) => Step(p.(lines := p.lines + [l]), Done)
          case o => Step(p, StatusOut(o))
        else if tag == "B" then
          match PolarAt(num, sub, 1)
          case Value(b) => Step(p.(ball := b), Done)
          case o => Step(p, StatusOut(o))
        else if StartsWith(tag, 'G') then
          match PolarAt(num, sub, 1)
          case Value(g) => Step(p.(goals := p.goals[GetGoalPostID(tag) := g]), Done)
          case o => Step(p, StatusOut(o))
        else if StartsWith(tag, 'F') then
          match PolarAt(num, sub, 1)
          case Value(f) => Step(p.(flags := p.flags[GetFlagID(tag) := f]), Done)
          case o => Step(p, StatusOut(o))
        else Step(p, Done)
  }

  /**
   * parseVision's loop from item `i` on: a failing item stops the loop,
   * and what the earlier items wrote stays.
   */
  function VisionFrom(num: NumberReader, p: Percepts, cs: seq<Sym>, i: nat): (r: Step)
    ensures r.after.joints == p.joints && r.after.hears == p.hears
    ensures r.after.serverTime == p.serverTime && r.after.gameState == p.gameState
    ensures r.after.gyro == p.gyro && r.after.acc == p.acc
    ensures r.after.frLeft == p.frLeft && r.after.frRight == p.frRight
    decreases |cs| - i
  {
    if i >= |cs| then Step(p, Done)
    else
      var s := VisionItem(num, p, cs[i]);
      if s.status != Done then s else VisionFrom(num, s.after, cs, i + 1)
  }

  /** parseVision: a "(See ...)" node. */
  function VisionSpec(num: NumberReader, p: Percepts, cs: seq<Sym>): Step
  {
    if |cs| == 0 then Step(p, Conversion) else VisionFrom(num, p, cs, 1)
  }

  // ---------------------------------------------------------------------
  // Body sensors: parseHingeJoint, parseTime, parseGyro, parseAcc,
  // parseForceResistance
  // ---------------------------------------------------------------------

  /**
   * parseHingeJoint: "(HJ (n name) (ax deg))". The joint index is looked up
   * before the angle is read, and an unknown name (index -1) fails only at
   * the array store, as a caught index error.
   */
  function HingeJointSpec(num: NumberReader, p: Percepts, cs: seq<Sym>): Step
    requires |p.joints| == JointsCount
  {
    match NodeAt(cs, 1)
    case Bad(f) => Step(p, Caught(f, Escape))
    case Got(idNode) =>
      match NodeAt(cs, 2)
      case Bad(f) => Step(p, Caught(f, Escape))
      case Got(rotationNode) =>
        match TextAt(idNode, 1)
        case Bad(f) => Step(p, Caught(f, Escape))
        case Got(name) =>
          var index := PerceptorIndex(name);
          match NumberAt(num, rotationNode, 1)
          case Bad(f) => Step(p, Caught(f, Escape))
          case Got(deg) =>
            if index < 0 then Step(p, Conversion)
            else Step(p.(joints := p.joints[index := ToRadians(deg)]), Done)
  }

  /**
   * parseTime: "(time (now t))". The sub-node's second child is compared
   * with "now" (not its tag), and every failure is a conversion error.
   */
  function TimeSpec(num: NumberReader, p: Percepts, cs: seq<Sym>): Step
  {
    if |cs| != 2 || !cs[1].Node? then Step(p, Conversion)
    else
      var timeNode := cs[1].children;
      if |timeNode| != 2 || timeNode[1] == Leaf("now") then Step(p, Conversion)
      else match NumberAt(num, timeNode, 1)
        case Bad(_) => Step(p, Conversion)
        case Got(t) => Step(p.(serverTime := t), Done)
  }

  /**
   * The checks parseGyro and parseAcc share: children 1 and 2 must be
   * nodes, tested outside the `try`, so a missing child escapes; then the
   * node's tag must be `tag`. Gives the sub-node or the status.
   */
  function InertialNode(cs: seq<Sym>, tag: string): Out<seq<Sym>>
  {
    if |cs| < 2 then Crash
    else if cs[1].Leaf? then ConversionError
    else if |cs| < 3 then Crash
    else if cs[2].Leaf? then ConversionError
    else if cs[2].children == [] || cs[2].children[0] != Leaf(tag) then ConversionError
    else Value(cs[2].children)
  }

  /** parseGyro: "(GYR (n torso) (rt x y z))"; a bad number escapes. */
  function GyroSpec(num: NumberReader, p: Percepts, cs: seq<Sym>): Step
  {
    match InertialNode(cs, "rt")
    case Value(rt) =>
      (match VectorAt(num, rt)
       case Bad(f) => Step(p, Caught(f, Escape))
       case Got(v) => Step(p.(gyro := Some(v)), Done))
    case o => Step(p, StatusOut(o))
  }

  /**
   * parseAcc: "(ACC (n torso) (a x y z))"; a bad number is swallowed and
   * the previous reading stays.
   */
  function AccSpec(num: NumberReader, p: Percepts, cs: seq<Sym>): Step
  {
    match InertialNode(cs, "a")
    case Value(a) =>
      (match VectorAt(num, a)
       case Bad(f) => Step(p, Caught(f, Done))
       case Got(v) => Step(p.(acc := Some(v)), Done))
    case o => Step(p, StatusOut(o))
  }

  /**
   * parseForceResistance: "(FRP (n lf|rf) (c x y z) (f x y z))". Shape and
   * tags are checked first, both vectors are read, and only then is the
   * foot name looked at.
   */
  function FrpSpec(num: NumberReader, p: Percepts, cs: seq<Sym>): Step
  {
    if |cs| < 4 || cs[1].Leaf? || cs[2].Leaf? || cs[3].Leaf? then Step(p, Conversion)
    else
      var nameNode := cs[1].children;
      var originNode := cs[2].children;
      var forceNode := cs[3].children;
      if !Is(nameNode, 0, "n") || !Is(originNode, 0, "c") || !Is(forceNode, 0, "f") then
        Step(p, Conversion)
      else match VectorAt(num, originNode)
        case Bad(f) => Step(p, Caught(f, Escape))
        case Got(origin) =>
          match VectorAt(num, forceNode)
          case Bad(f) => Step(p, Caught(f, Escape))
          case Got(force) =>
            if |nameNode| < 2 then Step(p, Conversion)
            else if nameNode[1] == Leaf("lf") then
              Step(p.(frLeft := Some(ForceResistance(origin, force))), Done)
            else if nameNode[1] == Leaf("rf") then
              Step(p.(frRight := Some(ForceResistance(origin, force))), Done)
            else Step(p, Conversion)
  }

  // ---------------------------------------------------------------------
  // Hear and game state
  // ---------------------------------------------------------------------

  /**
   * The heard text: the items' string forms joined by single spaces. A
   * sub-node's string form is its toString, which has no outer
   * parentheses.
   */
  function HeardText(ws: seq<Sym>): string
  {
    if ws == [] then ""
    else if |ws| == 1 then Print(ws[0])
    else HeardText(ws[..|ws| - 1]) + " " + Print(ws[|ws| - 1])
  }

  /**
   * parseHear: "(hear time self|direction word...)" with at least four
   * children; a message marked "self" is dropped, any other is appended.
   * Every exception inside is turned into a conversion error.
   */
  function HearSpec(num: NumberReader, p: Percepts, cs: seq<Sym>): Step
  {
    if |cs| < 4 || cs[2].Node? then Step(p, Conversion)
    else if cs[2].text == "self" then Step(p, Done)
    else match NumberAt(num, cs, 1)
      case Bad(_) => Step(p, Conversion)
      case Got(time) =>
        match NumberAt(num, cs, 2)
        case Bad(_) => Step(p, Conversion)
        case Got(direction) => Step(p.(hears := p.hears + [Hear(time, direction, HeardText(cs[3..]))]), Done)
  }

  /**
   * parseGameState's loop from child `i` on with the time and play mode
   * read so far. Only a NumberFormatException and the exception for an
   * unknown sub-node are caught (as conversion errors); a leaf child, an
   * empty sub-node or a missing value escapes.
   */
  function GameStateFrom(num: NumberReader, cs: seq<Sym>, i: nat, time: real, mode: Option<PlayMode>)
    : Out<GameState>
    decreases |cs| - i
  {
    if i >= |cs| then Value(GameState(time, mode))
    else match cs[i]
      case Leaf(_) => Crash
      case Node(sub) =>
        if |sub| == 0 || sub[0].Node? then Crash
        else if sub[0].text == "t" then
          match NumberAt(num, sub, 1)
          case Bad(NotNumber) => ConversionError
          case Bad(_) => Crash
          case Got(t) => GameStateFrom(num, cs, i + 1, t, mode)
        else if sub[0].text == "pm" then
          match TextAt(sub, 1)
          case Bad(_) => Crash
          case Got(m) => GameStateFrom(num, cs, i + 1, time, GetPlayMode(m))
        else ConversionError
  }

  /** parseGameState: the field is replaced only after the whole loop. */
  function GameStateSpec(num: NumberReader, p: Percepts, cs: seq<Sym>): Step
  {
    match GameStateFrom(num, cs, 1, 0.0, None)
    case Value(g) => Step(p.(gameState := Some(g)), Done)
    case o => Step(p, StatusOut(o))
  }

  // ---------------------------------------------------------------------
  // parseNode and update
  // ---------------------------------------------------------------------

  /**
   * parseNode: an empty node escapes, a node whose first child is not a
   * string is a conversion error, and the tag selects the decoder; any
   * other tag changes nothing.
   */
  function NodeSpec(num: NumberReader, p: Percepts, cs: seq<Sym>): (r: Step)
    requires |p.joints| == JointsCount
    ensures |r.after.joints| == JointsCount
  {
    if |cs| == 0 then Step(p, Escape)
    else if cs[0].Node? then Step(p, Conversion)
    else
      var tag := cs[0].text;
      if tag == "HJ" then HingeJointSpec(num, p, cs)
      else if tag == "time" then TimeSpec(num, p, cs)
      else if tag == "FRP" then FrpSpec(num, p, cs)
      else if tag == "GYR" then GyroSpec(num, p, cs)
      else if tag == "ACC" then AccSpec(num, p, cs)
      else if tag == "See" then VisionSpec(num, p, cs)
      else if tag == "hear" then HearSpec(num, p, cs)
      else if tag == "GS" then GameStateSpec(num, p, cs)
      else Step(p, Done)
  }

  /** One top-level fragment: a leaf fails the cast to SymbolNode. */
  function FragmentSpec(num: NumberReader, p: Percepts, f: Sym): (r: Step)
    requires |p.joints| == JointsCount
    ensures |r.after.joints| == JointsCount
  {
    match f
    case Leaf(_) => Step(p, Escape)
    case Node(cs) => NodeSpec(num, p, cs)
  }

  /**
   * update's loop from fragment `i` on: a conversion error is swallowed
   * and the next fragment is decoded, any other exception ends the cycle.
   * The loop itself never ends in a conversion error.
   */
  function FragmentsFrom(num: NumberReader, p: Percepts, frags: seq<Sym>, i: nat): (r: Step)
    requires |p.joints| == JointsCount
    ensures |r.after.joints| == JointsCount
    ensures r.status != Conversion
    decreases |frags| - i
  {
    if i >= |frags| then Step(p, Done)
    else
      var s := FragmentSpec(num, p, frags[i]);
      if s.status == Escape then s else FragmentsFrom(num, s.after, frags, i + 1)
  }

  /**
   * The start of every update: foot pressures and ball forgotten, the
   * detection lists, tables and hear messages emptied.
   */
  function Reset(p: Percepts): Percepts
  {
    p.(frLeft := None, frRight := None, ball := None, lines := [], players := [],
       goals := map[], flags := map[], hears := [])
  }

  /**
   * update: reset, then (for a message that is not null) parse the
   * message and decode its top-level fragments in order. A message the
   * parser rejects escapes with the reset already done.
   */
  function UpdateSpec(num: NumberReader, p: Percepts, message: Option<string>): (r: Step)
    requires |p.joints| == JointsCount
    ensures |r.after.joints| == JointsCount
    ensures r.status != Conversion
  {
    if message.None? then Step(Reset(p), Done)
    else match ParseInput(message)
      case Failure(_) => Step(Reset(p), Escape)
      case Success(root) => FragmentsFrom(num, Reset(p), root.children, 0)
  }

  // ---------------------------------------------------------------------
  // Which fields a fragment may change
  // ---------------------------------------------------------------------

  /** The tags parseNode dispatches on. */
  const Tags: seq<string> := ["HJ", "time", "FRP", "GYR", "ACC", "See", "hear", "GS"]

  /** A top-level fragment whose tag is `tag`. */
  predicate Carries(f: Sym, tag: string)
  {
    f.Node? && Is(f.children, 0, tag)
  }

  /** `q` agrees with `p` on the fields that the decoder for `tag` writes. */
  predicate Keeps(tag: string, p: Percepts, q: Percepts)
  {
    if tag == "HJ" then q.joints == p.joints
    else if tag == "time" then q.serverTime == p.serverTime
    else if tag == "FRP" then q.frLeft == p.frLeft && q.frRight == p.frRight
    else if tag == "GYR" then q.gyro == p.gyro
    else if tag == "ACC" then q.acc == p.acc
    else if tag == "See" then
      q.ball == p.ball && q.lines == p.lines && q.players == p.players &&
      q.goals == p.goals && q.flags == p.flags
    else if tag == "hear" then q.hears == p.hears
    else q.gameState == p.gameState
  }

  /** A fragment changes only the fields of its own decoder. */
  lemma NodeKeeps(num: NumberReader, p: Percepts, cs: seq<Sym>, tag: string)
    requires |p.joints| == JointsCount && tag in Tags
    requires !Carries(Node(cs), tag)
    ensures Keeps(tag, p, NodeSpec(num, p, cs).after)
  {
    if |cs| > 0 && cs[0].Leaf? {
      var t := cs[0].text;
      var q := NodeSpec(num, p, cs).after;
      if t == "HJ" {
        HingeJointWritesOneJoint(num, p, cs);
        assert q == p.(joints := q.joints);
      } else if t == "time" {
        assert q == p.(serverTime := q.serverTime);
      } else if t == "FRP" {
        assert q == p.(frLeft := q.frLeft, frRight := q.frRight);
      } else if t == "GYR" {
        assert q == p.(gyro := q.gyro);
      } else if t == "ACC" {
        assert q == p.(acc := q.acc);
      } else if t == "See" {
        assert q == VisionSpec(num, p, cs).after;
      } else if t == "hear" {
        assert q == p.(hears := q.hears);
      } else if t == "GS" {
        assert q == p.(gameState := q.gameState);
      }
    }
  }

  /** A fragment with a tag no decoder handles changes nothing. */
  lemma UnknownTagIgnored(num: NumberReader, p: Percepts, cs: seq<Sym>)
    requires |p.joints| == JointsCount
    requires |cs| > 0 && cs[0].Leaf? && cs[0].text !in Tags
    ensures NodeSpec(num, p, cs) == Step(p, Done)
  {
  }

  /** Decoding fragments with no `tag` among them leaves that tag's fields alone. */
  lemma {:induction false} FragmentsKeep(num: NumberReader, p: Percepts, frags: seq<Sym>, i: nat, tag: string)
    requires |p.joints| == JointsCount && tag in Tags
    requires forall j :: i <= j < |frags| ==> !Carries(frags[j], tag)
    ensures Keeps(tag, p, FragmentsFrom(num, p, frags, i).after)
    decreases |frags| - i
  {
    if i < |frags| {
      var s := FragmentSpec(num, p, frags[i]);
      if frags[i].Node? {
        NodeKeeps(num, p, frags[i].children, tag);
      }
      if s.status != Escape {
        FragmentsKeep(num, s.after, frags, i + 1, tag);
      }
    }
  }

  /** The top-level fragments of a message; none when it is null or rejected. */
  function Fragments(message: Option<string>): seq<Sym>
  {
    if message.Some? && ParseInput(message).Success? then ParseInput(message).value.children else []
  }

  /**
   * After an update, the fields of every tag that no fragment carries are
   * as the reset left them: foot pressures, ball, detections and hear
   * messages empty, and joints, time, gyro, accelerometer and game state
   * as before the update.
   */
  lemma UpdateKeeps(num: NumberReader, p: Percepts, message: Option<string>, tag: string)
    requires |p.joints| == JointsCount && tag in Tags
    requires forall f :: f in Fragments(message) ==> !Carries(f, tag)
    ensures Keeps(tag, Reset(p), UpdateSpec(num, p, message).after)
    ensures tag in ["HJ", "time", "GYR", "ACC", "GS"] ==> Keeps(tag, p, UpdateSpec(num, p, message).after)
  {
    if message.Some? && ParseInput(message).Success? {
      FragmentsKeep(num, Reset(p), Fragments(message), 0, tag);
    }
  }

  // ---------------------------------------------------------------------
  // Fragments are decoded one after the other
  // ---------------------------------------------------------------------

  /** The loop over `pre + frags` from past `pre` is the loop over `frags`. */
  lemma {:induction false} FragmentsShift(num: NumberReader, p: Percepts, pre: seq<Sym>, frags: seq<Sym>, i: nat)
    requires |p.joints| == JointsCount
    ensures FragmentsFrom(num, p, pre + frags, |pre| + i) == FragmentsFrom(num, p, frags, i)
    decreases |frags| - i
  {
    if i < |frags| {
      assert (pre + frags)[|pre| + i] == frags[i];
      var s := FragmentSpec(num, p, frags[i]);
      if s.status != Escape {
        FragmentsShift(num, s.after, pre, frags, i + 1);
      }
    }
  }

  /**
   * Decoding `a + b` is decoding `a` and then, unless `a` escaped,
   * decoding `b` from where `a` left the perceptions.
   */
  lemma {:induction false} FragmentsCompose(num: NumberReader, p: Percepts, a: seq<Sym>, b: seq<Sym>, i: nat)
    requires |p.joints| == JointsCount && i <= |a|
    ensures FragmentsFrom(num, p, a + b, i) ==
            (var s := FragmentsFrom(num, p, a, i);
             if s.status == Escape then s else FragmentsFrom(num, s.after, b, 0))
    decreases |a| - i
  {
    if i == |a| {
      FragmentsShift(num, p, a, b, 0);
    } else {
      assert (a + b)[i] == a[i];
      var s := FragmentSpec(num, p, a[i]);
      if s.status != Escape {
        FragmentsCompose(num, s.after, a, b, i + 1);
      }
    }
  }

  /**
   * A fragment that fails with a conversion error is skipped: the fragments
   * after it are decoded from the perceptions it left.
   */
  lemma ConversionErrorIsSkipped(num: NumberReader, p: Percepts, f: Sym, rest: seq<Sym>)
    requires |p.joints| == JointsCount
    requires FragmentSpec(num, p, f).status == Conversion
    ensures FragmentsFrom(num, p, [f] + rest, 0) == FragmentsFrom(num, FragmentSpec(num, p, f).after, rest, 0)
  {
    FragmentsCompose(num, p, [f], rest, 0);
    assert FragmentsFrom(num, FragmentSpec(num, p, f).after, [f], 1) == Step(FragmentSpec(num, p, f).after, Done);
  }

  // ---------------------------------------------------------------------
  // Hinge joints
  // ---------------------------------------------------------------------

  /** PerceptorIndex finds a name exactly when it is a perceptor name. */
  lemma PerceptorIndexSound(s: string)
    ensures PerceptorIndex(s) == -1 <==> s !in PerceptorIDs
    ensures PerceptorIndex(s) >= 0 ==> PerceptorIDs[PerceptorIndex(s)] == s
  {
  }

  /**
   * An HJ fragment writes at most one joint and nothing else; whatever
   * fails, nothing changes.
   */
  lemma HingeJointWritesOneJoint(num: NumberReader, p: Percepts, cs: seq<Sym>)
    requires |p.joints| == JointsCount
    ensures var s := HingeJointSpec(num, p, cs);
            (s.status == Done ==> exists i :: 0 <= i < JointsCount && s.after == p.(joints := p.joints[i := s.after.joints[i]])) &&
            (s.status != Done ==> s.after == p)
  {
    var s := HingeJointSpec(num, p, cs);
    if s.status == Done {
      var i := PerceptorIndex(TextAt(NodeAt(cs, 1).value, 1).value);
      assert s.after == p.(joints := p.joints[i := s.after.joints[i]]);
    }
  }

  /**
   * "(HJ (n name) (ax deg))" stores deg, in radians, at the joint whose
   * perceptor is `name`; an unknown name is a conversion error that
   * changes nothing.
   */
  lemma HingeJointReading(num: NumberReader, p: Percepts, name: string, text: string, deg: real)
    requires |p.joints| == JointsCount && num(text) == Some(deg)
    ensures var cs := [Leaf("HJ"), Node([Leaf("n"), Leaf(name)]), Node([Leaf("ax"), Leaf(text)])];
            HingeJointSpec(num, p, cs) ==
              if name in PerceptorIDs then Step(p.(joints := p.joints[PerceptorIndex(name) := ToRadians(deg)]), Done)
              else Step(p, Conversion)
  {
    PerceptorIndexSound(name);
  }

  /** Each joint's own perceptor name writes that joint. */
  lemma HingeJointOfJoint(num: NumberReader, p: Percepts, j: nat, text: string, deg: real)
    requires |p.joints| == JointsCount && j < JointsCount && num(text) == Some(deg)
    ensures var cs := [Leaf("HJ"), Node([Leaf("n"), Leaf(PerceptorIDs[j])]), Node([Leaf("ax"), Leaf(text)])];
            HingeJointSpec(num, p, cs) == Step(p.(joints := p.joints[j := ToRadians(deg)]), Done)
  {
    PerceptorIndexInverse(j);
    HingeJointReading(num, p, PerceptorIDs[j], text, deg);
  }

  // ---------------------------------------------------------------------
  // Polar readings and vision
  // ---------------------------------------------------------------------

  /**
   * "(pol d a e)" with three numbers is the reading (d, a, e) with the
   * angles in radians; with any non-number it is an absent reading, not a
   * zero one.
   */
  lemma PolarReading(num: NumberReader, d: string, a: string, e: string)
    ensures var r := PolarSpec(num, [Leaf("pol"), Leaf(d), Leaf(a), Leaf(e)]);
            if num(d).Some? && num(a).Some? && num(e).Some? then
              r == Value(Some(Polar(num(d).value, ToRadians(num(a).value), ToRadians(num(e).value))))
            else r == Value(None)
  {
  }

  /** Anything but four children headed "pol" is a conversion error. */
  lemma PolarShape(num: NumberReader, cs: seq<Sym>)
    ensures PolarSpec(num, cs).ConversionError? <==> |cs| != 4 || cs[0] != Leaf("pol")
  {
  }

  /** A ball seen at a position that is not a number is recorded as absent. */
  lemma BallAbsentOnBadNumber(num: NumberReader, p: Percepts, d: string, a: string, e: string)
    requires num(d).None?
    ensures VisionSpec(num, p, [Leaf("See"), Node([Leaf("B"), Node([Leaf("pol"), Leaf(d), Leaf(a), Leaf(e)])])]) ==
            Step(p.(ball := None), Done)
  {
    var pol := [Leaf("pol"), Leaf(d), Leaf(a), Leaf(e)];
    var sub := [Leaf("B"), Node(pol)];
    var cs := [Leaf("See"), Node(sub)];
    assert NumberAt(num, pol, 1) == Bad(NotNumber);
    assert PolarSpec(num, pol) == Value(None);
    assert PolarAt(num, sub, 1) == Value(None);
    assert sub[0].text == "B";
    assert VisionItem(num, p, cs[1]) == Step(p.(ball := None), Done);
    assert VisionFrom(num, p.(ball := None), cs, 2) == Step(p.(ball := None), Done);
  }

  /**
   * Vision only adds: the players and lines decoded before stay in front,
   * in order, and no goal post or flag entry disappears, even when a
   * later item fails.
   */
  lemma {:induction false} VisionGrows(num: NumberReader, p: Percepts, cs: seq<Sym>, i: nat)
    ensures var q := VisionFrom(num, p, cs, i).after;
            p.players <= q.players && p.lines <= q.lines &&
            p.goals.Keys <= q.goals.Keys && p.flags.Keys <= q.flags.Keys
    decreases |cs| - i
  {
    if i < |cs| {
      var s := VisionItem(num, p, cs[i]);
      if s.status == Done {
        VisionGrows(num, s.after, cs, i + 1);
      }
    }
  }

  /**
   * A player's team stays null unless an entry "(team t)" was read, and
   * likewise for its id.
   */
  lemma {:induction false} PlayerNamesOnlyFromEntries(num: NumberReader, cs: seq<Sym>, i: nat, team: Option<string>,
                                                      id: Option<string>, parts: map<Option<string>, Option<Polar>>)
    requires PlayerFrom(num, cs, i, team, id, parts).Value?
    ensures (forall j :: i <= j < |cs| ==> !Carries(cs[j], "team")) ==>
              PlayerFrom(num, cs, i, team, id, parts).value.team == team
    ensures (forall j :: i <= j < |cs| ==> !Carries(cs[j], "id")) ==>
              PlayerFrom(num, cs, i, team, id, parts).value.id == id
    decreases |cs| - i
  {
    if i < |cs| {
      var param := cs[i].children;
      if param[0] == Leaf("team") {
        PlayerNamesOnlyFromEntries(num, cs, i + 1, Some(TextAt(param, 1).value), id, parts);
      } else if param[0] == Leaf("id") {
        PlayerNamesOnlyFromEntries(num, cs, i + 1, team, Some(TextAt(param, 1).value), parts);
      } else {
        PlayerNamesOnlyFromEntries(num, cs, i + 1, team, id, PlayerPart(num, param, parts).value);
      }
    }
  }

  // ---------------------------------------------------------------------
  // Foot pressure, accelerometer
  // ---------------------------------------------------------------------

  /**
   * A well-formed FRP fragment sets the left foot for "lf", the right foot
   * for "rf", and is a conversion error changing nothing for any other name.
   */
  lemma FootByName(num: NumberReader, p: Percepts, foot: string, o: seq<string>, f: seq<string>)
    requires |o| == 3 && |f| == 3
    requires forall k :: 0 <= k < 3 ==> num(o[k]).Some? && num(f[k]).Some?
    ensures var cs := [Leaf("FRP"), Node([Leaf("n"), Leaf(foot)]),
                       Node([Leaf("c"), Leaf(o[0]), Leaf(o[1]), Leaf(o[2])]),
                       Node([Leaf("f"), Leaf(f[0]), Leaf(f[1]), Leaf(f[2])])];
            var reading := ForceResistance(Vec3(num(o[0]).value, num(o[1]).value, num(o[2]).value),
                                           Vec3(num(f[0]).value, num(f[1]).value, num(f[2]).value));
            FrpSpec(num, p, cs) ==
              if foot == "lf" then Step(p.(frLeft := Some(reading)), Done)
              else if foot == "rf" then Step(p.(frRight := Some(reading)), Done)
              else Step(p, Conversion)
  {
  }

  /** An FRP fragment changes at most one foot, and nothing when it fails. */
  lemma FrpChangesOneFoot(num: NumberReader, p: Percepts, cs: seq<Sym>)
    ensures var s := FrpSpec(num, p, cs);
            (s.status != Done ==> s.after == p) &&
            (s.status == Done ==> s.after == p.(frLeft := s.after.frLeft) || s.after == p.(frRight := s.after.frRight))
  {
  }

  /**
   * An accelerometer value that is not a number is ignored: the fragment
   * ends normally and the previous reading stays.
   */
  lemma AccKeepsOldOnBadNumber(num: NumberReader, p: Percepts, x: string, y: string, z: string)
    requires num(x).None? || num(y).None? || num(z).None?
    ensures AccSpec(num, p, [Leaf("ACC"), Node([Leaf("n"), Leaf("torso")]),
                             Node([Leaf("a"), Leaf(x), Leaf(y), Leaf(z)])]) == Step(p, Done)
  {
  }

  /** The same gyroscope value escapes the update instead. */
  lemma GyroEscapesOnBadNumber(num: NumberReader, p: Percepts, x: string, y: string, z: string)
    requires num(x).None? || num(y).None? || num(z).None?
    ensures GyroSpec(num, p, [Leaf("GYR"), Node([Leaf("n"), Leaf("torso")]),
                              Node([Leaf("rt"), Leaf(x), Leaf(y), Leaf(z)])]) == Step(p, Escape)
  {
  }

  // ---------------------------------------------------------------------
  // Hear
  // ---------------------------------------------------------------------

  /**
   * A hear fragment either changes nothing, or appends exactly one
   * message: the words from the fourth child on, from a sender that is not
   * "self".
   */
  lemma HearAppendsOrKeeps(num: NumberReader, p: Percepts, cs: seq<Sym>)
    ensures var s := HearSpec(num, p, cs);
            (s.after == p && (s.status == Done ==> cs[2] == Leaf("self"))) ||
            (s.status == Done && cs[2] != Leaf("self") &&
             s.after == p.(hears := p.hears + [Hear(num(cs[1].text).value, num(cs[2].text).value, HeardText(cs[3..]))]))
  {
  }

  predicate AllLeaves(ws: seq<Sym>)
  {
    forall k :: 0 <= k < |ws| ==> ws[k].Leaf?
  }

  /** Words that are plain leaves are heard as the parser's printing of them. */
  lemma {:induction false} HeardTextOfLeaves(ws: seq<Sym>)
    requires AllLeaves(ws)
    ensures HeardText(ws) == PrintList(ws)
    decreases |ws|
  {
    if |ws| > 1 {
      var init := ws[..|ws| - 1];
      HeardTextOfLeaves(init);
      PrintListSnoc(init, ws[|ws| - 1]);
      assert init + [ws[|ws| - 1]] == ws;
    }
  }

  /** Printing one more child appends a space and that child. */
  lemma {:induction false} PrintListSnoc(cs: seq<Sym>, c: Sym)
    requires cs != []
    ensures PrintList(cs + [c]) == PrintList(cs) + " " + PrintChild(c)
    decreases |cs|
  {
    var head, rest := PrintChild(cs[0]), cs[1..];
    assert (cs + [c])[0] == cs[0] && (cs + [c])[1..] == rest + [c];
    if |cs| == 1 {
      assert rest + [c] == [c];
    } else {
      PrintListSnoc(rest, c);
      calc {
        PrintList(cs + [c]);
        head + " " + PrintList(rest + [c]);
        head + " " + (PrintList(rest) + " " + PrintChild(c));
        (head + " " + PrintList(rest)) + " " + PrintChild(c);
      }
    }
  }

  /**
   * A heard message of clean words reads back, through the symbol parser,
   * as exactly those words.
   */
  lemma HeardTextParsesBack(ws: seq<Sym>)
    requires AllLeaves(ws) && AllClean(ws)
    ensures ParseSpec(HeardText(ws)) == Success(Node(ws))
  {
    HeardTextOfLeaves(ws);
    RoundTrip(Node(ws));
  }

  // ---------------------------------------------------------------------
  // Game state
  // ---------------------------------------------------------------------

  /** A game state sub-node the decoder accepts: "(t ...)" or "(pm ...)". */
  predicate TimeOrMode(c: Sym)
  {
    Carries(c, "t") || Carries(c, "pm")
  }

  /**
   * The game state loop succeeds only over "t" and "pm" sub-nodes, and a
   * value that no later sub-node sets keeps its starting value.
   */
  lemma {:induction false} GameStateLoop(num: NumberReader, cs: seq<Sym>, i: nat, time: real, mode: Option<PlayMode>)
    requires GameStateFrom(num, cs, i, time, mode).Value?
    ensures forall j :: i <= j < |cs| ==> TimeOrMode(cs[j])
    ensures (forall j :: i <= j < |cs| ==> !Carries(cs[j], "t")) ==>
              GameStateFrom(num, cs, i, time, mode).value.playTime == time
    ensures (forall j :: i <= j < |cs| ==> !Carries(cs[j], "pm")) ==>
              GameStateFrom(num, cs, i, time, mode).value.playMode == mode
    decreases |cs| - i
  {
    if i < |cs| {
      var sub := cs[i].children;
      if sub[0].text == "t" {
        GameStateLoop(num, cs, i + 1, NumberAt(num, sub, 1).value, mode);
      } else {
        GameStateLoop(num, cs, i + 1, time, GetPlayMode(TextAt(sub, 1).value));
      }
    }
  }

  /**
   * GS replaces the game state only when every sub-node is a readable "t"
   * or "pm"; a missing time is 0 and a missing play mode is null. On
   * failure the old game state stays.
   */
  lemma GameStateReplacedOnlyOnSuccess(num: NumberReader, p: Percepts, cs: seq<Sym>)
    ensures var s := GameStateSpec(num, p, cs);
            (s.status != Done ==> s.after == p) &&
            (s.status == Done ==>
               (forall j :: 1 <= j < |cs| ==> TimeOrMode(cs[j])) &&
               s.after == p.(gameState := s.after.gameState) && s.after.gameState.Some? &&
               ((forall j :: 1 <= j < |cs| ==> !Carries(cs[j], "t")) ==> s.after.gameState.value.playTime == 0.0) &&
               ((forall j :: 1 <= j < |cs| ==> !Carries(cs[j], "pm")) ==> s.after.gameState.value.playMode == None))
  {
    if GameStateFrom(num, cs, 1, 0.0, None).Value? {
      GameStateLoop(num, cs, 1, 0.0, None);
    }
  }
}
