/**
 * PerceptorInput: the object that, once per server cycle, reads the
 * server's message, resets the per-cycle perceptions and decodes the
 * message fragment by fragment into its fields. Each method is proved to
 * do what the matching function of PerceptorParsing says, on the value
 * `State()` that collects the fields.
 */
module Perception {
  import opened Common
  import opened SymbolTree
  import opened RobotConsts
  import opened GameStateConsts
  import opened FieldConsts
  import opened Perceptors
  import opened PerceptorParsing

  class PerceptorInput {
    /** Double.parseDouble / Double.valueOf / Float.parseFloat. */
    const parseNum: NumberReader

    /** The last message read from the server; null at disconnection. */
    var message: Option<string>
    var serverTime: real
    var gameState: Option<GameState>
    const hingeJoints: array<real>
    var gyro: Option<Vec3>
    var acc: Option<Vec3>
    var frLeft: Option<ForceResistance>
    var frRight: Option<ForceResistance>
    var ball: Option<Polar>
    var lines: seq<LinePerception>
    var players: seq<PlayerVision>
    /** What each entry of `players` was built from. */
    ghost var detections: seq<PlayerDetection>
    var goals: map<Option<GoalPostID>, Option<Polar>>
    var flags: map<Option<FlagID>, Option<Polar>>
    var hears: seq<Hear>
    /**
     * Whether an update has run: before the first one the lists and tables
     * are null, and their getters throw.
     */
    var cycleStarted: bool

    ghost predicate Valid()
      reads this
    {
      && hingeJoints.Length == JointsCount
      && |players| == |detections|
      && forall i :: 0 <= i < |players| ==> players[i].Describes(detections[i])
    }

    /** The fields as a value. */
    ghost function State(): Percepts
      reads this, hingeJoints
    {
      Percepts(serverTime, gameState, hingeJoints[..], gyro, acc, frLeft, frRight, ball,
               lines, detections, goals, flags, hears)
    }

    /** Nothing perceived yet: joints at 0, every reading null. */
    constructor (parseNum: NumberReader)
      ensures Valid() && !cycleStarted && message == None
      ensures State() == Percepts(0.0, None, seq(JointsCount, _ => 0.0), None, None, None, None, None,
                                  [], [], map[], map[], [])
    {
      this.parseNum := parseNum;
      message := None;
      serverTime := 0.0;
      gameState := None;
      hingeJoints := new real[JointsCount](_ => 0.0);
      gyro := None;
      acc := None;
      frLeft := None;
      frRight := None;
      ball := None;
      lines := [];
      players := [];
      detections := [];
      goals := map[];
      flags := map[];
      hears := [];
      cycleStarted := false;
    }

    // -------------------------------------------------------------------
    // update and parseNode
    // -------------------------------------------------------------------

    /**
     * update: take the message, reset the per-cycle fields, parse the
     * message and decode each top-level fragment; conversion errors are
     * swallowed, every other failure ends the cycle (status Escape).
     */
    method Update(msg: Option<string>) returns (status: Status)
      requires Valid()
      modifies this, hingeJoints
      ensures Valid() && cycleStarted && message == msg
      ensures Step(State(), status) == UpdateSpec(parseNum, old(State()), msg)
    {
      ghost var before := State();
      message := msg;
      StartCycle();
      if msg.None? {
        return Done;
      }
      var root := Parse(msg);
      if root.Failure? {
        assert UpdateSpec(parseNum, before, msg) == Step(Reset(before), Escape);
        return Escape;
      }
      var frags := root.value.children;
      ghost var spec := UpdateSpec(parseNum, before, msg);
      assert spec == FragmentsFrom(parseNum, State(), frags, 0);
      status := ParseFragments(frags);
      assert Step(State(), status) == spec;
      assert before == old(State());
    }

    /**
     * The first part of update: forget last cycle's foot pressures and
     * ball, and start empty lists and tables.
     */
    method StartCycle()
      requires hingeJoints.Length == JointsCount
      modifies this
      ensures Valid() && cycleStarted && unchanged(this`message)
      ensures State() == Reset(old(State()))
    {
      ForgetReadings();
      EmptyTables();
      EmptyLists();
      cycleStarted := true;
    }

    /** Forget last cycle's foot pressures and ball. */
    method ForgetReadings()
      modifies this
      ensures unchanged(this`message, this`lines, this`players, this`detections)
      ensures unchanged(this`goals, this`flags, this`hears)
      ensures State() == old(State()).(frLeft := None, frRight := None, ball := None)
    {
      frLeft, frRight, ball := None, None, None;
      assert hingeJoints[..] == old(hingeJoints[..]);
    }

    /** Start empty lists: lines, players and hears. */
    method EmptyLists()
      requires hingeJoints.Length == JointsCount
      modifies this
      ensures Valid() && unchanged(this`message, this`goals, this`flags)
      ensures State() == old(State()).(lines := [], players := [], hears := [])
    {
      lines, players, detections, hears := [], [], [], [];
      assert hingeJoints[..] == old(hingeJoints[..]);
    }

    /** Start empty goal post and flag tables. */
    method EmptyTables()
      modifies this
      ensures unchanged(this`message, this`lines, this`players, this`detections, this`hears)
      ensures State() == old(State()).(goals := map[], flags := map[])
    {
      goals, flags := map[], map[];
      assert hingeJoints[..] == old(hingeJoints[..]);
    }

    /**
     * The loop of update over the message's top-level fragments: a leaf
     * fails its cast to SymbolNode, a conversion error is caught and the
     * loop goes on, any other exception leaves the loop.
     */
    method ParseFragments(frags: seq<Sym>) returns (status: Status)
      requires Valid()
      modifies this, hingeJoints
      ensures Valid() && unchanged(this`message, this`cycleStarted)
      ensures Step(State(), status) == FragmentsFrom(parseNum, old(State()), frags, 0)
    {
      for i := 0 to |frags|
        invariant Valid() && unchanged(this`message, this`cycleStarted)
        invariant FragmentsFrom(parseNum, State(), frags, i) == FragmentsFrom(parseNum, old(State()), frags, 0)
      {
        match frags[i] {
          case Leaf(_) =>
            return Escape;
          case Node(cs) =>
            var s := ParseNode(cs);
            if s == Escape {
              return Escape;
            }
        }
      }
      return Done;
    }

    /** parseNode: check the tag and hand the node to its decoder. */
    method ParseNode(cs: seq<Sym>) returns (status: Status)
      requires Valid()
      modifies this, hingeJoints
      ensures Valid() && unchanged(this`message, this`cycleStarted)
      ensures Step(State(), status) == NodeSpec(parseNum, old(State()), cs)
    {
      if |cs| == 0 {
        return Escape;
      }
      if cs[0].Node? {
        return Conversion;
      }
      var tag := cs[0].text;
      if tag == "HJ" {
        status := ParseHingeJoint(cs);
      } else if tag == "time" {
        status := ParseTime(cs);
      } else if tag == "FRP" {
        status := ParseForceResistance(cs);
      } else if tag == "GYR" {
        status := ParseGyro(cs);
      } else if tag == "ACC" {
        status := ParseAcc(cs);
      } else if tag == "See" {
        status := ParseVision(cs);
      } else if tag == "hear" {
        status := ParseHear(cs);
      } else if tag == "GS" {
        status := ParseGameState(cs);
      } else {
        status := Done;
      }
    }

    // -------------------------------------------------------------------
    // Vision
    // -------------------------------------------------------------------

    /**
     * parseVision: walk the items after the tag; a failing item ends the
     * walk, and what the earlier items added stays.
     */
    method ParseVision(cs: seq<Sym>) returns (status: Status)
      requires Valid()
      modifies this
      ensures Valid() && unchanged(this`message, this`cycleStarted)
      ensures Step(State(), status) == VisionSpec(parseNum, old(State()), cs)
    {
      if |cs| == 0 {
        return Conversion;
      }
      var i := 1;
      while i < |cs|
        invariant 1 <= i
        invariant Valid() && unchanged(this`message, this`cycleStarted)
        invariant VisionFrom(parseNum, State(), cs, i) == VisionSpec(parseNum, old(State()), cs)
        decreases |cs| - i
      {
        var s := ParseVisionItem(cs[i]);
        if s != Done {
          return s;
        }
        i := i + 1;
      }
      return Done;
    }

    /** The body of parseVision's loop, for one item. */
    method ParseVisionItem(item: Sym) returns (status: Status)
      requires Valid()
      modifies this
      ensures Valid() && unchanged(this`message, this`cycleStarted)
      ensures Step(State(), status) == VisionItem(parseNum, old(State()), item)
    {
      match item {
        case Leaf(_) =>
          return Done;
        case Node(sub) =>
          if |sub| == 0 || sub[0].Node? {
            return Conversion;
          }
          var tag := sub[0].text;
          if tag == "P" {
            var player := ParsePlayer(sub);
            if !player.Value? {
              return if player.ConversionError? then Conversion else Escape;
            }
            players := players + [player.value];
            detections := detections + [PlayerSpec(parseNum, sub).value];
          } else if tag == "L" {
            var line := LineSpec(parseNum, sub);
            if !line.Value? {
              return StatusOut(line);
            }
            lines := lines + [line.value];
          } else if tag == "B" {
            var pos := PolarAt(parseNum, sub, 1);
            if !pos.Value? {
              return StatusOut(pos);
            }
            ball := pos.value;
          } else if StartsWith(tag, 'G') {
            var id := GetGoalPostID(tag);
            var pos := PolarAt(parseNum, sub, 1);
            if !pos.Value? {
              return StatusOut(pos);
            }
            goals := goals[id := pos.value];
          } else if StartsWith(tag, 'F') {
            var id := GetFlagID(tag);
            var pos := PolarAt(parseNum, sub, 1);
            if !pos.Value? {
              return StatusOut(pos);
            }
            flags := flags[id := pos.value];
          }
          return Done;
      }
    }

    /**
     * parsePlayer: collect team, id and body part positions, then build
     * the PlayerVisionPerceptor from them.
     */
    method ParsePlayer(cs: seq<Sym>) returns (r: Out<PlayerVision>)
      ensures r.Value? <==> PlayerSpec(parseNum, cs).Value?
      ensures r.ConversionError? <==> PlayerSpec(parseNum, cs).ConversionError?
      ensures r.Value? ==> fresh(r.value) && r.value.Describes(PlayerSpec(parseNum, cs).value)
    {
      var team: Option<string> := None;
      var id: Option<string> := None;
      var parts: map<Option<string>, Option<Polar>> := map[];
      var i := 1;
      while i < |cs|
        invariant 1 <= i
        invariant PlayerFrom(parseNum, cs, i, team, id, parts) == PlayerSpec(parseNum, cs)
        decreases |cs| - i
      {
        match cs[i] {
          case Leaf(_) =>
            return ConversionError;
          case Node(param) =>
            if |param| == 0 {
              return ConversionError;
            }
            if param[0] == Leaf("team") {
              var t := TextAt(param, 1);
              if t.Bad? {
                return CaughtOut(t.fault);
              }
              team := Some(t.value);
            } else if param[0] == Leaf("id") {
              var n := TextAt(param, 1);
              if n.Bad? {
                return CaughtOut(n.fault);
              }
              id := Some(n.value);
            } else {
              var next := PlayerPart(parseNum, param, parts);
              if !next.Value? {
                return if next.ConversionError? then ConversionError else Crash;
              }
              parts := next.value;
            }
        }
        i := i + 1;
      }
      var player := new PlayerVision(team, id, parts);
      return Value(player);
    }

    // -------------------------------------------------------------------
    // Body sensors
    // -------------------------------------------------------------------

    /** parseHingeJoint: store one joint angle, in radians. */
    method ParseHingeJoint(cs: seq<Sym>) returns (status: Status)
      requires Valid()
      modifies hingeJoints
      ensures Valid()
      ensures Step(State(), status) == HingeJointSpec(parseNum, old(State()), cs)
    {
      var idNode := NodeAt(cs, 1);
      if idNode.Bad? {
        return Caught(idNode.fault, Escape);
      }
      var rotationNode := NodeAt(cs, 2);
      if rotationNode.Bad? {
        return Caught(rotationNode.fault, Escape);
      }
      var name := TextAt(idNode.value, 1);
      if name.Bad? {
        return Caught(name.fault, Escape);
      }
      var index := GetPerceptorIndex(name.value);
      var deg := NumberAt(parseNum, rotationNode.value, 1);
      if deg.Bad? {
        return Caught(deg.fault, Escape);
      }
      if index < 0 {
        return Conversion;
      }
      hingeJoints[index] := ToRadians(deg.value);
      return Done;
    }

    /** parseTime: set the server time. */
    method ParseTime(cs: seq<Sym>) returns (status: Status)
      requires Valid()
      modifies this`serverTime
      ensures Valid()
      ensures Step(State(), status) == TimeSpec(parseNum, old(State()), cs)
    {
      if |cs| != 2 || !cs[1].Node? {
        return Conversion;
      }
      var timeNode := cs[1].children;
      if |timeNode| != 2 || timeNode[1] == Leaf("now") {
        return Conversion;
      }
      var t := NumberAt(parseNum, timeNode, 1);
      if t.Bad? {
        return Conversion;
      }
      serverTime := t.value;
      return Done;
    }

    /** parseGyro: set the gyroscope reading. */
    method ParseGyro(cs: seq<Sym>) returns (status: Status)
      requires Valid()
      modifies this`gyro
      ensures Valid()
      ensures Step(State(), status) == GyroSpec(parseNum, old(State()), cs)
    {
      var rotationNode := InertialNode(cs, "rt");
      if !rotationNode.Value? {
        return StatusOut(rotationNode);
      }
      var v := VectorAt(parseNum, rotationNode.value);
      if v.Bad? {
        return Caught(v.fault, Escape);
      }
      gyro := Some(v.value);
      return Done;
    }

    /** parseAcc: set the accelerometer reading; a non-number is ignored. */
    method ParseAcc(cs: seq<Sym>) returns (status: Status)
      requires Valid()
      modifies this`acc
      ensures Valid()
      ensures Step(State(), status) == AccSpec(parseNum, old(State()), cs)
    {
      var accelerationNode := InertialNode(cs, "a");
      if !accelerationNode.Value? {
        return StatusOut(accelerationNode);
      }
      var v := VectorAt(parseNum, accelerationNode.value);
      if v.Bad? {
        return Caught(v.fault, Done);
      }
      acc := Some(v.value);
      return Done;
    }

    /** parseForceResistance: set the left or the right foot's reading. */
    method ParseForceResistance(cs: seq<Sym>) returns (status: Status)
      requires Valid()
      modifies this`frLeft, this`frRight
      ensures Valid()
      ensures Step(State(), status) == FrpSpec(parseNum, old(State()), cs)
    {
      if |cs| < 4 || cs[1].Leaf? || cs[2].Leaf? || cs[3].Leaf? {
        return Conversion;
      }
      var nameNode := cs[1].children;
      var originNode := cs[2].children;
      var forceNode := cs[3].children;
      if !Is(nameNode, 0, "n") || !Is(originNode, 0, "c") || !Is(forceNode, 0, "f") {
        return Conversion;
      }
      var origin := VectorAt(parseNum, originNode);
      if origin.Bad? {
        return Caught(origin.fault, Escape);
      }
      var force := VectorAt(parseNum, forceNode);
      if force.Bad? {
        return Caught(force.fault, Escape);
      }
      if |nameNode| < 2 {
        return Conversion;
      }
      if nameNode[1] == Leaf("lf") {
        frLeft := Some(ForceResistance(origin.value, force.value));
      } else if nameNode[1] == Leaf("rf") {
        frRight := Some(ForceResistance(origin.value, force.value));
      } else {
        return Conversion;
      }
      return Done;
    }

    // -------------------------------------------------------------------
    // Hear and game state
    // -------------------------------------------------------------------

    /** parseHear: append a message heard from another player. */
    method ParseHear(cs: seq<Sym>) returns (status: Status)
      requires Valid()
      modifies this`hears
      ensures Valid()
      ensures Step(State(), status) == HearSpec(parseNum, old(State()), cs)
    {
      if |cs| < 4 || cs[2].Node? {
        return Conversion;
      }
      if cs[2].text == "self" {
        return Done;
      }
      var time := NumberAt(parseNum, cs, 1);
      if time.Bad? {
        return Conversion;
      }
      var direction := NumberAt(parseNum, cs, 2);
      if direction.Bad? {
        return Conversion;
      }
      var heard := "";
      for i := 3 to |cs|
        invariant heard == HeardText(cs[3..i])
      {
        assert cs[3..i + 1][..i - 3] == cs[3..i];
        if i > 3 {
          heard := heard + " " + Print(cs[i]);
        } else {
          heard := heard + Print(cs[i]);
        }
      }
      assert cs[3..|cs|] == cs[3..];
      hears := hears + [Hear(time.value, direction.value, heard)];
      return Done;
    }

    /** parseGameState: read "t" and "pm" sub-nodes, then replace the state. */
    method ParseGameState(cs: seq<Sym>) returns (status: Status)
      requires Valid()
      modifies this`gameState
      ensures Valid()
      ensures Step(State(), status) == GameStateSpec(parseNum, old(State()), cs)
    {
      var time := 0.0;
      var mode: Option<PlayMode> := None;
      var i := 1;
      while i < |cs|
        invariant 1 <= i
        invariant GameStateFrom(parseNum, cs, i, time, mode) == GameStateFrom(parseNum, cs, 1, 0.0, None)
        decreases |cs| - i
      {
        match cs[i] {
          case Leaf(_) =>
            return Escape;
          case Node(sub) =>
            if |sub| == 0 || sub[0].Node? {
              return Escape;
            }
            if sub[0].text == "t" {
              var t := NumberAt(parseNum, sub, 1);
              if t == Bad(NotNumber) {
                return Conversion;
              }
              if t.Bad? {
                return Escape;
              }
              time := t.value;
            } else if sub[0].text == "pm" {
              var pm := TextAt(sub, 1);
              if pm.Bad? {
                return Escape;
              }
              mode := GetPlayMode(pm.value);
            } else {
              return Conversion;
            }
        }
        i := i + 1;
      }
      gameState := Some(GameState(time, mode));
      return Done;
    }

    // -------------------------------------------------------------------
    // Getters
    // -------------------------------------------------------------------

    /** getGoalPost: the post's reading this cycle, null when not seen. */
    function GetGoalPost(id: GoalPostID): (r: Option<Polar>)
      reads this
      requires cycleStarted
      ensures Some(id) !in goals ==> r.None?
      ensures r.Some? ==> Some(id) in goals && goals[Some(id)] == r
      ensures Some(id) in goals ==> r == goals[Some(id)]
    {
      if Some(id) in goals then goals[Some(id)] else None
    }

    /** getFlag: the flag's reading this cycle, null when not seen. */
    function GetFlag(id: FlagID): (r: Option<Polar>)
      reads this
      requires cycleStarted
      ensures Some(id) !in flags ==> r.None?
      ensures r.Some? ==> Some(id) in flags && flags[Some(id)] == r
      ensures Some(id) in flags ==> r == flags[Some(id)]
    {
      if Some(id) in flags then flags[Some(id)] else None
    }

    /** getHears: a copy of this cycle's messages, or null when there are none. */
    function GetHears(): (r: Option<seq<Hear>>)
      reads this
      requires cycleStarted
      ensures r.None? <==> hears == []
      ensures r.Some? ==> r.value == hears
    {
      if |hears| == 0 then None else Some(hears)
    }

    /** getPlayerPositions: a copy of this cycle's players, or null when none. */
    function GetPlayerPositions(): (r: Option<seq<PlayerVision>>)
      reads this
      requires cycleStarted
      ensures r.None? <==> players == []
      ensures r.Some? ==> r.value == players
    {
      if |players| == 0 then None else Some(players)
    }

    /** getLines: a copy of this cycle's lines, or null when none. */
    function GetLines(): (r: Option<seq<LinePerception>>)
      reads this
      requires cycleStarted
      ensures r.None? <==> lines == []
      ensures r.Some? ==> r.value == lines
    {
      if |lines| == 0 then None else Some(lines)
    }

    /** getJoint: the sensed angle of joint `i`, in radians. */
    function GetJoint(i: nat): real
      reads this, hingeJoints
      requires Valid() && i < JointsCount
    {
      hingeJoints[i]
    }
  }
}
