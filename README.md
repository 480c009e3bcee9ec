# RoboNewbie core, modelled in Dafny

RoboNewbie is a Java client for the SimSpark RoboCup 3D soccer simulator.
Each server cycle the agent does four things:

1. It receives one length-framed message from the server.
2. It parses that message into a tree of symbols and decodes the tree into perceptor readings.
3. It keeps a local view of the field from those readings.
4. It decides what to do and sends joint speed commands back.

This project models that core and proves properties of it. The modules follow the Java packages:

- `SymbolTree` (symbol_tree.dfy): `SymbolNode` and `SymbolTreeParser`.
  - It covers the bracket-and-space syntax of server messages.
  - It covers the printer.
  - It proves the parse/print round trip for trees whose leaves are non-empty and hold no space or parenthesis.
- `Perception`, `PerceptorParsing`, `Perceptors` (perceptor_input.dfy, perceptor_parsing.dfy, perceptors.dfy):
  - `PerceptorInput` with its per-cycle reset and its tag dispatch (HJ, time, FRP, GYR, ACC, See, hear, GS).
  - Its conversion errors, which are swallowed per fragment.
  - `PlayerVisionPerceptor`.
- `RobotConsts`, `GameStateConsts`, `FieldConsts`: the joint, body part, play mode, goal post and flag tables, and their lookups.
- `Effectors` (effector_output.dfy): `EffectorOutput`.
  - Its joint command table and say message.
  - The message it sends once per cycle.
- `Network` (server_communication.dfy): `ServerCommunication`.
  - The 4-byte big-endian length header.
  - The read loop that collects a whole message body.
  - The `initRobot` handshake.
- `Keyframes`, `KeyframeFiles`, `Motion`, `OtherSide` (keyframe.dfy, keyframe_file.dfy, keyframe_motion.dfy, other_side.dfy):
  - Keyframes and keyframe sequences with their cursor.
  - The keyframe text format, read and written.
  - The keyframe motion state machine with its per-joint speed computation.
  - The left/right mirroring of a sequence.
- `DatedItems`, `FieldView` (dated_item_model.dfy, local_field_view.dfy):
  - Time-stamped item models.
  - The local field view with its 0.05 s staleness rule and its player table and list.
- `LookAround` (look_around.dfy): the head scan.
- `WalkFlag`, `SimpleWalkToBall`, `SimpleSoccer`, `KeyframeDeveloper`, `Soccer` (walk_flag.dfy, simple_thinking.dfy, soccer_thinking.dfy, key_dev_thinking.dfy, robo1.dfy): the decision rules of the example agents and of `robo1`.
- `Logging` (logger.dfy): `Logger.log`, with its indent and 100-character row wrapping.
- `Common` (common.dfy): shared types.

The model takes several things as parameters:

- Number parsing and printing: partial functions from strings to reals and back.
- The time prefix of a log entry.
- The lines of a keyframe file.
- The bytes the server sends.

## Model

| member | source | states |
|---|---|---|
| Common.DegreesRadiansRoundTrip | src/keyframeMotion/KeyframeMotion.java:585-596 | converting degrees to radians and back, as Math.toRadians and Math.toDegrees do, gives the same angle |
| RobotConsts.GetBodyPartName | src/util/RobotConsts.java:445-454 | a name yields a body part exactly when it is that part's lowercase name, case matching; null or any other name yields null |
| RobotConsts.IndexFrom | src/util/RobotConsts.java:224-228 | the search from an index returns the first joint at or after it whose perceptor name equals the string, or -1 exactly when none does |
| RobotConsts.GetPerceptorIndex | src/util/RobotConsts.java:224-228 | the loop returns the first joint index whose perceptor name equals the string, and -1 exactly when no perceptor has that name |
| RobotConsts.JointConstantsAreIndices | src/util/RobotConsts.java:29-140 | the 22 joint constants NeckYaw..RightArmYaw are the indices 0..21, each once |
| RobotConsts.PerceptorIDsDistinct | src/util/RobotConsts.java:348-370 | no two joints share a perceptor name, so the name search is unambiguous |
| RobotConsts.IndexFromFinds | src/util/RobotConsts.java:224-227 | the search returns the first position at which the name occurs |
| RobotConsts.PerceptorIndexInverse | src/util/RobotConsts.java:224-227 | every joint's perceptor name leads back to that joint |
| RobotConsts.PerceptorIndexUnknown | src/util/RobotConsts.java:228 | a name no joint carries gives -1 |
| RobotConsts.EffectorIDsDistinct | src/util/RobotConsts.java:372-394 | no two joints share an effector name, so each command drives one joint |
| RobotConsts.EffectorIDsOfJoints | src/util/RobotConsts.java:348-394 | every joint has an effector name of its own, its perceptor name with 'e' for 'j', so the index that reads a joint also drives it; NeckPitch is driven by "he2" |
| RobotConsts.GetEffectorID | src/util/RobotConsts.java:205-207 | getEffectorID: the effector table's entry for a joint index in 0 to 21 |
| RobotConsts.GetAngleMin | src/util/RobotConsts.java:173-175 | getAngleMin: the minimum table's entry for a joint index in 0 to 21 |
| RobotConsts.GetAngleMax | src/util/RobotConsts.java:186-188 | getAngleMax: the maximum table's entry for a joint index in 0 to 21 |
| RobotConsts.AngleRangesNonEmpty | src/util/RobotConsts.java:397-443 | every joint's minimum angle lies strictly below its maximum |
| FieldConsts.GetGoalPostID | src/util/FieldConsts.java:37-62 | the lookup yields a goal post exactly when the string is that post's name, case matching, and null for every other string |
| FieldConsts.GetFlagID | src/util/FieldConsts.java:50-71 | the lookup yields a flag exactly when the string is that flag's name, case matching, and null for every other string |
| FieldConsts.NamesDisjoint | src/util/FieldConsts.java:55-71 | no string names both a goal post and a flag |
| FieldConsts.TablesAreBijections | src/util/FieldConsts.java:55-71 | both tables are one-to-one: each name leads to its own id and distinct ids have distinct names |
| GameStateConsts.ToLower | src/util/GameStateConsts.java:64 | lower-casing keeps the length and maps every character through the ASCII lower-case table |
| GameStateConsts.NamesLeadToModes | src/util/GameStateConsts.java:33-54 | every play mode's name is in the table and maps to that play mode |
| GameStateConsts.EntryIsNamed | src/util/GameStateConsts.java:33-54 | every key of the table is the name of the play mode it maps to |
| GameStateConsts.TableIsTheNames | src/util/GameStateConsts.java:33-54 | the table holds exactly the 18 play mode names |
| GameStateConsts.NamesAreLowercase | src/util/GameStateConsts.java:36-64 | every name in the table is already lowercase, so getPlayMode reaches each play mode through its name |
| GameStateConsts.ModeNameNoUpper | src/util/GameStateConsts.java:36-53 | no play mode name holds an uppercase letter |
| GameStateConsts.LowerOfLower | src/util/GameStateConsts.java:64 | lower-casing a string with no upper-case letter leaves it as it is |
| GameStateConsts.ToLowerIdempotent | src/util/GameStateConsts.java:64 | lower-casing twice is lower-casing once |
| GameStateConsts.GetPlayModeExactly | src/util/GameStateConsts.java:63-65 | getPlayMode yields a play mode exactly for the strings whose lowercase form is its name, and null for every other string |
| GameStateConsts.GetPlayMode | src/util/GameStateConsts.java:63-65 | getPlayMode: the lower-cased string looked up in the table, null when it names no play mode |
| GameStateConsts.GetPlayModeIgnoresCase | src/util/GameStateConsts.java:63-65 | a string and its lowercase form yield the same play mode |
| GameStateConsts.ModeNamesInjective | src/util/GameStateConsts.java:36-53 | distinct play modes have distinct names |
| SymbolTree.ParseInput | src/agentIO/perceptorInputUtil/SymbolTreeParser.java:44-55 | what parse returns for an input (None for null): a successful parse is always a node |
| SymbolTree.Parse | src/agentIO/perceptorInputUtil/SymbolTreeParser.java:44-55 | a null or empty input fails with "Empty string"; an input not starting with '(' and ending with ')' fails; otherwise the result is parseReal's |
| SymbolTree.ParseReal | src/agentIO/perceptorInputUtil/SymbolTreeParser.java:79-163 | the character loop with its level counter, the recursive call on each closed depth-zero group and the final level check return exactly the parse specification of the string |
| SymbolTree.Scan | src/agentIO/perceptorInputUtil/SymbolTreeParser.java:79-163 | parseReal's loop from index i: level, start of the pending leaf or group, children so far; a depth-zero space ends a non-empty leaf, a closing depth-zero group is parsed recursively, a negative or final non-zero level fails |
| SymbolTree.ParseSpec | src/agentIO/perceptorInputUtil/SymbolTreeParser.java:79-163 | parseReal(s): the loop from the start with level 0 and no children |
| SymbolTree.ScanGivesNode | src/agentIO/perceptorInputUtil/SymbolTreeParser.java:151-162 | a scan that succeeds delivers a node holding the collected children |
| SymbolTree.ScanSucceedsIffBalanced | src/agentIO/perceptorInputUtil/SymbolTreeParser.java:100-160 | with the level equal to the depth of the prefix read and no prefix below zero, the scan succeeds exactly when the whole string is balanced |
| SymbolTree.ScanEnd | src/agentIO/perceptorInputUtil/SymbolTreeParser.java:151-160 | once the input is read, the scan succeeds exactly when the final level is zero, that is when the string is balanced |
| SymbolTree.ScanClosing | src/agentIO/perceptorInputUtil/SymbolTreeParser.java:115-126 | a ')' that drops the level below zero ends the loop in failure; one that closes a group hands a balanced group to the recursive call |
| SymbolTree.GroupBalanced | src/agentIO/perceptorInputUtil/SymbolTreeParser.java:122-124 | the substring between a depth-zero '(' and its matching ')' is balanced |
| SymbolTree.ParseSucceedsIffBalanced | src/agentIO/perceptorInputUtil/SymbolTreeParser.java:100-160 | parseReal throws "Missing brackets" exactly when the parentheses of the string are unbalanced (a prefix below depth zero or a nonzero final depth) |
| SymbolTree.ParseAcceptsExactly | src/agentIO/perceptorInputUtil/SymbolTreeParser.java:44-55 | parse accepts exactly the non-null, non-empty, balanced inputs that begin with '(' and end with ')' |
| SymbolTree.ScanClean | src/agentIO/perceptorInputUtil/SymbolTreeParser.java:128-153 | every leaf the scan collects is non-empty and free of ' ', '(' and ')' |
| SymbolTree.ParseClean | src/agentIO/perceptorInputUtil/SymbolTreeParser.java:128-153 | every leaf of a parsed tree is non-empty and holds no space or parenthesis; tabs and newlines stay inside leaves |
| SymbolTree.PrintListBalanced | src/agentIO/perceptorInputUtil/SymbolNode.java:58-78 | toString of a list of children with clean leaves has balanced parentheses |
| SymbolTree.PrintChildBalanced | src/agentIO/perceptorInputUtil/SymbolNode.java:71-74 | one child printed, with parentheses around a node, has balanced parentheses |
| SymbolTree.ScanThroughGroup | src/agentIO/perceptorInputUtil/SymbolTreeParser.java:102-126 | inside a group the loop only counts the level: the start index and the collected children are untouched |
| SymbolTree.ScanPrinted | src/agentIO/perceptorInputUtil/SymbolTreeParser.java:100-162 | scanning the printing of a list of children from depth zero collects exactly those children |
| SymbolTree.ScanChild | src/agentIO/perceptorInputUtil/SymbolTreeParser.java:115-141 | one printed child followed by a space (or the end) is collected as that child |
| SymbolTree.ScanLeaf | src/agentIO/perceptorInputUtil/SymbolTreeParser.java:128-153 | a word followed by a space (or the end) is collected as one leaf |
| SymbolTree.RoundTrip | src/agentIO/perceptorInputUtil/SymbolNode.java:52-78 | for every tree whose leaves are clean, parsing its toString gives the tree back, the identity its documentation promises |
| SymbolTree.Print | src/agentIO/perceptorInputUtil/SymbolNode.java:58-78 | toString: a leaf is its text, a node the printing of its children |
| SymbolTree.PrintList | src/agentIO/perceptorInputUtil/SymbolNode.java:65-75 | the children in order with one space between them, a sub-node in parentheses, nothing for no children |
| SymbolTree.PrintEmpty | src/agentIO/perceptorInputUtil/SymbolNode.java:62-63 | a node without children prints as the empty string |
| SymbolTree.PrintChildNode | src/agentIO/perceptorInputUtil/SymbolNode.java:71-72 | a child node prints as "(" + its toString + ")" |
| SymbolTree.TwoGroups | src/agentIO/perceptorInputUtil/SymbolTreeParser.java:115-125 | "(A)(B)" parses to two child nodes and prints back as "(A) (B)", so the round trip holds for trees, not for strings |
| SymbolTree.DroppedPrefix | src/agentIO/perceptorInputUtil/SymbolTreeParser.java:110-111 | text right before a depth-zero '(' is dropped: "a(b)" loses "a" |
| SymbolTree.RepeatedSpaces | src/agentIO/perceptorInputUtil/SymbolTreeParser.java:135-140 | a run of spaces produces no empty leaves |
| PerceptorParsing.TextAt | src/agentIO/PerceptorInput.java:481-489 | a cast of a child to String succeeds exactly for a leaf at that position; past the end it is an index error |
| PerceptorParsing.NodeAt | src/agentIO/PerceptorInput.java:589-590 | a cast of a child to SymbolNode succeeds exactly for a node at that position; past the end it is an index error |
| PerceptorParsing.NumberAt | src/agentIO/PerceptorInput.java:553-555 | reading a child as a number succeeds exactly for a leaf the decimal reader accepts, and is a number format error for a leaf it rejects |
| PerceptorParsing.VectorAt | src/agentIO/PerceptorInput.java:667-669 | a Vector3D of children 1 to 3 is built exactly when all three read as numbers, from those numbers in order |
| PerceptorParsing.VisionItem | src/agentIO/PerceptorInput.java:423-448 | one vision item only adds: it changes no field besides players, lines, ball, goals and flags, appends to the player and line lists and adds goal and flag keys; a failing item changes nothing |
| PerceptorParsing.VisionFrom | src/agentIO/PerceptorInput.java:423-453 | the vision loop from an item on touches no field outside the vision fields |
| PerceptorParsing.NodeSpec | src/agentIO/PerceptorInput.java:357-403 | dispatch of a fragment by its tag keeps the joint table at 22 entries |
| PerceptorParsing.FragmentSpec | src/agentIO/PerceptorInput.java:334-337 | one top-level fragment (a leaf fails the cast) keeps the joint table at 22 entries |
| PerceptorParsing.FragmentsFrom | src/agentIO/PerceptorInput.java:333-341 | the fragment loop swallows conversion errors, so it never ends in one, and keeps the joint table at 22 entries |
| PerceptorParsing.UpdateSpec | src/agentIO/PerceptorInput.java:311-342 | update resets the per-cycle fields and decodes the message; it never ends in a conversion error |
| PerceptorParsing.NodeKeeps | src/agentIO/PerceptorInput.java:357-403 | a fragment that does not carry a tag leaves the fields of that tag's decoder unchanged |
| PerceptorParsing.UnknownTagIgnored | src/agentIO/PerceptorInput.java:369-403 | a fragment whose tag no decoder handles changes nothing |
| PerceptorParsing.FragmentsKeep | src/agentIO/PerceptorInput.java:333-341 | fragments that do not carry a tag leave that tag's fields alone |
| PerceptorParsing.UpdateKeeps | src/agentIO/PerceptorInput.java:311-342 | after update, the fields of a tag no fragment carries are as the reset left them: foot pressures, ball, lines, players, goals, flags and hear messages empty; joints, time, gyro, accelerometer and game state as before |
| PerceptorParsing.FragmentsShift | src/agentIO/PerceptorInput.java:333 | the loop over a longer list, started past a prefix, is the loop over the rest |
| PerceptorParsing.FragmentsCompose | src/agentIO/PerceptorInput.java:333-341 | decoding two lists of fragments is decoding the first and then, unless an exception escaped, the second from where the first left off |
| PerceptorParsing.ConversionErrorIsSkipped | src/agentIO/PerceptorInput.java:336-340 | a fragment that fails with a conversion error is skipped, and the next fragment is decoded from the state it left |
| PerceptorParsing.PerceptorIndexSound | src/util/RobotConsts.java:224-228 | the perceptor index is -1 exactly for a name no joint carries, and otherwise names that joint |
| PerceptorParsing.HingeJointSpec | src/agentIO/PerceptorInput.java:578-605 | parseHingeJoint: the joint index looked up by name, the angle read and stored in radians; an unknown name fails at the store |
| PerceptorParsing.TimeSpec | src/agentIO/PerceptorInput.java:614-640 | parseTime: the server time read from the second child of the time sub-node, whose tag is not checked; a sub-node whose second child is "now" and every other failure are conversion errors |
| PerceptorParsing.HingeJointWritesOneJoint | src/agentIO/PerceptorInput.java:578-605 | an HJ fragment writes at most one joint and nothing else; whatever fails changes nothing |
| PerceptorParsing.HingeJointReading | src/agentIO/PerceptorInput.java:589-601 | "(HJ (n name) (ax deg))" stores deg in radians at the joint named; an unknown name is an index error reported as a conversion error that changes nothing |
| PerceptorParsing.HingeJointOfJoint | src/agentIO/PerceptorInput.java:600-601 | every joint's own perceptor name writes that joint |
| PerceptorParsing.PolarSpec | src/agentIO/PerceptorInput.java:541-569 | parsePolar: four children headed "pol" or a conversion error; distance, azimuth and elevation with the angles in radians; a number that does not parse gives null |
| PerceptorParsing.LineSpec | src/agentIO/PerceptorInput.java:514-531 | parseLine: the polar readings of children 1 and 2 in order; a missing child is a conversion error |
| PerceptorParsing.PolarReading | src/agentIO/PerceptorInput.java:553-569 | "(pol d a e)" with three numbers is the reading (d, a, e) with angles in radians; with a non-number it is null, not zero |
| PerceptorParsing.PolarShape | src/agentIO/PerceptorInput.java:546-551 | anything but four children headed "pol" is a conversion error |
| PerceptorParsing.BallAbsentOnBadNumber | src/agentIO/PerceptorInput.java:564-569 | a ball seen at a distance that is not a number is recorded as absent |
| PerceptorParsing.VisionSpec | src/agentIO/PerceptorInput.java:412-454 | parseVision: the items of a See node in order, each as VisionItem decodes it |
| PerceptorParsing.PlayerSpec | src/agentIO/PerceptorInput.java:463-505 | parsePlayer: team, id and body part entries of a P node, starting with none of them |
| PerceptorParsing.VisionGrows | src/agentIO/PerceptorInput.java:423-453 | vision only adds: players and lines read before stay in front, in order, and no goal post or flag entry disappears, even when a later item fails |
| PerceptorParsing.PlayerNamesOnlyFromEntries | src/agentIO/PerceptorInput.java:468-483 | a player's team stays null unless a "(team t)" entry was read, and likewise its id |
| PerceptorParsing.FrpSpec | src/agentIO/PerceptorInput.java:728-779 | parseForceResistance: shape and tags checked, both vectors read, then the foot chosen by name |
| PerceptorParsing.GyroSpec | src/agentIO/PerceptorInput.java:649-674 | parseGyro: the rate vector of "(GYR (n torso) (rt x y z))"; a bad number escapes |
| PerceptorParsing.AccSpec | src/agentIO/PerceptorInput.java:685-717 | parseAcc: the vector of "(ACC (n torso) (a x y z))"; a bad number is swallowed and the old reading stays |
| PerceptorParsing.FootByName | src/agentIO/PerceptorInput.java:741-774 | a well-formed FRP fragment sets the left foot for "lf", the right foot for "rf", and is a conversion error changing nothing for any other name |
| PerceptorParsing.FrpChangesOneFoot | src/agentIO/PerceptorInput.java:728-779 | an FRP fragment changes at most one foot, and nothing when it fails |
| PerceptorParsing.AccKeepsOldOnBadNumber | src/agentIO/PerceptorInput.java:704-712 | an accelerometer value that is not a number is ignored and the previous reading stays |
| PerceptorParsing.GyroEscapesOnBadNumber | src/agentIO/PerceptorInput.java:667-673 | the same non-number in a gyroscope fragment escapes the update, since parseGyro does not catch it |
| PerceptorParsing.HearSpec | src/agentIO/PerceptorInput.java:792-824 | parseHear: at least four children; "self" is dropped, any other message appended; every exception becomes a conversion error |
| PerceptorParsing.HearAppendsOrKeeps | src/agentIO/PerceptorInput.java:792-824 | a hear fragment changes nothing (and succeeds only from "self"), or appends exactly one message, built from the fourth child on, from another sender |
| PerceptorParsing.HeardTextOfLeaves | src/agentIO/PerceptorInput.java:811-817 | words that are plain leaves are joined with single spaces, as the symbol tree prints them |
| PerceptorParsing.HeardTextParsesBack | src/agentIO/PerceptorInput.java:811-817 | a heard message of clean words parses back to exactly those words |
| PerceptorParsing.GameStateSpec | src/agentIO/PerceptorInput.java:835-876 | parseGameState: time and play mode read from "t" and "pm" sub-nodes, the field replaced only after the whole loop |
| PerceptorParsing.GameStateLoop | src/agentIO/PerceptorInput.java:844-872 | the game state loop succeeds only over "t" and "pm" sub-nodes, and a value no sub-node sets keeps its start value |
| PerceptorParsing.GameStateReplacedOnlyOnSuccess | src/agentIO/PerceptorInput.java:835-876 | GS replaces the game state only when every sub-node is a readable "t" or "pm"; a missing time is 0 and a missing play mode null; on failure the old game state stays |
| Perceptors.PlayerVision.constructor | src/agentIO/perceptors/PlayerVisionPerceptor.java:36-42 | team and id are kept as given, null included, and the body part table is the given one translated key by key |
| Perceptors.PlayerVision.GetBodyPart | src/agentIO/perceptors/PlayerVisionPerceptor.java:64-66 | getBodyPart: the stored position of a body part, null for one not seen |
| Perceptors.PlayerVision.GetBodyPartReportsDetection | src/agentIO/perceptors/PlayerVisionPerceptor.java:40-66 | a body part's position is the one reported under its name, or null when none was |
| Perception.PerceptorInput.constructor | src/agentIO/PerceptorInput.java:68-79 | before the first update no joint angle is set and every reading is null |
| Perception.PerceptorInput.Update | src/agentIO/PerceptorInput.java:311-342 | update stores the message, resets the per-cycle fields and decodes the message fragment by fragment, as UpdateSpec says |
| Perception.PerceptorInput.StartCycle | src/agentIO/PerceptorInput.java:314-323 | the reset clears foot pressures and ball and starts empty lines, players, goals, flags and hears; nothing else changes |
| Perception.PerceptorInput.ForgetReadings | src/agentIO/PerceptorInput.java:314-317 | foot pressures and ball become null; nothing else changes |
| Perception.PerceptorInput.EmptyLists | src/agentIO/PerceptorInput.java:318-323 | lines, players and hears become empty; nothing else changes |
| Perception.PerceptorInput.EmptyTables | src/agentIO/PerceptorInput.java:320-321 | goals and flags become empty; nothing else changes |
| Perception.PerceptorInput.ParseFragments | src/agentIO/PerceptorInput.java:333-341 | the loop over the fragments ends in the state FragmentsFrom describes, a conversion error skipping only its fragment |
| Perception.PerceptorInput.ParseNode | src/agentIO/PerceptorInput.java:357-403 | a fragment goes to the decoder its tag names, with the result NodeSpec describes |
| Perception.PerceptorInput.ParseVision | src/agentIO/PerceptorInput.java:412-454 | the vision loop ends in the state VisionSpec describes, keeping what the items before a failure added |
| Perception.PerceptorInput.ParseVisionItem | src/agentIO/PerceptorInput.java:424-448 | one vision item (P, L, B, G or F) has the effect VisionItem describes |
| Perception.PerceptorInput.ParsePlayer | src/agentIO/PerceptorInput.java:463-505 | a fresh PlayerVisionPerceptor is built exactly when PlayerSpec succeeds, and it holds the team, id and body parts PlayerSpec reads |
| Perception.PerceptorInput.ParseHingeJoint | src/agentIO/PerceptorInput.java:578-605 | the joint angle is stored as HingeJointSpec says, and only in the joint array |
| Perception.PerceptorInput.ParseTime | src/agentIO/PerceptorInput.java:614-640 | only the server time changes, as TimeSpec says |
| Perception.PerceptorInput.ParseGyro | src/agentIO/PerceptorInput.java:649-674 | only the gyroscope reading changes, as GyroSpec says |
| Perception.PerceptorInput.ParseAcc | src/agentIO/PerceptorInput.java:685-717 | only the accelerometer reading changes, as AccSpec says |
| Perception.PerceptorInput.ParseForceResistance | src/agentIO/PerceptorInput.java:728-779 | only the feet's readings change, as FrpSpec says |
| Perception.PerceptorInput.ParseHear | src/agentIO/PerceptorInput.java:792-824 | only the hear list changes, as HearSpec says |
| Perception.PerceptorInput.ParseGameState | src/agentIO/PerceptorInput.java:835-876 | only the game state changes, as GameStateSpec says |
| Perception.PerceptorInput.GetGoalPost | src/agentIO/PerceptorInput.java:94-96 | a post not seen this cycle is null; otherwise its reading this cycle |
| Perception.PerceptorInput.GetFlag | src/agentIO/PerceptorInput.java:111-113 | a flag not seen this cycle is null; otherwise its reading this cycle |
| Perception.PerceptorInput.GetHears | src/agentIO/PerceptorInput.java:160-165 | null exactly when no message was heard this cycle, otherwise all of them in order |
| Perception.PerceptorInput.GetPlayerPositions | src/agentIO/PerceptorInput.java:203-208 | null exactly when no player was seen this cycle, otherwise all of them in order |
| Perception.PerceptorInput.GetLines | src/agentIO/PerceptorInput.java:220-225 | null exactly when no line was seen this cycle, otherwise all of them in order |
| Perception.PerceptorInput.GetJoint | src/agentIO/PerceptorInput.java:260-262 | getJoint: the sensed angle of joint i, in radians |
| Effectors.EffectorOutput.constructor | src/agentIO/EffectorOutput.java:55-59 | no joint command and no say text pending |
| Effectors.EffectorOutput.SendAgentMessage | src/agentIO/EffectorOutput.java:80-96 | the pending commands and say text go out as one framed message ending in "(syn)", unless the connection is down; afterwards nothing is pending |
| Effectors.EffectorOutput.BuildMessage | src/agentIO/EffectorOutput.java:81-91 | the loop over joints 0 to 21 builds exactly AgentMessage of the pending commands and say text |
| Effectors.EffectorOutput.SetJointCommand | src/agentIO/EffectorOutput.java:112-114 | the joint's command is replaced and the others stay |
| Effectors.EffectorOutput.SetSayMessage | src/agentIO/EffectorOutput.java:127-129 | the say text is replaced |
| Effectors.EffectorOutput.SetAllJointCommands | src/agentIO/EffectorOutput.java:152-155 | joints 0 to 21 get the array's first 22 entries; commands under other keys stay |
| Effectors.JointsFrom | src/agentIO/EffectorOutput.java:153-154 | the table for joints 0 to n-1 has exactly those keys, each with the array's entry |
| Effectors.MessageEndsInSyn | src/agentIO/EffectorOutput.java:91 | every agent message ends in "(syn)" |
| Effectors.NoCommandsNoText | src/agentIO/EffectorOutput.java:83-87 | joints without a command add nothing to the message |
| Effectors.EmptyMessageIsSyn | src/agentIO/EffectorOutput.java:80-96 | with nothing pending the message is exactly "(syn)", so a second send in one cycle sends only that |
| Effectors.JointsTextAgrees | src/agentIO/EffectorOutput.java:83-87 | the joint part of the message depends only on the commands for joints 0 to 21 |
| Effectors.OutOfRangeIgnored | src/agentIO/EffectorOutput.java:83-114 | a command stored under an index outside 0 to 21 is never sent |
| Effectors.SetCommandShows | src/agentIO/EffectorOutput.java:84-86 | setting joint k's command adds "(effector value)" right after the entries of the joints before it |
| Effectors.SayBeforeSyn | src/agentIO/EffectorOutput.java:88-91 | a pending say text appears as "(say text)" right before the closing "(syn)" |
| Network.Pattern | src/agentIO/ServerCommunication.java:212 | a Java int's 32-bit pattern is below 2^32 |
| Network.Signed | src/agentIO/ServerCommunication.java:212 | the int read back from a 32-bit pattern lies in the int range and has that pattern |
| Network.Or | src/agentIO/ServerCommunication.java:212 | the bitwise or of two n-bit patterns fits in n bits |
| Network.Header | src/agentIO/ServerCommunication.java:170-174 | the length header is four bytes |
| Network.DecodeDigits | src/agentIO/ServerCommunication.java:208-212 | four header bytes, the first below 0x80, decode by shifts and ors to their big-endian value |
| Network.HeaderDigits | src/agentIO/ServerCommunication.java:170-174 | the header bytes of a non-negative int length are its base-256 digits, most significant first |
| Network.Frame | src/agentIO/ServerCommunication.java:170-181 | what sendAgentMessage writes: the four header bytes, then the body |
| Network.DecodeLength | src/agentIO/ServerCommunication.java:208-212 | b0 << 24 or b1 << 16 or b2 << 8 or b3 on four read results, as a signed 32-bit int |
| Network.HeaderRoundTrip | src/agentIO/ServerCommunication.java:170-212 | decoding the header the sender writes gives back the length, for every non-negative int |
| Network.EndOfStreamIsNegative | src/agentIO/ServerCommunication.java:208-216 | if any of the four header reads hits the end of the stream (-1), the decoded length is negative |
| Network.MinusOneShifted | src/agentIO/ServerCommunication.java:212 | -1 shifted left by 24, 16, 8 or 0 bits has the sign bit set |
| Network.Bytes | src/agentIO/ServerCommunication.java:145 | getBytes gives one byte per character |
| Network.Text | src/agentIO/ServerCommunication.java:226 | the received bytes become one character each |
| Network.TextOfBytes | src/agentIO/ServerCommunication.java:226 | text of eight-bit characters survives the trip through bytes |
| Network.ReadResult | src/agentIO/ServerCommunication.java:208-211 | in.read() gives a byte value or -1 |
| Network.ReceiveSpec | src/agentIO/ServerCommunication.java:200-232 | getServerMessage on a stream: a negative length escapes, otherwise the body is read |
| Network.BodySpec | src/agentIO/ServerCommunication.java:216-226 | the read loop: the message of the first length bytes, or an escaping exception when the stream ends first |
| Network.ReceiveAfterHeader | src/agentIO/ServerCommunication.java:208-226 | a stream starting with four bytes is received by decoding them as the length, escaping on a negative one, and reading that many bytes on |
| Network.BodyReadBack | src/agentIO/ServerCommunication.java:221-226 | reading exactly the body's length gives back the body and leaves the rest of the stream |
| Network.FrameReadBack | src/agentIO/ServerCommunication.java:143-232 | what sendAgentMessage frames is received intact by getServerMessage, and the stream goes on after it |
| Network.ShortStreamEscapes | src/agentIO/ServerCommunication.java:208-221 | a stream shorter than a header never yields a message |
| Network.ServerCommunication.constructor | src/agentIO/ServerCommunication.java:69-95 | a connection that has sent and received nothing, over which the server will send the given bytes |
| Network.ServerCommunication.SendAgentMessage | src/agentIO/ServerCommunication.java:143-185 | the 4-byte length and the body are appended to the outgoing stream, unless the connection is down, when the IOException is only reported |
| Network.ServerCommunication.ReadByte | src/agentIO/ServerCommunication.java:208-211 | in.read() takes the next byte off the stream, or gives -1 at its end |
| Network.ServerCommunication.GetServerMessage | src/agentIO/ServerCommunication.java:200-232 | the header is read and decoded, then the body, as ReceiveSpec says; a connection that is down gives null |
| Network.ServerCommunication.ReadBody | src/agentIO/ServerCommunication.java:221-224 | the read loop ends with the state BodySpec describes, whatever amount each read delivers |
| Network.ServerCommunication.InitRobot | src/agentIO/ServerCommunication.java:121-132 | initRobot sends scene, init and beam with a receive between each two, then makes 100 rounds of receive and "(syn)"; the calls made are always a prefix of that sequence |
| Network.ServerCommunication.Handshake | src/agentIO/ServerCommunication.java:122-126 | scene, receive, init, receive, beam, or a prefix of that when a receive throws |
| Network.ServerCommunication.SynRound | src/agentIO/ServerCommunication.java:129-130 | one receive, then "(syn)" unless the receive threw |
| Network.ServerCommunication.SynRoundsLoop | src/agentIO/ServerCommunication.java:128-131 | 100 rounds of receive and "(syn)", or a prefix of them |
| Network.SynRounds | src/agentIO/ServerCommunication.java:128-131 | n rounds are 2n calls |
| Network.SynRoundsStep | src/agentIO/ServerCommunication.java:128-131 | one more round appends one receive and one "(syn)" |
| Network.SynRoundsPrefix | src/agentIO/ServerCommunication.java:128-131 | fewer rounds are a prefix of more |
| Network.SynRoundsSends | src/agentIO/ServerCommunication.java:128-131 | n rounds send n messages |
| Network.InitTraceShape | src/agentIO/ServerCommunication.java:121-132 | initRobot makes 205 calls, 103 sends and 102 receives, strictly alternating, starting and ending with a send, and every message it sends ends in "(syn)" |
| Network.SynEndings | src/agentIO/ServerCommunication.java:122-130 | the scene, init, beam and syn messages all end in "(syn)" |
| Keyframes.Keyframe.constructor | src/keyframeMotion/util/Keyframe.java:11-14 | a keyframe keeps the given transition time and the given angle array itself, not a copy |
| Keyframes.WriteThrough | src/keyframeMotion/util/Keyframe.java:11-22 | since the array is shared, a later write into it is what getAngle returns, and the other angles are as before |
| Keyframes.Keyframe.GetTransitionTime | src/keyframeMotion/util/Keyframe.java:16-18 | getTransitionTime: the time given to the constructor |
| Keyframes.Keyframe.GetAngle | src/keyframeMotion/util/Keyframe.java:20-22 | getAngle: entry i of the shared angle array as it is now |
| Keyframes.FramesOf | src/keyframeMotion/util/KeyframeSequence.java:14 | the values of a list of keyframes, one per keyframe |
| Keyframes.FramesOfSnoc | src/keyframeMotion/util/KeyframeSequence.java:40-43 | appending a keyframe appends its value |
| Keyframes.FramesOfAt | src/keyframeMotion/util/KeyframeSequence.java:14 | entry i of the values is the value of keyframe i |
| Keyframes.FramesOfAll | src/keyframeMotion/util/KeyframeSequence.java:14 | every entry of the values is the value of its keyframe |
| Keyframes.CursorRun | src/keyframeMotion/util/KeyframeSequence.java:22-33 | k calls of getNextFrame hand out k results and leave the cursor within the sequence |
| Keyframes.CursorRunToEnd | src/keyframeMotion/util/KeyframeSequence.java:22-33 | from any cursor, the frames from there on come out in order, then a single null that puts the cursor back to 0 |
| Keyframes.CursorPeriod | src/keyframeMotion/util/KeyframeSequence.java:16-33 | from a fresh cursor, size+1 calls hand out every frame in insertion order and then null, and the next call starts over with the first frame |
| Keyframes.EmptyAlwaysNull | src/keyframeMotion/util/KeyframeSequence.java:24-27 | an empty sequence hands out null on every call |
| Keyframes.KeyframeSequence.constructor | src/keyframeMotion/util/KeyframeSequence.java:14-46 | a new sequence is empty with the cursor at 0 |
| Keyframes.KeyframeSequence.GetNextFrame | src/keyframeMotion/util/KeyframeSequence.java:22-33 | the frame under the cursor, advancing it; at the end null, with the cursor back at 0 |
| Keyframes.KeyframeSequence.AddFrame | src/keyframeMotion/util/KeyframeSequence.java:40-43 | a frame is appended at the end and null is ignored; the cursor does not move |
| KeyframeFiles.DigitChar | src/keyframeMotion/util/KeyframeFileHandler.java:81 | a decimal digit is printed as the character whose value it is |
| KeyframeFiles.Digits | src/keyframeMotion/util/KeyframeFileHandler.java:81 | a number prints as at least one digit and nothing but digits |
| KeyframeFiles.IntToStringShape | src/keyframeMotion/util/KeyframeFileHandler.java:81 | an int prints as a digit or '-' followed by digits only |
| KeyframeFiles.DigitsValueOfDigits | src/keyframeMotion/util/KeyframeFileHandler.java:58-81 | the printed digits of a number have that number as their value |
| KeyframeFiles.ParseInt | src/keyframeMotion/util/KeyframeFileHandler.java:58 | Integer.parseInt: an optional sign, then decimal digits, within int range; None where it throws |
| KeyframeFiles.ParseIntToString | src/keyframeMotion/util/KeyframeFileHandler.java:58-81 | Integer.parseInt reads back every int that StringBuilder.append prints |
| KeyframeFiles.ParseNonNegative | src/keyframeMotion/util/KeyframeFileHandler.java:58 | the digits of a number up to the int maximum parse to that number |
| KeyframeFiles.ParseNegative | src/keyframeMotion/util/KeyframeFileHandler.java:58 | '-' and the digits of a number up to 2^31 parse to its negation |
| KeyframeFiles.Split | src/keyframeMotion/util/KeyframeFileHandler.java:56 | split(" "): the pieces between single spaces, trailing empty pieces dropped; a string without a space gives itself |
| KeyframeFiles.Pieces | src/keyframeMotion/util/KeyframeFileHandler.java:56 | splitting at single spaces gives at least one piece |
| KeyframeFiles.PiecesOfWord | src/keyframeMotion/util/KeyframeFileHandler.java:56 | a word without a space is one piece |
| KeyframeFiles.PiecesAppend | src/keyframeMotion/util/KeyframeFileHandler.java:56 | splitting at a space splits the two sides independently |
| KeyframeFiles.TakeAngles | src/keyframeMotion/util/KeyframeFileHandler.java:60-67 | the angle loop never holds more than 22 angles |
| KeyframeFiles.FrameSpec | src/keyframeMotion/util/KeyframeFileHandler.java:51-69 | a line that reads as a frame gives exactly 22 angles |
| KeyframeFiles.TakeAnglesFailureStays | src/keyframeMotion/util/KeyframeFileHandler.java:60-67 | once parseDouble has thrown, no later token undoes it |
| KeyframeFiles.GetFrame | src/keyframeMotion/util/KeyframeFileHandler.java:51-69 | getFrame builds a fresh keyframe with its own 22-entry array exactly when FrameSpec succeeds, holding what FrameSpec says |
| KeyframeFiles.FillAngles | src/keyframeMotion/util/KeyframeFileHandler.java:60-67 | the loop fills the zeroed array with the angles TakeAngles parses, zeros after them, or throws exactly when TakeAngles fails |
| KeyframeFiles.ParseAll | src/keyframeMotion/util/KeyframeFileHandler.java:63 | parsing every token gives one number per token |
| KeyframeFiles.TakeAnglesFirst22 | src/keyframeMotion/util/KeyframeFileHandler.java:60-67 | the angles are the first 22 non-empty tokens, parsed; later tokens are ignored even when they would not parse |
| KeyframeFiles.ReadingStopStays | src/keyframeMotion/util/KeyframeFileHandler.java:29-40 | once an exception has ended the reading, later lines add nothing |
| KeyframeFiles.GetSequenceFromFile | src/keyframeMotion/util/KeyframeFileHandler.java:25-42 | a new sequence, cursor at 0, with one fresh frame per frame line in file order up to the first exception; a file that cannot be opened gives an empty sequence |
| KeyframeFiles.ReadFrameLines | src/keyframeMotion/util/KeyframeFileHandler.java:32-37 | the reading loop appends the frames Reading describes |
| KeyframeFiles.ReadLine | src/keyframeMotion/util/KeyframeFileHandler.java:33-36 | an empty line or a "//" line is skipped, and a frame line is read, keeping the sequence equal to what Reading describes |
| KeyframeFiles.ReadFrameLine | src/keyframeMotion/util/KeyframeFileHandler.java:34-35 | a frame line's frame is appended, or the sequence is left as it was when getFrame throws |
| KeyframeFiles.FrameLines | src/keyframeMotion/util/KeyframeFileHandler.java:33 | the lines kept are frame lines of the file |
| KeyframeFiles.ReadingAllFrameLines | src/keyframeMotion/util/KeyframeFileHandler.java:32-37 | when every frame line parses, the reading never stops and holds one frame per frame line, in order |
| KeyframeFiles.WritingFailureStays | src/keyframeMotion/util/KeyframeFileHandler.java:75-92 | once getAngle has thrown, later frames add nothing |
| KeyframeFiles.BuildLine | src/keyframeMotion/util/KeyframeFileHandler.java:80-84 | a frame's line is its time and its 22 angles followed by "\n", or getAngle throws for an array shorter than 22 |
| KeyframeFiles.WriteSequenceToFile | src/keyframeMotion/util/KeyframeFileHandler.java:74-93 | the frames from the cursor on are written one line each until getNextFrame gives null, which leaves the cursor at 0; a frame that throws stops the writing with the cursor just past it |
| KeyframeFiles.WriteFrames | src/keyframeMotion/util/KeyframeFileHandler.java:77-87 | the loop writes what Writing describes and leaves the cursor as stated above |
| KeyframeFiles.WriteNext | src/keyframeMotion/util/KeyframeFileHandler.java:80-86 | one pass writes the frame's line and fetches the next frame, or fails with the cursor unchanged |
| KeyframeFiles.WriteFrame | src/keyframeMotion/util/KeyframeFileHandler.java:80-85 | writing one frame extends Writing by its line or marks the failure |
| KeyframeFiles.FramePieces | src/keyframeMotion/util/KeyframeFileHandler.java:56-83 | a written line splits into the printed time and the printed angles |
| KeyframeFiles.TakeShownAngles | src/keyframeMotion/util/KeyframeFileHandler.java:60-83 | printed angles that read back as themselves are taken back unchanged |
| KeyframeFiles.NumberLineIsFrameLine | src/keyframeMotion/util/KeyframeFileHandler.java:33 | a line starting with a digit or '-' is a frame line |
| KeyframeFiles.LineTextStart | src/keyframeMotion/util/KeyframeFileHandler.java:81 | a written line starts with the first character of the printed time |
| KeyframeFiles.FrameTextSplit | src/keyframeMotion/util/KeyframeFileHandler.java:56-83 | String.split of a written line is the printed time and the 22 printed angles |
| KeyframeFiles.FrameReadBack | src/keyframeMotion/util/KeyframeFileHandler.java:51-84 | a written line is a frame line and reads back as the frame's time and first 22 angles |
| KeyframeFiles.FrameTexts | src/keyframeMotion/util/KeyframeFileHandler.java:80-84 | one line per frame |
| KeyframeFiles.Terminated | src/keyframeMotion/util/KeyframeFileHandler.java:84-85 | each line is written followed by "\n" |
| KeyframeFiles.FirstAngles | src/keyframeMotion/util/KeyframeFileHandler.java:82-83 | each frame with its angles cut to the first 22 |
| KeyframeFiles.WritingAll | src/keyframeMotion/util/KeyframeFileHandler.java:77-87 | frames with 22 or more angles are all written, one line plus "\n" each |
| KeyframeFiles.ReadingWritten | src/keyframeMotion/util/KeyframeFileHandler.java:25-93 | reading the written lines gives back every frame's time and first 22 angles |
| KeyframeFiles.WrittenReadsBack | src/keyframeMotion/util/KeyframeFileHandler.java:25-93 | read after write: one write per frame, and reading those lines gives back every frame's time and first 22 angles, in order, when printed numbers read back as themselves and hold no space or line break |
| KeyframeFiles.ReadingPrefix | src/keyframeMotion/util/KeyframeFileHandler.java:32 | the reading so far depends only on the lines read so far |
| Motion.PostureSeen | src/keyframeMotion/KeyframeMotion.java:155-161 | the posture is "laying-down" exactly when it was remembered so or the z acceleration is below 7; otherwise it is the remembered one |
| Motion.PostureSeenIdempotent | src/keyframeMotion/KeyframeMotion.java:157-161 | asking again in the same cycle sees the same posture, so isWalking's repeated calls agree |
| Motion.WalkForwardAlternates | src/keyframeMotion/KeyframeMotion.java:286-301 | walking forward is possible from every upright posture and leaves the robot walking; from a walking posture it switches leg, and two steps come back to the same leg |
| Motion.StopOnlyWhileWalking | src/keyframeMotion/KeyframeMotion.java:317-329 | stopping is possible exactly while walking, and ends standing |
| Motion.Commands | src/keyframeMotion/KeyframeMotion.java:536-540 | one cycle commands all 22 joints |
| Motion.Memory | src/keyframeMotion/KeyframeMotion.java:581-603 | the remembered steps after one cycle are again 22 |
| Motion.FinalCycleStill | src/keyframeMotion/KeyframeMotion.java:581-604 | the last cycle of a frame commands no joint and leaves the remembered steps as they were |
| Motion.CommandZeroIff | src/keyframeMotion/KeyframeMotion.java:587-599 | before the last cycle a joint's command is zero exactly when the sensed angle plus the remembered step is already the target |
| Motion.MovingIff | src/keyframeMotion/KeyframeMotion.java:536-541 | before the last cycle the frame goes on exactly when some joint is not predicted at its target |
| Motion.IdealTrackingKeepsStep | src/keyframeMotion/KeyframeMotion.java:587-599 | when a joint follows each command exactly, the next cycle commands the same step, and the remaining steps land exactly on the target |
| Motion.KeyframeMotion.constructor | src/keyframeMotion/KeyframeMotion.java:99-155 | the motion starts ready, standing, with no sequence and every remembered step 0, over the sequences loaded from their files |
| Motion.KeyframeMotion.Ready | src/keyframeMotion/KeyframeMotion.java:432-438 | ready exactly when no move is running, and then no sequence is set |
| Motion.KeyframeMotion.CurrentPosture | src/keyframeMotion/KeyframeMotion.java:157-161 | the remembered posture becomes the one PostureSeen gives, and is returned |
| Motion.KeyframeMotion.IsWalking | src/keyframeMotion/KeyframeMotion.java:303-306 | true exactly when the posture currentPosture sees is a walking one |
| Motion.KeyframeMotion.SetMove | src/keyframeMotion/KeyframeMotion.java:180-282 | a plain selector puts its move's sequence in place of whatever runs, without checking ready(), and the next cycle starts its next frame |
| Motion.KeyframeMotion.SetWalkForward | src/keyframeMotion/KeyframeMotion.java:286-301 | the gait phase that fits the posture is set and the posture moves on to the next phase; a lying robot gets no new sequence, yet the motion waits for its next frame |
| Motion.KeyframeMotion.SetStopWalking | src/keyframeMotion/KeyframeMotion.java:317-330 | the end phase for the leg the robot walks on is set and the robot then counts as standing; in any other posture no new sequence is set, yet the motion waits for its next frame |
| Motion.KeyframeMotion.SetStandUpFromBack | src/keyframeMotion/KeyframeMotion.java:368-373 | the stand-up sequence is set and the robot counts as standing |
| Motion.KeyframeMotion.SetStandUp | src/keyframeMotion/KeyframeMotion.java:353-359 | stand up from the back when the y acceleration is positive, else roll over to the back |
| Motion.KeyframeMotion.SetTest | src/keyframeMotion/KeyframeMotion.java:417-423 | the sequence is read afresh from the test file and played from its first frame |
| Motion.KeyframeMotion.Select | src/keyframeMotion/KeyframeMotion.java:180-423 | the selector a thinking module calls has the effect its own method states |
| Motion.KeyframeMotion.ExecuteKeyframeSequence | src/keyframeMotion/KeyframeMotion.java:459-470 | nothing happens when ready; between frames the next frame starts, or the motion becomes ready after the last one; in a frame one more cycle runs; between frames with no sequence the NullPointerException is thrown and nothing changes |
| Motion.KeyframeMotion.SetActualKeyframe | src/keyframeMotion/KeyframeMotion.java:481-515 | the next frame of the sequence starts with every remembered step 0 and transitionTime / 20 cycles (truncating), and its first cycle runs at once; at the end of the sequence it is dropped and the motion is ready |
| Motion.KeyframeMotion.ExecuteActualKeyframe | src/keyframeMotion/KeyframeMotion.java:531-569 | all 22 joints are commanded, the cycles left drop by one, and the frame goes on exactly when some command is non-zero |
| Motion.KeyframeMotion.GetSpeedFromAngleAndTime | src/keyframeMotion/KeyframeMotion.java:581-603 | joint i's command this cycle is JointCommand, and only joint i's remembered step changes |
| OtherSide.Opposite | src/examples/agentKeyframeDeveloper/OtherSideGenerator.java:63-84 | each joint has a partner joint among the 22 |
| OtherSide.OppositeInvolution | src/examples/agentKeyframeDeveloper/OtherSideGenerator.java:63-84 | the partner of the partner is the joint itself, and only the two neck joints are their own partners |
| OtherSide.FlipsSignSymmetric | src/examples/agentKeyframeDeveloper/OtherSideGenerator.java:63-84 | a joint's angle is negated exactly when its partner's is |
| OtherSide.Mirror | src/examples/agentKeyframeDeveloper/OtherSideGenerator.java:61-84 | the generated frame has 22 angles |
| OtherSide.MirrorTwice | src/examples/agentKeyframeDeveloper/OtherSideGenerator.java:65-81 | mirroring twice gives every angle back except RightShoulderPitch, which ends up with the original LeftShoulderPitch, since line 65 copies LeftShoulderPitch instead of taking the right one |
| OtherSide.MirroredFrames | src/examples/agentKeyframeDeveloper/OtherSideGenerator.java:60-87 | as many frames as given, with the same times, in the same order, each with mirrored angles |
| OtherSide.GenerateOtherSide | src/examples/agentKeyframeDeveloper/OtherSideGenerator.java:57-90 | a new sequence, cursor at 0, holding the mirror of each frame the input hands out from its cursor to its end, in order; the input's cursor ends at 0 |
| OtherSide.MirrorFrames | src/examples/agentKeyframeDeveloper/OtherSideGenerator.java:60-87 | the loop builds the mirrored frames and leaves the input's cursor at 0 |
| OtherSide.MirrorNext | src/examples/agentKeyframeDeveloper/OtherSideGenerator.java:60-86 | one pass appends the mirror of the current frame and fetches the next one |
| OtherSide.MirrorAngles | src/examples/agentKeyframeDeveloper/OtherSideGenerator.java:61-84 | a fresh array with the mirrored angles |
| OtherSide.MirrorHeadAndLeftArm | src/examples/agentKeyframeDeveloper/OtherSideGenerator.java:63-68 | joints 0 to 5 of the new array get their mirrored angles and nothing else changes |
| OtherSide.MirrorLeftLeg | src/examples/agentKeyframeDeveloper/OtherSideGenerator.java:69-74 | joints 6 to 11 get their mirrored angles and nothing else changes |
| OtherSide.MirrorRightLeg | src/examples/agentKeyframeDeveloper/OtherSideGenerator.java:75-80 | joints 12 to 17 get their mirrored angles and nothing else changes |
| OtherSide.MirrorRightArm | src/examples/agentKeyframeDeveloper/OtherSideGenerator.java:81-84 | joints 18 to 21 get their mirrored angles and nothing else changes |
| WalkFlag.RunCons | src/examples/agentSimpleWalkToBall/SimpleThinking.java:33-72 | a decision that keeps the walking-flag rule, followed by a run from the flag it leaves, is a run |
| WalkFlag.WalkingUntilStop | src/examples/agentSimpleWalkToBall/SimpleThinking.java:61-69 | after a walk the flag stays set up to the next stop |
| WalkFlag.StopBetween | src/examples/agentSimpleWalkToBall/SimpleThinking.java:59-72 | in any run that keeps the rule, there is a stop between a walk and any later careful selector |
| SimpleWalkToBall.Decision | src/examples/agentSimpleWalkToBall/SimpleThinking.java:28-73 | walk exactly when the ball is in view with angle below 30 degrees; otherwise stop exactly when walking, else turn left; the flag is set by a walk and cleared by a stop |
| SimpleWalkToBall.Decisions | src/examples/agentSimpleWalkToBall/SimpleThinking.java:52-75 | the decisions of a run of ready cycles keep the walking-flag rule |
| SimpleWalkToBall.NoTurnStraightAfterWalk | src/examples/agentSimpleWalkToBall/SimpleThinking.java:65-72 | a turn never follows a walk without a stop in between |
| SimpleWalkToBall.SimpleThinking.constructor | src/examples/agentSimpleWalkToBall/SimpleThinking.java:33-44 | the thinker watches the field view's ball model and the robot is not walking yet |
| SimpleWalkToBall.SimpleThinking.Decide | src/examples/agentSimpleWalkToBall/SimpleThinking.java:52-75 | nothing while a move runs; otherwise the selector and flag of Decision, from the ball model as it is now |
| DatedItems.Refreshed | src/localFieldView/LocalFieldView.java:179-184 | an item seen this cycle is stamped now, in view, with the new data; an unseen one keeps its stamp and data and drops out of view exactly when its stamp is more than 0.05 s old; whatever is in view afterwards was seen within 0.05 s |
| DatedItems.RefreshedUnseenIdempotent | src/localFieldView/LocalFieldView.java:183-184 | a cycle in which an item is not seen changes nothing when repeated at the same time |
| DatedItems.WithCoords | src/localFieldView/BallModel.java:37-40 | the update of a ball, goal post or flag replaces the position and keeps the kind and the id |
| DatedItems.DatedItemModel.constructor | src/localFieldView/DatedItemModel.java:26-29 | a model is made stamped with the given time and in view |
| DatedItems.DatedItemModel.SetTimeStamp | src/localFieldView/DatedItemModel.java:39-42 | stamped with the given time and in view, both together |
| DatedItems.DatedItemModel.SetInFOVnow | src/localFieldView/DatedItemModel.java:64-66 | only the in-view flag changes |
| DatedItems.DatedItemModel.IsInFOVnow | src/localFieldView/DatedItemModel.java:54-56 | isInFOVnow: the stored flag |
| DatedItems.DatedItemModel.GetTimeStamp | src/localFieldView/DatedItemModel.java:73-75 | getTimeStamp: the stored time |
| DatedItems.DatedItemModel.UpdateCoords | src/localFieldView/GoalPostModel.java:41-44 | stamped now, in view, with the new position and the same id |
| DatedItems.DatedItemModel.UpdateBodyParts | src/localFieldView/PlayerModel.java:51-54 | stamped now, in view, with the new body part table; team and id stay |
| FieldView.Corrected | src/localFieldView/LocalFieldView.java:337-340 | the distance is kept, the neck yaw is added to the azimuth and the neck pitch to the elevation |
| FieldView.CorrectedInverse | src/localFieldView/LocalFieldView.java:337-340 | correcting by the opposite neck angles undoes a correction |
| FieldView.BuildLines | src/localFieldView/LocalFieldView.java:161-168 | one corrected model per line, in order, stamped now; the loop throws exactly when some line has a null end point, and stops at the first one |
| FieldView.BuildLinesStop | src/localFieldView/LocalFieldView.java:162-168 | the loop stops at index i exactly when the lines before i are whole and i is the end or a broken line |
| FieldView.KeysCollide | src/localFieldView/LocalFieldView.java:211 | team + id as key lets different players share a model: ("ab","1") and ("a","b1"), or a null team and the team "null" |
| FieldView.BodyPartsSeen | src/localFieldView/LocalFieldView.java:213-221 | the new table has exactly the body parts the detection reports, each corrected by the neck angles |
| FieldView.SeePlayerKeeps | src/localFieldView/LocalFieldView.java:210-231 | one detection keeps table and list in agreement; its key, unless the agent's own, is stamped now and in view; every other model is unchanged; no player is removed and the list only grows at its end |
| FieldView.SeenKeysSnoc | src/localFieldView/LocalFieldView.java:210-211 | the keys seen in a list of detections are those of all but its last, plus the last's |
| FieldView.SeePlayersKeeps | src/localFieldView/LocalFieldView.java:209-232 | the player loop keeps table and list in agreement, and the list only grows at its end |
| FieldView.SeePlayersKeys | src/localFieldView/LocalFieldView.java:209-232 | afterwards the keys are the old ones plus those seen, and the agent's own key is never added |
| FieldView.SeePlayersStamps | src/localFieldView/LocalFieldView.java:209-232 | every key seen, the agent's own excepted, is stamped now and in view, and every other model is unchanged |
| FieldView.MarkStale | src/localFieldView/LocalFieldView.java:233-235 | the closing loop keeps every key |
| FieldView.MarkStaleRecent | src/localFieldView/LocalFieldView.java:233-235 | afterwards every player in view was seen within 0.05 s, and no player lost its data |
| FieldView.MarkStaleAll | src/localFieldView/LocalFieldView.java:233-235 | a table whose every entry is refreshed unseen is the table the closing loop leaves |
| FieldView.PlayerPartEffect | src/localFieldView/LocalFieldView.java:208-235 | the player part of update as a whole: table and list agree; no player is removed and the agent never added; every player seen is stamped now and in view; every player in view was seen within 0.05 s; no unseen player changes its data |
| FieldView.RosterSameData | src/localFieldView/LocalFieldView.java:110-111 | table and list agree whenever keys, order and data agree |
| FieldView.GoalIndex | src/util/FieldConsts.java:16-18 | every goal post has its place in GoalPostID.values() |
| FieldView.FlagIndex | src/util/FieldConsts.java:23-25 | every flag has its place in FlagID.values() |
| FieldView.BodyPartIndex | src/util/RobotConsts.java:150 | every body part has its place in BodyPartName.values() |
| FieldView.NewGoalModels | src/localFieldView/LocalFieldView.java:128-132 | one fresh model per goal post, stamped 0, out of view, with no position |
| FieldView.NewFlagModels | src/localFieldView/LocalFieldView.java:134-138 | one fresh model per flag, stamped 0, out of view, with no position |
| FieldView.NewBodyParts | src/localFieldView/LocalFieldView.java:213-221 | the body part loop builds exactly BodyPartsSeen |
| FieldView.RefreshPoint | src/localFieldView/LocalFieldView.java:177-184 | one ball, goal post or flag model becomes Refreshed of its old state and this cycle's corrected sighting |
| FieldView.LocalFieldView.ListMatchesTable | src/localFieldView/LocalFieldView.java:227-228 | the list holds each model of the table exactly once, and nothing else |
| FieldView.LocalFieldView.constructor | src/localFieldView/LocalFieldView.java:120-145 | no lines and no players; every goal post and flag has a model stamped 0 and out of view; the ball's is stamped 0 but, never cleared, starts in view |
| FieldView.LocalFieldView.UpdateLines | src/localFieldView/LocalFieldView.java:159-172 | with lines sighted the list is rebuilt from them up to a broken one, whose exception escapes; with none it is emptied only when its first line is more than 0.05 s old |
| FieldView.LocalFieldView.UpdateGoals | src/localFieldView/LocalFieldView.java:174-185 | each goal post's model is refreshed from this cycle's sighting |
| FieldView.LocalFieldView.UpdateFlags | src/localFieldView/LocalFieldView.java:187-198 | each flag's model is refreshed from this cycle's sighting |
| FieldView.LocalFieldView.RefreshPlayer | src/localFieldView/LocalFieldView.java:222-224 | a known player seen again is stamped now with the new body parts |
| FieldView.LocalFieldView.AddPlayer | src/localFieldView/LocalFieldView.java:225-229 | a new player gets a fresh model stamped now, put in the table under its key and appended to the list |
| FieldView.LocalFieldView.SeeOnePlayer | src/localFieldView/LocalFieldView.java:210-231 | one detection has the effect SeePlayer describes |
| FieldView.LocalFieldView.SeeAllPlayers | src/localFieldView/LocalFieldView.java:209-232 | the player loop has the effect SeePlayers describes |
| FieldView.LocalFieldView.MarkStalePlayers | src/localFieldView/LocalFieldView.java:233-235 | the closing loop has the effect MarkStale describes |
| FieldView.LocalFieldView.UpdateItems | src/localFieldView/LocalFieldView.java:174-206 | every goal post, flag and the ball is refreshed from its sighting |
| FieldView.LocalFieldView.UpdatePlayers | src/localFieldView/LocalFieldView.java:208-235 | the player loop over the detections, none when null, then the closing loop |
| FieldView.LocalFieldView.UpdateRest | src/localFieldView/LocalFieldView.java:174-235 | goal posts, flags and ball refreshed, then the players seen and aged |
| FieldView.LocalFieldView.Update | src/localFieldView/LocalFieldView.java:153-236 | the lines are rebuilt or aged; unless a broken line's exception escaped, every goal post, flag and the ball is refreshed, the players detected are added or stamped, and every player unseen for more than 0.05 s drops out of view; after the exception nothing else changed |
| LookAround.ScanPeriod | src/directMotion/LookAroundMotion.java:81-115 | the scan visits all five poses and comes back to the start after exactly five steps, not before |
| LookAround.LookStep | src/directMotion/LookAroundMotion.java:77-116 | one look moves at most one step along the scan and sets at most one command, for the pose's own neck joint: leaving a turn to an extreme sets none, leaving a centring pose stops the joint, and staying keeps it turning at full speed |
| LookAround.Apply | src/agentIO/EffectorOutput.java:112-114 | the command table with the new command, if any, set and every other command kept |
| LookAround.AdvancesAtGoal | src/directMotion/LookAroundMotion.java:83-109 | a pose advances exactly when its watched angle has reached the goal: past -40 degrees pitch down, 54 degrees yaw left, -54 degrees yaw right, within 5 degrees of the centre for the centring poses |
| LookAround.DrivesTowardsGoal | src/directMotion/LookAroundMotion.java:86-113 | until a pose reaches its goal the speed drives the joint towards it, except that the centring poses always turn in the positive sense, away from the centre when the angle is above it |
| LookAround.LookAroundMotion.constructor | src/directMotion/LookAroundMotion.java:67-72 | the scan starts by turning the head down |
| LookAround.LookAroundMotion.Look | src/directMotion/LookAroundMotion.java:77-116 | the pose and the effector's command table become what LookStep gives for the sensed neck angles in degrees |
| SimpleSoccer.Decision | src/examples/agentSimpleSoccer/SoccerThinking.java:94-182 | a fallen robot stands up from the back or rolls over, flag kept; a stale ball means turn left, flag kept; a small turn left or right only for a ball more than 6 degrees off that side; a side step left only when the left post is at or right of the ball, right only when the ball is at or left of the right post; a walk only for a fresh ball that, when known, is within 6 degrees; and every decision keeps the walking-flag rule |
| SimpleSoccer.Decisions | src/examples/agentSimpleSoccer/SoccerThinking.java:94-182 | the decisions of a run of ready cycles keep the walking-flag rule |
| SimpleSoccer.NoCarefulStraightAfterWalk | src/examples/agentSimpleSoccer/SoccerThinking.java:119-159 | a small turn or a side step never follows a walk without a stop in between |
| SimpleSoccer.StaleGoalTurnsWhileWalking | src/examples/agentSimpleSoccer/SoccerThinking.java:141-173 | a stale goal post sends a walking robot turning left at once, since that branch does not consult the flag |
| SimpleSoccer.SoccerThinking.constructor | src/examples/agentSimpleSoccer/SoccerThinking.java:73-86 | the thinker watches the ball model and the G1R and G2R post models, and the robot is not walking yet |
| SimpleSoccer.SoccerThinking.Decide | src/examples/agentSimpleSoccer/SoccerThinking.java:94-182 | nothing while a move runs; otherwise the selector and flag of Decision, from the models as they are now |
| KeyframeDeveloper.KeyDevStep | src/examples/agentKeyframeDeveloper/KeyDevThinking.java:52-85 | a fall stands the robot up from the back or rolls it over and resets the state to 0; state 0 plays the test motion and waits; state 1 counts the wait down and, at 0, restarts it at 100 and goes back to state 0; states stay within 0 to 3 and the wait within 0 to 100 |
| KeyframeDeveloper.KeyDevRun | src/examples/agentKeyframeDeveloper/KeyDevThinking.java:52-85 | a run of ready cycles selects at most one motion per cycle and keeps state and wait in range |
| KeyframeDeveloper.WaitsThenRetests | src/examples/agentKeyframeDeveloper/KeyDevThinking.java:67-74 | waiting with w cycles left, an upright robot selects nothing for w+1 cycles, then plays the test motion again |
| KeyframeDeveloper.FallThenRetest | src/examples/agentKeyframeDeveloper/KeyDevThinking.java:55-82 | a fallen robot is stood up, and the next cycle, if upright, plays the test motion |
| KeyframeDeveloper.KeyDevThinking.constructor | src/examples/agentKeyframeDeveloper/KeyDevThinking.java:25-41 | the thinker starts in state 0 with the full wait of 100 |
| KeyframeDeveloper.KeyDevThinking.Decide | src/examples/agentKeyframeDeveloper/KeyDevThinking.java:52-85 | nothing while a move runs; otherwise one KeyDevStep, whose selector, if any, is called |
| Soccer.Robo1Decision | src/soccer/robo1.java:149-245 | a robot seen lying stands up, flag kept; a ball older than the look time means turn left, flag kept; the turning flag changes only on a small turn towards the ball, and is newly set only for a ball more than 30 degrees aside; a stop only while walking and a side step only while not; a walk only when neither turning before nor after |
| Soccer.TurningHysteresis | src/soccer/robo1.java:172-190 | an upright robot with the ball in sight keeps turning while the ball lies more than 6 degrees aside and stops turning within 6 degrees; it starts turning only beyond 30 degrees |
| Soccer.Robo1Run | src/soccer/robo1.java:149-245 | a run of ready cycles makes one decision per cycle |
| Soccer.KeepsTurning | src/soccer/robo1.java:172-190 | once turning, a robot that keeps seeing the ball more than 6 degrees aside turns a small step towards it every ready cycle, however little the ball lay aside when it started |
| Soccer.Robo1.constructor | src/soccer/robo1.java:98-147 | the thinking watches the ball model and the G1R and G2R post models, and is not turning yet |
| Soccer.Robo1.Decide | src/soccer/robo1.java:149-245 | nothing while a move runs; otherwise the posture is looked up, a fall remembered, and the selector and flag of Robo1Decision follow |
| Logging.Wrap | src/util/Logger.java:92-108 | the loop of log: each character, then the indent after a line break, or a break and the indent after 100 characters in a row |
| Logging.Unwrap | src/util/Logger.java:92-108 | the message back out of a logged one: every character kept, the inserted indents and breaks skipped |
| Logging.UnwrapWrap | src/util/Logger.java:92-108 | removing what log inserts gives back the message, whatever the indent |
| Logging.WrapSnoc | src/util/Logger.java:93-108 | writing one more character appends its step, and the row counter moves on as the loop's guard does |
| Logging.AppendRow | src/util/Logger.java:95-101 | text without a line break lengthens the last row |
| Logging.AppendBreak | src/util/Logger.java:97-103 | a line break starts a new, empty row |
| Logging.StepRows | src/util/Logger.java:95-106 | one written character keeps every row within the indent plus 100 characters |
| Logging.WrapRows | src/util/Logger.java:92-108 | a whole message written from any row counter has no row longer than the indent plus 100 |
| Logging.EntryRows | src/util/Logger.java:84-110 | an entry, the time prefix and then the message indented as wide as the prefix, has no row longer than the prefix plus 100 characters |
| Logging.Logger.constructor | src/util/Logger.java:44-47 | a logger starts with no entries |
| Logging.Logger.Log | src/util/Logger.java:74-112 | a null message adds nothing; any other adds exactly one entry, the time prefix followed by the message as Wrap writes it |
| Logging.Logger.PrintLog | src/util/Logger.java:122-128 | every entry is printed in order between "Log begin" and "Log end", and the entries stay |
| Common.Spaces | src/util/Logger.java:86-90 | the indent is as many spaces as the time prefix has characters |

## Left out

- Sockets, streams and files are not modelled directly.
  - The connection is a byte sequence in and a trace out.
  - A keyframe file is a sequence of lines.
  - Bytes become characters one to one.
  - The platform charset of `getBytes` and UTF-8 decoding are not modelled.
- Numbers are `real`.
  - Double rounding is not modelled.
  - `Double.parseDouble`, `Double.valueOf`, `Float.parseFloat` and `Double.toString` are parameters. The keyframe round trip assumes parsing inverts printing.
  - PerceptorParsing.GameStateFrom: the game-state time, read with `Float.parseFloat` (PerceptorInput.java:852), goes through the same number reader as every `Double.parseDouble`. Its rounding to float precision is not modelled.
  - `Math.PI` is the exact decimal 3.141592653589793.
- `Vector3D` (Apache Commons Math) is a polar triple. `Vector3D.NaN` is `None`. Angle normalisation is not modelled.
- Debug output is not modelled:
  - `toString`, `getDebugString`, `getAllJointsString`, `Logger.polarStr`/`cartesianStr`;
  - the logging calls inside LookAroundMotion, the thinking classes and LocalFieldView;
  - the selector logging switch of KeyframeMotion.
- `Logger.log` receives its time prefix as a parameter. The clock read and the "%.3f" formatting are not modelled. `printLog` returns the lines it would print to the console.
- Loading keyframe files by name, and the "keyframes/" directory, are not modelled. The motion receives its sequences already loaded.
- The main methods and cycle loops of the agents are not modelled. These are Agent_BasicStructure, Agent_TestPerceptorInput, Agent_TestLocalFieldView, Agent_SimpleSoccer, Agent_SimpleWalkToBall, Agent_KeyframeDeveloper, Agent_Dummy, and robo1's main/init/run/sense/act/printlog. They are call order only.
- The file handling in `OtherSideGenerator.main` is not modelled. TestSequencesCreator only builds literal fixtures and is not modelled.
- The record classes (BallModel, GoalPostModel, FlagModel, PlayerModel, LineModel and the perceptor records) are values inside the models above. Their getters and toString are not separate members.
- Two `NullPointerException` paths of the source are modelled as preconditions rather than as crashes:
  - readers of the posture require an accelerometer reading (`getAcc()` is null before the first ACC);
  - the `PerceptorInput` getters `GetGoalPost`, `GetFlag`, `GetHears`, `GetPlayerPositions` and `GetLines` require a first `update` (`requires cycleStarted`). In the source, the vision and hear fields are null until then, and these getters throw (PerceptorInput.java:95, 112 and 161).
- GameStateConsts.ToLower: folds only the ASCII letters 'A'..'Z', as in the root locale. Java's `toLowerCase()` uses the default locale and Unicode case mapping. Under a Turkish locale, "I" becomes a dotless 'ı'. The KELVIN SIGN U+212A becomes 'k' in any locale. Neither is modelled.
- GameStateConsts.GetPlayMode: where the two foldings differ, so do the results. In Java, "\u212AickOff_Left" gives KickOff_Left; the model gives null. Under a Turkish default locale, Java gives null for "KickIn_Left"; the model gives KickIn_Left.
- GameStateConsts.GetPlayModeExactly: "exactly" is with respect to the ASCII folding of `ToLower`, not Java's Unicode, locale-dependent folding.
- KeyframeFiles.ParseInt: accepts only ASCII digits '0'..'9'. `Integer.parseInt` also accepts other Unicode decimal digits, such as the Arabic-Indic "٣".
- KeyframeFiles.GetFrame: inherits the ASCII-only digits of `ParseInt` for the transition time.
- Logging.Logger.Log: counts a string in characters (Unicode scalar values). Java's `length()` and `charAt` count UTF-16 code units (Logger.java:86-97). The two agree unless a message or the time prefix holds a character outside the Basic Multilingual Plane. Then the indent width and the 100-character row breaks differ.
- Common.Spaces: shares that character count, since it builds the indent from the length of the time prefix.
- A refused connection is not modelled. The `ServerCommunication` constructor catches the failure and leaves `in` and `out` null (ServerCommunication.java:75-93). The first send or receive then throws `NullPointerException`. The model's connection always exists.
- Motion.KeyframeMotion.constructor: in the source, the keyframe sequences are `static` fields (KeyframeMotion.java:72-96). All instances share them and their cursors, and every constructor reloads them. The model gives each instance a library of its own. Each agent builds only one motion, so the two agree there; sharing between several motions is not modelled.
- Effectors.EffectorOutput.SetAllJointCommands: requires an array of at least 22 commands. A shorter array would throw in the source after the earlier joints were already stored (EffectorOutput.java:142-155). That partial update is not modelled. Every caller passes 22 entries.
- Network.ServerCommunication.GetServerMessage: only a connection that is down from the start (`down`) is modelled. In the source, an `IOException` partway through `getServerMessage` also gives null, after some bytes were consumed (ServerCommunication.java:207-229). That case is not modelled.
- HashMap iteration order is left open. Where it matters, the model picks any element. An example is the last unrecognised body part name winning the null key.
- In robo1, the Java `==` on the posture string compares interned literals. It is modelled as string equality.
- `SimpleSoccer.SoccerThinking.Decide`, `KeyframeDeveloper.KeyDevThinking.Decide` and `Soccer.Robo1.Decide` compute a decision first, then call one motion selector. The branch order of the source is kept.
- Java `assert` statements are off by default, so the model treats them as no-ops.
- `parseTime` does not check the tag of its time sub-node. It rejects a sub-node whose second child is "now" (PerceptorInput.java:624-627). So "(time (t now))" is a conversion error, while the server's usual "(time (now 12.3))" is read as the time 12.3. The model keeps this behaviour.
