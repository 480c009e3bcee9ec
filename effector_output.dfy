/**
 * EffectorOutput: the per-cycle table of joint commands and the say text,
 * flushed once per cycle into one agent message
 * "(effID value)...(say m)(syn)" over the server connection.
 */
module Effectors {
  import opened Common
  import opened RobotConsts
  import opened Network

  /** The command part of joint `i`: "(effID value)" when it has one, else nothing. */
  function JointEntry(cmds: map<int, real>, i: nat, show: real -> string): string
    requires i < JointsCount
  {
    if i in cmds then "(" + GetEffectorID(i) + " " + show(cmds[i]) + ")" else ""
  }

  /** The command parts of joints 0..n-1, in ascending index order. */
  function JointsText(cmds: map<int, real>, n: nat, show: real -> string): string
    requires n <= JointsCount
  {
    if n == 0 then "" else JointsText(cmds, n - 1, show) + JointEntry(cmds, n - 1, show)
  }

  /** The say part: "(say m)" when a say text is pending, else nothing. */
  function SayText(say: Option<string>): string
  {
    if say.Some? then "(say " + say.value + ")" else ""
  }

  /** The whole agent message for a command table and a say text. */
  function AgentMessage(cmds: map<int, real>, say: Option<string>, show: real -> string): string
  {
    JointsText(cmds, JointsCount, show) + SayText(say) + "(syn)"
  }

  class EffectorOutput {
    /** The connection the messages go out on. */
    const sc: ServerCommunication
    /** Double.toString, used for the command values. */
    const show: real -> string
    /** The commands set this cycle, by joint index. */
    var jointCommands: map<int, real>
    /** The say text set this cycle; null when none. */
    var sayMessage: Option<string>

    /** No command and no say text pending. */
    constructor (connectedServer: ServerCommunication, show: real -> string)
      ensures sc == connectedServer && this.show == show
      ensures jointCommands == map[] && sayMessage == None
    {
      sc := connectedServer;
      this.show := show;
      jointCommands := map[];
      sayMessage := None;
    }

    /**
     * sendAgentMessage: the commands of joints 0..21 in index order, the
     * say text if any, then "(syn)", sent as one message; afterwards the
     * table is empty and the say text null.
     */
    method SendAgentMessage()
      modifies this, sc
      ensures jointCommands == map[] && sayMessage == None
      ensures sc.trace == old(sc.trace) + [Sent(AgentMessage(old(jointCommands), old(sayMessage), show))]
      ensures sc.outgoing == if sc.down then old(sc.outgoing)
                             else old(sc.outgoing) + Frame(Bytes(AgentMessage(old(jointCommands), old(sayMessage), show)))
      ensures sc.incoming == old(sc.incoming)
    {
      var message := BuildMessage();
      sc.SendAgentMessage(message);
      jointCommands := map[];
      sayMessage := None;
    }

    /** The message sendAgentMessage builds from the pending commands and say text. */
    method BuildMessage() returns (message: string)
      ensures message == AgentMessage(jointCommands, sayMessage, show)
    {
      var builder := "";
      for i := 0 to JointsCount
        invariant builder == JointsText(jointCommands, i, show)
      {
        if i in jointCommands {
          var entry := "(" + GetEffectorID(i) + " " + show(jointCommands[i]) + ")";
          builder := builder + entry;
        }
      }
      if sayMessage.Some? {
        var say := "(say " + sayMessage.value + ")";
        builder := builder + say;
      }
      message := builder + "(syn)";
    }

    /** setJointCommand: the command for joint `jointNo`, replacing any earlier one. */
    method SetJointCommand(jointNo: int, command: real)
      modifies this`jointCommands
      ensures jointCommands == old(jointCommands)[jointNo := command]
    {
      jointCommands := jointCommands[jointNo := command];
    }

    /** setSayMessage: the say text, replacing any earlier one. */
    method SetSayMessage(message: Option<string>)
      modifies this`sayMessage
      ensures sayMessage == message
    {
      sayMessage := message;
    }

    /**
     * setAllJointCommands: commands[i] for every joint i in 0..21; entries
     * of the array from 22 on are ignored, and commands under other keys stay.
     */
    method SetAllJointCommands(commands: array<real>)
      requires commands.Length >= JointsCount
      modifies this`jointCommands
      ensures jointCommands == old(jointCommands) + AllJoints(commands[..])
    {
      for i := 0 to JointsCount
        invariant jointCommands == old(jointCommands) + JointsFrom(commands[..], i)
      {
        jointCommands := jointCommands[i := commands[i]];
        assert JointsFrom(commands[..], i + 1) == JointsFrom(commands[..], i)[i := commands[i]];
      }
    }
  }

  /** The commands for joints 0..n-1 taken from `a`. */
  function JointsFrom(a: seq<real>, n: nat): (m: map<int, real>)
    requires n <= |a|
    ensures forall i :: i in m <==> 0 <= i < n
    ensures forall i :: 0 <= i < n ==> m[i] == a[i]
  {
    map i | 0 <= i < n :: a[i]
  }

  /** The commands for all joints taken from `a`. */
  function AllJoints(a: seq<real>): map<int, real>
    requires |a| >= JointsCount
  {
    JointsFrom(a, JointsCount)
  }

  // ---------------------------------------------------------------------
  // Properties of the message
  // ---------------------------------------------------------------------

  /** Every agent message ends in "(syn)". */
  lemma MessageEndsInSyn(cmds: map<int, real>, say: Option<string>, show: real -> string)
    ensures EndsInSyn(AgentMessage(cmds, say, show))
  {
    SynSuffix(JointsText(cmds, JointsCount, show) + SayText(say), "(syn)");
  }

  /** Joints without a command among 0..n-1 contribute nothing. */
  lemma {:induction false} NoCommandsNoText(cmds: map<int, real>, n: nat, show: real -> string)
    requires n <= JointsCount
    requires forall i :: 0 <= i < n ==> i !in cmds
    ensures JointsText(cmds, n, show) == ""
  {
    if n > 0 {
      NoCommandsNoText(cmds, n - 1, show);
    }
  }

  /** With nothing set, the message is exactly "(syn)": a second send in a cycle sends only that. */
  lemma EmptyMessageIsSyn(show: real -> string)
    ensures AgentMessage(map[], None, show) == "(syn)"
  {
    NoCommandsNoText(map[], JointsCount, show);
  }

  /**
   * The joint part depends only on the commands for joints 0..n-1: two
   * tables that agree there give the same text, whatever else they hold.
   */
  lemma {:induction false} JointsTextAgrees(c1: map<int, real>, c2: map<int, real>, n: nat, show: real -> string)
    requires n <= JointsCount
    requires forall i :: 0 <= i < n ==> (i in c1 <==> i in c2)
    requires forall i :: 0 <= i < n && i in c1 ==> c1[i] == c2[i]
    ensures JointsText(c1, n, show) == JointsText(c2, n, show)
  {
    if n > 0 {
      JointsTextAgrees(c1, c2, n - 1, show);
    }
  }

  /** Commands stored under indices outside 0..21 are never sent. */
  lemma OutOfRangeIgnored(cmds: map<int, real>, k: int, v: real, say: Option<string>, show: real -> string)
    requires k < 0 || k >= JointsCount
    ensures AgentMessage(cmds[k := v], say, show) == AgentMessage(cmds, say, show)
  {
    JointsTextAgrees(cmds[k := v], cmds, JointsCount, show);
  }

  /**
   * Setting joint k's command puts its entry right after the entries of
   * the joints before it, which stay as they were.
   */
  lemma SetCommandShows(cmds: map<int, real>, k: nat, v: real, show: real -> string)
    requires k < JointsCount
    ensures JointsText(cmds[k := v], k + 1, show) ==
            JointsText(cmds, k, show) + "(" + GetEffectorID(k) + " " + show(v) + ")"
  {
    JointsTextAgrees(cmds[k := v], cmds, k, show);
  }

  /** A pending say text appears right before the closing "(syn)". */
  lemma SayBeforeSyn(cmds: map<int, real>, m: string, show: real -> string)
    ensures var msg := AgentMessage(cmds, Some(m), show);
            var tail := "(say " + m + ")(syn)";
            |msg| >= |tail| && msg[|msg| - |tail|..] == tail
  {
    var j := JointsText(cmds, JointsCount, show);
    assert AgentMessage(cmds, Some(m), show) == j + ("(say " + m + ")(syn)");
  }
}
