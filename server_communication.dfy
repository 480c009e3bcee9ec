/**
 * The agent's side of the SimSpark network protocol: every message travels
 * as a 4-byte big-endian length prefix followed by the message bytes. The
 * socket is modelled as the byte sequence the server will ever send
 * (`incoming`, consumed by reads) and the byte sequence written so far
 * (`outgoing`).
 */
module Network {
  import opened Common

  /** A byte on the wire, as `in.read()` returns it when not at end of stream. */
  type byte = b: int | 0 <= b < 256

  // ---------------------------------------------------------------------
  // Java int bit operations, on the 32-bit two's complement pattern
  // ---------------------------------------------------------------------

  function Pow2(k: nat): (r: nat)
    ensures r >= 1
  {
    if k == 0 then 1 else 2 * Pow2(k - 1)
  }

  const Word: nat := 0x1_0000_0000

  /** The width of a Java int. */
  const IntBits: nat := 32

  lemma {:induction false} Pow2Add(a: nat, b: nat)
    ensures Pow2(a + b) == Pow2(a) * Pow2(b)
  {
    if a > 0 {
      Pow2Add(a - 1, b);
    }
  }

  /** The powers the header arithmetic uses. */
  lemma Pow2Values()
    ensures Pow2(8) == 0x100 && Pow2(16) == 0x1_0000 && Pow2(24) == 0x100_0000 && Pow2(IntBits) == Word
  {
    assert Pow2(8) == 0x100;
    Pow2Add(8, 8);
    Pow2Add(16, 8);
    Pow2Add(16, 16);
  }

  /** The 32-bit pattern of a Java int, read as an unsigned number. */
  function Pattern(x: int): (r: nat)
    ensures r < Word
  {
    x % Word
  }

  /** The Java int whose pattern is `u`. */
  function Signed(u: nat): (r: int)
    requires u < Word
    ensures -0x8000_0000 <= r < 0x8000_0000
    ensures Pattern(r) == u
  {
    if u < 0x8000_0000 then u else u - Word
  }

  /** `x << k` on a Java int, as a pattern. */
  function Shl(x: int, k: nat): nat
  {
    Pattern(x * Pow2(k))
  }

  /** Bitwise or of the low `n` bits of two patterns. */
  function Or(a: nat, b: nat, n: nat): (r: nat)
    ensures r < Pow2(n)
  {
    if n == 0 then 0
    else (if a % 2 == 1 || b % 2 == 1 then 1 else 0) + 2 * Or(a / 2, b / 2, n - 1)
  }

  /** Or-ing in zero bits keeps a pattern. */
  lemma {:induction false} OrZero(a: nat, n: nat)
    requires a < Pow2(n)
    ensures Or(a, 0, n) == a
  {
    if n > 0 {
      OrZero(a / 2, n - 1);
    }
  }

  /**
   * When the low `k` bits of `q * 2^k` are clear and `b` fits in them, the
   * or of the two is their sum.
   */
  lemma {:induction false} OrDisjoint(q: nat, b: nat, n: nat, k: nat)
    requires k <= n && q * Pow2(k) < Pow2(n) && b < Pow2(k)
    ensures Or(q * Pow2(k), b, n) == q * Pow2(k) + b
  {
    if k == 0 {
      OrZero(q, n);
    } else {
      var c: nat := q * Pow2(k - 1);
      var a: nat := 2 * c;
      assert q * Pow2(k) == a;
      assert a % 2 == 0 && a / 2 == c;
      assert c < Pow2(n - 1) && b / 2 < Pow2(k - 1);
      OrDisjoint(q, b / 2, n - 1, k - 1);
      assert Or(a, b, n) == b % 2 + 2 * Or(c, b / 2, n - 1);
    }
  }

  /** No bit of either operand is lost. */
  lemma {:induction false} OrAtLeast(a: nat, b: nat, n: nat)
    requires a < Pow2(n) && b < Pow2(n)
    ensures Or(a, b, n) >= a && Or(a, b, n) >= b
  {
    if n > 0 {
      OrAtLeast(a / 2, b / 2, n - 1);
    }
  }

  // ---------------------------------------------------------------------
  // The length prefix
  // ---------------------------------------------------------------------

  /**
   * The four header bytes of a message of `len` bytes, most significant
   * first: `(len >> 24) & 0xFF` and so on. Java's `>>` is a floor division
   * and `& 0xFF` keeps the low eight bits, which Dafny's `/` and `%` by a
   * positive constant compute for every int.
   */
  function Header(len: int): (h: seq<byte>)
    ensures |h| == 4
  {
    [(len / 0x100_0000) % 0x100, (len / 0x1_0000) % 0x100, (len / 0x100) % 0x100, len % 0x100]
  }

  /** What is written for one message body: header, then the body. */
  function Frame(body: seq<byte>): seq<byte>
  {
    Header(|body|) + body
  }

  /**
   * The receiver's `b0 << 24 | b1 << 16 | b2 << 8 | b3` on four results of
   * `in.read()`, each a byte or -1 at end of stream.
   */
  function DecodeLength(b0: int, b1: int, b2: int, b3: int): int
  {
    Pow2Values();
    Signed(Or(Or(Or(Shl(b0, 24), Shl(b1, 16), IntBits), Shl(b2, 8), IntBits), Pattern(b3), IntBits))
  }

  /** The number whose base-256 digits are `b0 b1 b2 b3`, most significant first. */
  function BigEndian(b0: int, b1: int, b2: int, b3: int): int
  {
    ((b0 * 0x100 + b1) * 0x100 + b2) * 0x100 + b3
  }

  /** Four bytes, the first below 0x80, decode as a big-endian number. */
  lemma DecodeDigits(b0: byte, b1: byte, b2: byte, b3: byte)
    requires b0 < 0x80
    ensures DecodeLength(b0, b1, b2, b3) == BigEndian(b0, b1, b2, b3)
  {
    Pow2Values();
    var q1: int := b0 * 0x100 + b1;
    var q2: int := q1 * 0x100 + b2;
    var q3: int := q2 * 0x100 + b3;
    assert q1 < 0x8000 && q2 < 0x80_0000 && q3 < 0x8000_0000;
    var s0, s1, s2 := b0 * 0x100_0000, b1 * 0x1_0000, b2 * 0x100;
    assert Shl(b0, 24) == s0 by {
      assert s0 < Word;
    }
    assert Shl(b1, 16) == s1;
    assert Shl(b2, 8) == s2;
    var o1 := Or(Shl(b0, 24), Shl(b1, 16), IntBits);
    OrDisjoint(b0, s1, 32, 24);
    assert o1 == q1 * 0x1_0000 by {
      assert b0 * Pow2(24) == s0;
    }
    var o2 := Or(o1, Shl(b2, 8), IntBits);
    OrDisjoint(q1, s2, 32, 16);
    assert o2 == q2 * 0x100 by {
      assert q1 * Pow2(16) == o1;
    }
    assert Pattern(b3) == b3;
    OrDisjoint(q2, b3, 32, 8);
    assert Or(o2, b3, IntBits) == q3 by {
      assert q2 * Pow2(8) == o2;
    }
  }

  /** The header's bytes are the base-256 digits of the length. */
  lemma HeaderDigits(len: nat)
    requires len < 0x8000_0000
    ensures var h := Header(len);
      h[0] < 0x80 && len == BigEndian(h[0], h[1], h[2], h[3])
  {
    var q1 := len / 0x100;
    var q2 := q1 / 0x100;
    var q3 := q2 / 0x100;
    assert len / 0x1_0000 == q2;
    assert len / 0x100_0000 == q3;
  }

  /** The decoder inverts the encoder on every non-negative Java int. */
  lemma HeaderRoundTrip(len: nat)
    requires len < 0x8000_0000
    ensures var h := Header(len); DecodeLength(h[0], h[1], h[2], h[3]) == len
  {
    var h := Header(len);
    HeaderDigits(len);
    DecodeDigits(h[0], h[1], h[2], h[3]);
  }

  /** A header cut short by the end of the stream decodes as a negative length. */
  lemma EndOfStreamIsNegative(b0: int, b1: int, b2: int, b3: int)
    requires -1 <= b0 < 256 && -1 <= b1 < 256 && -1 <= b2 < 256 && -1 <= b3 < 256
    requires b0 == -1 || b1 == -1 || b2 == -1 || b3 == -1
    ensures DecodeLength(b0, b1, b2, b3) < 0
  {
    Pow2Values();
    var s0, s1, s2, s3 := Shl(b0, 24), Shl(b1, 16), Shl(b2, 8), Pattern(b3);
    var o1 := Or(s0, s1, IntBits);
    var o2 := Or(o1, s2, IntBits);
    OrAtLeast(s0, s1, IntBits);
    OrAtLeast(o1, s2, IntBits);
    OrAtLeast(o2, s3, IntBits);
    MinusOneShifted();
  }

  /** The patterns of -1 shifted by 24, 16, 8 and 0 bits all have the sign bit set. */
  lemma MinusOneShifted()
    ensures Shl(-1, 24) == 0xFF00_0000 && Shl(-1, 16) == 0xFFFF_0000
    ensures Shl(-1, 8) == 0xFFFF_FF00 && Pattern(-1) == 0xFFFF_FFFF
  {
    Pow2Values();
  }

  // ---------------------------------------------------------------------
  // Text and bytes
  // ---------------------------------------------------------------------

  /** `String.getBytes`: one byte per character, the low eight bits. */
  function Bytes(s: string): (r: seq<byte>)
    ensures |r| == |s|
  {
    seq(|s|, i requires 0 <= i < |s| => (s[i] as int) % 0x100)
  }

  /** `new String(bytes, ...)`: one character per byte. */
  function Text(b: seq<byte>): (r: string)
    ensures |r| == |b|
  {
    seq(|b|, i requires 0 <= i < |b| => b[i] as char)
  }

  /** Text of eight-bit characters survives the trip through bytes. */
  lemma TextOfBytes(s: string)
    requires forall i :: 0 <= i < |s| ==> s[i] as int < 0x100
    ensures Text(Bytes(s)) == s
  {
  }

  // ---------------------------------------------------------------------
  // Receiving
  // ---------------------------------------------------------------------

  /**
   * What getServerMessage gives back: the message, null after an
   * IOException, or an exception that leaves the method.
   */
  datatype Reception = Message(text: string) | Null | Escapes

  /** `in.read()` on the stream `s`: its first byte, or -1 at end of stream. */
  function ReadResult(s: seq<byte>, i: nat): (r: int)
    ensures -1 <= r < 256
  {
    if i < |s| then s[i] else -1
  }

  /**
   * The reception of one message from the stream `s`, and what is left of
   * the stream. A negative length fails the allocation of the buffer; a
   * stream that ends inside the body makes each further read return -1,
   * stepping the offset back until the stream rejects a negative offset.
   */
  function ReceiveSpec(s: seq<byte>): (Reception, seq<byte>)
  {
    var length := DecodeLength(ReadResult(s, 0), ReadResult(s, 1), ReadResult(s, 2), ReadResult(s, 3));
    var body := if |s| < 4 then [] else s[4..];
    if length < 0 then (Escapes, body) else BodySpec(body, length)
  }

  /** The read loop's result for a body of `length` bytes taken from `s`. */
  function BodySpec(s: seq<byte>, length: nat): (Reception, seq<byte>)
  {
    if |s| < length then (Escapes, []) else (Message(Text(s[..length])), s[length..])
  }

  /** A stream that starts with four bytes is received by decoding them and reading on. */
  lemma ReceiveAfterHeader(h: seq<byte>, t: seq<byte>)
    requires |h| == 4
    ensures var length := DecodeLength(h[0], h[1], h[2], h[3]);
            ReceiveSpec(h + t) == if length < 0 then (Escapes, t) else BodySpec(t, length)
  {
    var s := h + t;
    assert s[4..] == t;
    assert ReadResult(s, 0) == h[0] && ReadResult(s, 1) == h[1];
    assert ReadResult(s, 2) == h[2] && ReadResult(s, 3) == h[3];
  }

  /** Reading exactly the body's length gives back the body and leaves the rest. */
  lemma BodyReadBack(body: seq<byte>, rest: seq<byte>)
    ensures BodySpec(body + rest, |body|) == (Message(Text(body)), rest)
  {
    assert (body + rest)[..|body|] == body;
    assert (body + rest)[|body|..] == rest;
  }

  /** A framed body is received intact, and the stream goes on after it. */
  lemma FrameReadBack(body: seq<byte>, rest: seq<byte>)
    requires |body| < 0x8000_0000
    ensures ReceiveSpec(Frame(body) + rest) == (Message(Text(body)), rest)
  {
    var h := Header(|body|);
    assert Frame(body) + rest == h + (body + rest);
    ReceiveAfterHeader(h, body + rest);
    HeaderRoundTrip(|body|);
    BodyReadBack(body, rest);
  }

  /** A stream shorter than a header never yields a message. */
  lemma ShortStreamEscapes(s: seq<byte>)
    requires |s| < 4
    ensures ReceiveSpec(s).0 == Escapes
  {
    EndOfStreamIsNegative(ReadResult(s, 0), ReadResult(s, 1), ReadResult(s, 2), ReadResult(s, 3));
  }

  // ---------------------------------------------------------------------
  // The connection
  // ---------------------------------------------------------------------

  /** One call on the connection, in call order. */
  datatype Event = Sent(message: string) | Received

  class ServerCommunication {
    /** What the server sends from now on; reads consume it from the front. */
    var incoming: seq<byte>
    /** Everything written to the socket. */
    var outgoing: seq<byte>
    /** The server is down: every read and write throws an IOException. */
    const down: bool
    /** The sends and receives made so far. */
    ghost var trace: seq<Event>

    /** A connection over which the server will send `incoming`. */
    constructor (incoming: seq<byte>, down: bool)
      ensures this.incoming == incoming && this.down == down
      ensures outgoing == [] && trace == []
    {
      this.incoming := incoming;
      this.down := down;
      outgoing := [];
      trace := [];
    }

    /**
     * sendAgentMessage: write the 4-byte length and then the body; an
     * IOException is only printed.
     */
    method SendAgentMessage(msg: string)
      modifies this
      ensures trace == old(trace) + [Sent(msg)]
      ensures outgoing == if down then old(outgoing) else old(outgoing) + Frame(Bytes(msg))
      ensures incoming == old(incoming)
    {
      trace := trace + [Sent(msg)];
      var body := Bytes(msg);
      var len := |body|;
      var header := [(len / 0x100_0000) % 0x100, (len / 0x1_0000) % 0x100, (len / 0x100) % 0x100, len % 0x100];
      if !down {
        outgoing := outgoing + header + body;
      }
    }

    /** `in.read()`: the next byte, or -1 at end of stream. */
    method ReadByte() returns (r: int)
      modifies this`incoming
      ensures r == ReadResult(old(incoming), 0)
      ensures incoming == if old(incoming) == [] then [] else old(incoming)[1..]
    {
      if incoming == [] {
        return -1;
      }
      r := incoming[0];
      incoming := incoming[1..];
    }

    /**
     * getServerMessage: read the header, then read into a buffer of that
     * length until it is full; every read delivers between one byte and
     * what is still missing.
     */
    method GetServerMessage() returns (r: Reception)
      modifies this
      ensures trace == old(trace) + [Received] && outgoing == old(outgoing)
      ensures down ==> r == Null && incoming == old(incoming)
      ensures !down ==> (r, incoming) == ReceiveSpec(old(incoming))
    {
      trace := trace + [Received];
      if down {
        return Null;
      }
      ghost var s := incoming;
      var b0 := ReadByte();
      var b1 := ReadByte();
      var b2 := ReadByte();
      var b3 := ReadByte();
      assert incoming == if |s| < 4 then [] else s[4..];
      var length := DecodeLength(b0, b1, b2, b3);
      if length < 0 {
        return Escapes;
      }
      r := ReadBody(length);
    }

    /**
     * The read loop of getServerMessage: `in.read(result, total, length -
     * total)` delivers between one byte and what is still missing, or -1
     * at end of stream, which steps `total` back.
     */
    method ReadBody(length: nat) returns (r: Reception)
      modifies this`incoming
      ensures (r, incoming) == BodySpec(old(incoming), length)
    {
      var result := new byte[length];
      ghost var payload := incoming;
      ghost var got := 0;
      var total := 0;
      while total < length
        invariant -1 <= total <= got <= length && got <= |payload|
        invariant result[..got] == payload[..got] && incoming == payload[got..]
        invariant total < got ==> incoming == [] && |payload| == got < length
        decreases |incoming|, total + 1
      {
        if total < 0 {
          return Escapes;
        }
        if incoming == [] {
          total := total - 1;
        } else {
          assert total == got;
          var n :| 1 <= n <= length - total && n <= |incoming|;
          ghost var filled := result[..];
          forall j | 0 <= j < n {
            result[total + j] := incoming[j];
          }
          forall k | 0 <= k < got + n
            ensures result[k] == payload[k]
          {
            if k < got {
              assert result[k] == filled[k];
            } else {
              assert payload[k] == incoming[k - got];
            }
          }
          assert result[..got + n] == payload[..got + n];
          incoming := incoming[n..];
          got := got + n;
          total := total + n;
        }
      }
      assert result[..] == payload[..length];
      r := Message(Text(result[..]));
    }

    /**
     * initRobot: scene, init and beam messages with a receive between
     * each two, then 100 rounds of receive and "(syn)". It stops early only
     * when a receive throws.
     */
    method InitRobot(robotID: string, team: string, x: real, y: real, rot: real, show: real -> string)
      returns (completed: bool)
      modifies this
      ensures completed ==> trace == old(trace) + InitTrace(robotID, team, x, y, rot, show)
      ensures old(trace) <= trace <= old(trace) + InitTrace(robotID, team, x, y, rot, show)
    {
      ghost var start := trace;
      ghost var head := InitHead(robotID, team, x, y, rot, show);
      ghost var rounds := SynRounds(100);
      assert InitTrace(robotID, team, x, y, rot, show) == head + rounds;
      completed := Handshake(robotID, team, x, y, rot, show);
      if !completed {
        PrefixOf(start, head, |trace| - |start|, rounds);
        return;
      }
      completed := SynRoundsLoop();
      AfterRounds(start, head, rounds, trace);
    }

    /** The first part of initRobot: scene, init and beam, with a receive between each two. */
    method Handshake(robotID: string, team: string, x: real, y: real, rot: real, show: real -> string)
      returns (completed: bool)
      modifies this
      ensures completed ==> trace == old(trace) + InitHead(robotID, team, x, y, rot, show)
      ensures !completed ==> |old(trace)| <= |trace| <= |old(trace)| + 5 &&
                             trace == old(trace) + InitHead(robotID, team, x, y, rot, show)[..|trace| - |old(trace)|]
    {
      ghost var head := InitHead(robotID, team, x, y, rot, show);
      SendAgentMessage(SceneMessage);
      var r := GetServerMessage();
      assert trace == old(trace) + [head[0], head[1]];
      if r == Escapes {
        assert [head[0], head[1]] == head[..2];
        return false;
      }
      SendAgentMessage(InitMessage(robotID, team));
      r := GetServerMessage();
      assert trace == old(trace) + [head[0], head[1], head[2], head[3]];
      if r == Escapes {
        assert [head[0], head[1], head[2], head[3]] == head[..4];
        return false;
      }
      SendAgentMessage(BeamMessage(x, y, rot, show));
      assert [head[0], head[1], head[2], head[3], head[4]] == head;
      return true;
    }

    /**
     * One round of initRobot's loop: receive a message, then send "(syn)";
     * an exception from the receive ends it early.
     */
    method SynRound() returns (received: bool)
      modifies this
      ensures trace == old(trace) + if received then [Received, Sent("(syn)")] else [Received]
    {
      var r := GetServerMessage();
      if r == Escapes {
        return false;
      }
      SendAgentMessage("(syn)");
      return true;
    }

    /** The loop of initRobot: 100 times, receive a message and send "(syn)". */
    method SynRoundsLoop() returns (completed: bool)
      modifies this
      ensures completed ==> trace == old(trace) + SynRounds(100)
      ensures old(trace) <= trace && |trace| <= |old(trace)| + 200
      ensures trace == old(trace) + SynRounds(100)[..|trace| - |old(trace)|]
    {
      for i := 0 to 100
        invariant trace == old(trace) + SynRounds(100)[..2 * i]
      {
        var received := SynRound();
        if !received {
          assert SynRounds(100)[..2 * i] + [Received] == SynRounds(100)[..2 * i + 1];
          return false;
        }
        assert SynRounds(100)[..2 * i] + [Received, Sent("(syn)")] == SynRounds(100)[..2 * i + 2];
      }
      assert SynRounds(100)[..200] == SynRounds(100);
      return true;
    }
  }

  const SceneMessage := "(scene rsg/agent/nao/nao.rsg)(syn)"

  function InitMessage(robotID: string, team: string): string
  {
    "(init (unum " + robotID + ")(teamname " + team + "))(syn)"
  }

  /** The beam message; `show` is Java's decimal rendering of a double. */
  function BeamMessage(x: real, y: real, rot: real, show: real -> string): string
  {
    "(beam " + show(x) + " " + show(y) + " " + show(rot) + ")(syn)"
  }

  /** `n` rounds of receiving a message and answering "(syn)". */
  function SynRounds(n: nat): (t: seq<Event>)
    ensures |t| == 2 * n
  {
    seq(2 * n, i => if i % 2 == 0 then Received else Sent("(syn)"))
  }

  /** One more round appends one receive and one "(syn)". */
  lemma SynRoundsStep(n: nat)
    ensures SynRounds(n + 1) == SynRounds(n) + [Received, Sent("(syn)")]
  {
  }

  /** Fewer rounds are a prefix of more. */
  lemma SynRoundsPrefix(i: nat, n: nat)
    requires i <= n
    ensures SynRounds(n)[..2 * i] == SynRounds(i)
  {
  }

  /** A trace that made the first `k` calls of `t` lies between its start and all of `t + u`. */
  lemma PrefixOf(start: seq<Event>, t: seq<Event>, k: nat, u: seq<Event>)
    requires k <= |t|
    ensures start <= start + t[..k] <= start + (t + u)
  {
    assert (start + (t + u))[..|start| + k] == start + t[..k];
  }

  /** After the rounds the trace is the start, the head, and part of the rounds. */
  lemma AfterRounds(start: seq<Event>, head: seq<Event>, rounds: seq<Event>, trace: seq<Event>)
    requires start + head <= trace && |trace| <= |start + head| + |rounds|
    requires trace == start + head + rounds[..|trace| - |start + head|]
    ensures start <= trace <= start + (head + rounds)
    ensures trace == start + head + rounds ==> trace == start + (head + rounds)
  {
    assert (start + (head + rounds))[..|trace|] == trace;
    assert trace[..|start|] == start;
  }

  /** The calls initRobot makes before the rounds. */
  function InitHead(robotID: string, team: string, x: real, y: real, rot: real, show: real -> string): seq<Event>
  {
    [Sent(SceneMessage), Received, Sent(InitMessage(robotID, team)), Received,
     Sent(BeamMessage(x, y, rot, show))]
  }

  /** The calls initRobot makes, in order. */
  function InitTrace(robotID: string, team: string, x: real, y: real, rot: real, show: real -> string): seq<Event>
  {
    InitHead(robotID, team, x, y, rot, show) + SynRounds(100)
  }

  /** The number of sends in a trace. */
  function Sends(t: seq<Event>): nat
  {
    if t == [] then 0 else Sends(t[..|t| - 1]) + if t[|t| - 1].Sent? then 1 else 0
  }

  lemma SendsSnoc(t: seq<Event>, e: Event)
    ensures Sends(t + [e]) == Sends(t) + if e.Sent? then 1 else 0
  {
    assert (t + [e])[..|t|] == t;
  }

  lemma {:induction false} SendsAppend(t: seq<Event>, u: seq<Event>)
    ensures Sends(t + u) == Sends(t) + Sends(u)
    decreases |u|
  {
    if u == [] {
      assert t + u == t;
    } else {
      assert (t + u)[..|t + u| - 1] == t + u[..|u| - 1];
      SendsAppend(t, u[..|u| - 1]);
    }
  }

  lemma {:induction false} SynRoundsSends(n: nat)
    ensures Sends(SynRounds(n)) == n
  {
    if n > 0 {
      SynRoundsSends(n - 1);
      SynRoundsStep(n - 1);
      SendsAppend(SynRounds(n - 1), [Received, Sent("(syn)")]);
      assert Sends([Received, Sent("(syn)")]) == 1 by {
        assert [Received, Sent("(syn)")][..1] == [Received];
        assert [Received][..0] == [];
      }
    }
  }

  /**
   * initRobot makes 205 calls: 103 sends and 102 receives, strictly
   * alternating and starting and ending with a send, and every message it
   * sends ends in "(syn)".
   */
  lemma InitTraceShape(robotID: string, team: string, x: real, y: real, rot: real, show: real -> string)
    ensures var t := InitTrace(robotID, team, x, y, rot, show);
            && |t| == 205 && Sends(t) == 103 && |t| - Sends(t) == 102
            && (forall i :: 0 <= i < |t| ==> (t[i].Sent? <==> i % 2 == 0))
            && (forall i :: 0 <= i < |t| && t[i].Sent? ==> EndsInSyn(t[i].message))
  {
    var t := InitTrace(robotID, team, x, y, rot, show);
    var head := InitHead(robotID, team, x, y, rot, show);
    var rounds := SynRounds(100);
    SynRoundsSends(100);
    SendsAppend(head, rounds);
    HeadSends(head);
    SynEndings(robotID, team, x, y, rot, show);
    forall i | 0 <= i < |t|
      ensures t[i].Sent? <==> i % 2 == 0
      ensures t[i].Sent? ==> EndsInSyn(t[i].message)
    {
      if i >= 5 {
        assert t[i] == rounds[i - 5];
      } else {
        assert t[i] == head[i];
      }
    }
  }

  /** Five calls alternating send and receive hold three sends. */
  lemma HeadSends(head: seq<Event>)
    requires |head| == 5 && head[0].Sent? && head[2].Sent? && head[4].Sent?
    requires head[1] == Received && head[3] == Received
    ensures Sends(head) == 3
  {
    var e0: seq<Event> := [];
    assert Sends(e0) == 0;
    SendsSnoc(e0, head[0]);
    SendsSnoc(head[..1], head[1]);
    SendsSnoc(head[..2], head[2]);
    SendsSnoc(head[..3], head[3]);
    SendsSnoc(head[..4], head[4]);
    assert e0 + [head[0]] == head[..1] && head[..1] + [head[1]] == head[..2];
    assert head[..2] + [head[2]] == head[..3] && head[..3] + [head[3]] == head[..4];
    assert head[..4] + [head[4]] == head;
  }

  /** A text that ends in a message ending in "(syn)" ends in "(syn)" too. */
  lemma SynSuffix(p: string, q: string)
    requires EndsInSyn(q)
    ensures EndsInSyn(p + q)
  {
    assert (p + q)[|p + q| - 5..] == q[|q| - 5..];
  }

  /** The scene, init and beam messages all end in "(syn)". */
  lemma SynEndings(robotID: string, team: string, x: real, y: real, rot: real, show: real -> string)
    ensures EndsInSyn(SceneMessage) && EndsInSyn("(syn)")
    ensures EndsInSyn(InitMessage(robotID, team)) && EndsInSyn(BeamMessage(x, y, rot, show))
  {
    SynSuffix("(init (unum " + robotID + ")(teamname " + team, "))(syn)");
    SynSuffix("(beam " + show(x) + " " + show(y) + " " + show(rot), ")(syn)");
  }

  /** The message ends in the "(syn)" command. */
  predicate EndsInSyn(m: string)
  {
    |m| >= 5 && m[|m| - 5..] == "(syn)"
  }
}
