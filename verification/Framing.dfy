/** The binary protocol: the header of a packet, its arguments one behind the other, and how a stream
    of such bytes is read. */
module Framing {
  import opened Seqs
  import Sender

  type byte = Sender.byte

  const HEADER_SIZE := 12
  const COMMAND_MAX := 43
  const UINT32_MAX := 0xFFFF_FFFF

  datatype Magic = Text | Request | Response

  datatype Info = Info(argc: nat, data: bool)

  /** The command table: how many arguments, and whether a payload follows them. */
  const COMMANDS: seq<Info> := [
    Info(5, false), Info(1, false), Info(1, false), Info(0, false), Info(0, false), Info(0, false), Info(0, false),
    Info(2, true), Info(1, false), Info(0, false), Info(0, false), Info(2, true), Info(3, false), Info(1, true),
    Info(1, false), Info(1, false), Info(0, true), Info(0, true), Info(2, true), Info(2, false), Info(5, false),
    Info(2, true), Info(1, false), Info(2, false), Info(0, false), Info(1, true), Info(1, false), Info(1, false),
    Info(1, true), Info(1, true), Info(0, false), Info(3, true), Info(2, true), Info(2, true), Info(2, true),
    Info(7, true), Info(3, true), Info(4, true), Info(4, true), Info(0, false), Info(4, true), Info(1, false),
    Info(6, false)]

  /** What the table says of a command; a number outside it has no arguments. */
  function InfoOf(command: nat): Info {
    if command < COMMAND_MAX then COMMANDS[command] else Info(0, false)
  }

  lemma HasArgs(command: nat)
    requires InfoOf(command).argc > 0
    ensures command < COMMAND_MAX
  {
  }

  datatype Ret = Success | TooManyArgs | InvalidMagic | InvalidCommand | ArgumentTooLarge | IoWait

  // Layout

  function Start(magic: Magic): nat { if magic.Text? then 0 else HEADER_SIZE }

  function Concat(args: seq<seq<byte>>): seq<byte> {
    if args == [] then [] else args[0] + Concat(args[1..])
  }

  /** How many bytes the first `x` arguments take. */
  function Offset(args: seq<seq<byte>>, x: nat): nat
    requires x <= |args|
  {
    if x == 0 then 0 else Offset(args, x - 1) + |args[x - 1]|
  }

  lemma OffsetNone(args: seq<seq<byte>>)
    ensures Offset(args, 0) == 0
  {
  }

  lemma OffsetNext(args: seq<seq<byte>>, x: nat)
    requires x < |args|
    ensures Offset(args, x + 1) == Offset(args, x) + |args[x]|
  {
  }

  lemma {:induction false} OffsetSnoc(args: seq<seq<byte>>, a: seq<byte>, x: nat)
    requires x <= |args|
    ensures Offset(args + [a], x) == Offset(args, x)
  {
    if x > 0 { OffsetSnoc(args, a, x - 1); }
  }

  lemma OffsetEnd(args: seq<seq<byte>>, a: seq<byte>)
    ensures Offset(args + [a], |args| + 1) == Offset(args, |args|) + |a|
  {
    OffsetSnoc(args, a, |args|);
  }

  /** The bytes `b` are in `m` from `at` on. */
  predicate Placed(m: seq<byte>, at: nat, b: seq<byte>) { at + |b| <= |m| && m[at..at + |b|] == b }

  lemma {:induction false} ConcatSize(args: seq<seq<byte>>)
    ensures |Concat(args)| == Offset(args, |args|)
  {
    if args != [] {
      ConcatSize(args[1..]);
      OffsetShift(args, |args|);
    }
  }

  lemma {:induction false} OffsetShift(args: seq<seq<byte>>, x: nat)
    requires 0 < x <= |args|
    ensures Offset(args, x) == |args[0]| + Offset(args[1..], x - 1)
  {
    if x > 1 { OffsetShift(args, x - 1); }
  }

  /** Every argument is where the ones before it end. */
  predicate AllPlaced(m: seq<byte>, at: nat, args: seq<seq<byte>>) {
    forall x :: 0 <= x < |args| ==> Placed(m, at + Offset(args, x), args[x])
  }

  lemma AllPlacedTail(m: seq<byte>, at: nat, args: seq<seq<byte>>)
    requires AllPlaced(m, at, args) && args != []
    ensures Placed(m, at, args[0]) && AllPlaced(m, at + |args[0]|, args[1..])
  {
    hide Placed;
    assert Placed(m, at + Offset(args, 0), args[0]);
    var rest := args[1..];
    forall x | 0 <= x < |rest| ensures Placed(m, at + |args[0]| + Offset(rest, x), rest[x]) {
      OffsetShift(args, x + 1);
      assert Placed(m, at + Offset(args, x + 1), args[x + 1]);
    }
  }

  /** Arguments each in its place are their concatenation. */
  lemma {:induction false} Contiguous(m: seq<byte>, at: nat, args: seq<seq<byte>>)
    requires at + Offset(args, |args|) <= |m| && AllPlaced(m, at, args)
    ensures m[at..at + Offset(args, |args|)] == Concat(args)
    decreases |args|
  {
    hide AllPlaced, Offset, Concat;
    if args == [] {
      OffsetNone(args);
      ConcatNone(args);
    } else {
      OffsetShift(args, |args|);
      AllPlacedTail(m, at, args);
      Contiguous(m, at + |args[0]|, args[1..]);
      Joined(m, at, at + |args[0]|, at + Offset(args, |args|));
      ConcatHead(args);
    }
  }

  lemma ConcatHead(args: seq<seq<byte>>)
    requires args != []
    ensures Concat(args) == args[0] + Concat(args[1..])
  {
  }

  lemma PlacedPrefix(m: seq<byte>, at: nat, b: seq<byte>, a: seq<byte>)
    requires Placed(m, at, b)
    ensures Placed(m + a, at, b)
  {
    assert (m + a)[at..at + |b|] == m[at..at + |b|];
  }

  lemma PlacedEnd(m: seq<byte>, a: seq<byte>)
    ensures Placed(m + a, |m|, a)
  {
    assert (m + a)[|m|..|m| + |a|] == a;
  }

  lemma PlacedSnoc(m: seq<byte>, at: nat, args: seq<seq<byte>>, a: seq<byte>, x: nat)
    requires AllPlaced(m, at, args) && |m| == at + Offset(args, |args|) && x <= |args|
    ensures Placed(m + a, at + Offset(args + [a], x), (args + [a])[x])
  {
    hide Placed, Offset;
    OffsetSnoc(args, a, x);
    if x < |args| {
      PlacedPrefix(m, at + Offset(args, x), args[x], a);
    } else {
      PlacedEnd(m, a);
    }
  }

  lemma AllPlacedSnoc(m: seq<byte>, at: nat, args: seq<seq<byte>>, a: seq<byte>)
    requires AllPlaced(m, at, args) && |m| == at + Offset(args, |args|)
    ensures AllPlaced(m + a, at, args + [a])
  {
    hide Placed, Offset;
    var all, m' := args + [a], m + a;
    forall x | 0 <= x < |all| ensures Placed(m', at + Offset(all, x), all[x]) {
      PlacedSnoc(m, at, args, a, x);
    }
  }

  lemma AllPlacedAfter(m: seq<byte>, m': seq<byte>, at: nat, args: seq<seq<byte>>)
    requires AllPlaced(m, at, args) && |m'| == |m| >= at && m'[at..] == m[at..]
    ensures AllPlaced(m', at, args)
  {
    forall x | 0 <= x < |args| ensures Placed(m', at + Offset(args, x), args[x]) {
      var o, n := Offset(args, x), |args[x]|;
      assert Placed(m, at + o, args[x]);
      assert m'[at..][o..o + n] == m'[at + o..at + o + n] && m[at..][o..o + n] == m[at + o..at + o + n];
    }
  }

  lemma Joined(m: seq<byte>, i: nat, j: nat, k: nat)
    requires i <= j <= k <= |m|
    ensures m[i..k] == m[i..j] + m[j..k]
  {
  }

  // Headers

  const REQUEST_MAGIC: seq<byte> := [0, 82, 69, 81]
  const RESPONSE_MAGIC: seq<byte> := [0, 82, 69, 83]

  /** Network byte order. */
  function ToBytes(n: nat): (b: seq<byte>)
    requires n <= UINT32_MAX
    ensures |b| == 4
  {
    [(n / 0x100_0000) as byte, (n / 0x1_0000 % 0x100) as byte, (n / 0x100 % 0x100) as byte, (n % 0x100) as byte]
  }

  function FromBytes(b: seq<byte>): (n: nat)
    requires |b| == 4
    ensures n <= UINT32_MAX
  {
    b[0] as nat * 0x100_0000 + b[1] as nat * 0x1_0000 + b[2] as nat * 0x100 + b[3] as nat
  }

  lemma BytesRoundTrip(n: nat)
    requires n <= UINT32_MAX
    ensures FromBytes(ToBytes(n)) == n
  {
    var a, b, c := n / 0x100, n / 0x1_0000, n / 0x100_0000;
    assert b == a / 0x100 && c == b / 0x100;
    assert n == 0x100 * a + n % 0x100 && a == 0x100 * b + a % 0x100 && b == 0x100 * c + b % 0x100;
  }

  /** The number that bytes stand for, the most significant first. */
  function BigEndian(b: seq<byte>): (n: nat) {
    if b == [] then 0 else BigEndian(b[..|b| - 1]) * 0x100 + b[|b| - 1] as nat
  }

  lemma BigEndianIs(b: seq<byte>)
    requires |b| == 4
    ensures FromBytes(b) == BigEndian(b)
  {
    assert b[..3][..2] == b[..2] && b[..2][..1] == b[..1] && b[..1][..0] == [];
    assert BigEndian(b[..1]) == b[0] as nat;
    assert BigEndian(b[..2]) == BigEndian(b[..1]) * 0x100 + b[1] as nat;
    assert BigEndian(b[..3]) == BigEndian(b[..2]) * 0x100 + b[2] as nat;
  }

  /** The command and the length of a packet are on the wire in network byte order. */
  lemma NetworkOrder(n: nat, b: seq<byte>)
    requires n <= UINT32_MAX && |b| == 4
    ensures BigEndian(ToBytes(n)) == n && FromBytes(b) == BigEndian(b)
  {
    hide ToBytes, FromBytes;
    BigEndianIs(b);
    BigEndianIs(ToBytes(n));
    BytesRoundTrip(n);
  }

  datatype Header = Header(magic: Magic, command: nat, length: nat) | Malformed(ret: Ret)

  /** `gearmand_packet_unpack_header` */
  function UnpackHeader(h: seq<byte>): Header
    requires |h| == HEADER_SIZE
  {
    var command := FromBytes(h[4..8]);
    if h[..4] != REQUEST_MAGIC && h[..4] != RESPONSE_MAGIC then Malformed(InvalidMagic)
    else if command == 0 || command >= COMMAND_MAX then Malformed(InvalidCommand)
    else Header(if h[..4] == REQUEST_MAGIC then Request else Response, command, FromBytes(h[8..12]))
  }

  lemma Unpacked(h: seq<byte>, magic: Magic, command: nat, length: nat)
    requires |h| == HEADER_SIZE && !magic.Text? && 0 < command < COMMAND_MAX && length <= UINT32_MAX
    requires h[..4] == if magic.Request? then REQUEST_MAGIC else RESPONSE_MAGIC
    requires h[4..8] == ToBytes(command) && h[8..12] == ToBytes(length)
    ensures UnpackHeader(h) == Header(magic, command, length)
  {
    hide ToBytes, FromBytes;
    BytesRoundTrip(command);
    BytesRoundTrip(length);
    assert REQUEST_MAGIC[3] != RESPONSE_MAGIC[3];
  }

  // Arguments in a stream

  function FirstNul(d: seq<byte>): (i: nat)
    ensures i <= |d| && (forall k :: 0 <= k < i ==> d[k] != 0) && (i < |d| ==> d[i] == 0)
  {
    if d == [] || d[0] == 0 then 0 else 1 + FirstNul(d[1..])
  }

  /** Every argument but the last, and the last too when a payload follows, ends at a NUL byte. */
  predicate Terminated(info: Info, argc: nat) { argc != info.argc - 1 || info.data }

  /** The size of the next argument, when all of it is there. */
  function Next(info: Info, argc: nat, left: nat, d: seq<byte>): (r: Option<nat>)
    ensures r.Some? ==> r.value <= |d|
  {
    var i := FirstNul(d);
    if Terminated(info, argc) then (if i == |d| then None else Some(i + 1))
    else if |d| < left then None else Some(left)
  }

  /** The count of what the header announced goes down in 64 bits. */
  function Less(left: nat, n: nat): nat { (left - n) % 0x1_0000_0000_0000_0000 }

  datatype Parsed = Parsed(args: seq<seq<byte>>, left: nat, ret: Ret)

  /** The arguments found in `d` once `argc` are known. */
  function Parse(info: Info, argc: nat, left: nat, d: seq<byte>): Parsed
    decreases info.argc - argc
  {
    if argc >= info.argc then Parsed([], left, Success) else
    var n := Next(info, argc, left, d);
    if n.None? then Parsed([], left, IoWait) else
    var r := Parse(info, argc + 1, Less(left, n.value), d[n.value..]);
    r.(args := [d[..n.value]] + r.args)
  }

  predicate WellFormed(info: Info, argc: nat, args: seq<seq<byte>>) {
    && argc + |args| == info.argc
    && forall x :: 0 <= x < |args| && Terminated(info, argc + x) ==> args[x] != [] && FirstNul(args[x]) == |args[x]| - 1
  }

  lemma {:induction false} FirstNulPrefix(a: seq<byte>, b: seq<byte>)
    requires FirstNul(a) < |a|
    ensures FirstNul(a + b) == FirstNul(a)
  {
    if a[0] != 0 {
      assert (a + b)[1..] == a[1..] + b;
      FirstNulPrefix(a[1..], b);
    }
  }

  /** What has been understood stays so when more bytes come. */
  lemma {:induction false} NextPrefix(info: Info, argc: nat, left: nat, a: seq<byte>, b: seq<byte>)
    requires Next(info, argc, left, a).Some?
    ensures Next(info, argc, left, a + b) == Next(info, argc, left, a)
  {
    if Terminated(info, argc) { FirstNulPrefix(a, b); }
  }

  lemma ConcatCons(a: seq<byte>, args: seq<seq<byte>>)
    ensures Concat([a] + args) == a + Concat(args)
  {
    assert ([a] + args)[1..] == args;
  }

  lemma {:induction false} ConcatSnoc(args: seq<seq<byte>>, a: seq<byte>)
    ensures Concat(args + [a]) == Concat(args) + a
  {
    if args == [] {
      assert args + [a] == [a] + args;
      ConcatCons(a, args);
    } else {
      assert args + [a] == [args[0]] + (args[1..] + [a]);
      ConcatCons(args[0], args[1..] + [a]);
      ConcatSnoc(args[1..], a);
    }
  }

  lemma ParseCons(info: Info, argc: nat, left: nat, a: seq<byte>, d: seq<byte>)
    requires argc < info.argc && Next(info, argc, left, a + d) == Some(|a|)
    ensures
      var r := Parse(info, argc + 1, Less(left, |a|), d);
      Parse(info, argc, left, a + d) == Parsed([a] + r.args, r.left, r.ret)
  {
    assert (a + d)[..|a|] == a && (a + d)[|a|..] == d;
  }

  /** Bytes that come in pieces are understood as if they had come at once: what one piece leaves over
      is taken up with the next. */
  lemma {:induction false} Resumes(info: Info, argc: nat, left: nat, a: seq<byte>, b: seq<byte>)
    ensures
      var p := Parse(info, argc, left, a);
      && Concat(p.args) <= a
      && var q := Parse(info, argc + |p.args|, p.left, a[|Concat(p.args)|..] + b);
         Parse(info, argc, left, a + b) == Parsed(p.args + q.args, q.left, q.ret)
    decreases info.argc - argc
  {
    hide Parse, Concat, Next;
    var p := Parse(info, argc, left, a);
    var n := Next(info, argc, left, a);
    if argc >= info.argc || n.None? {
      ParseNone(info, argc, left, a);
      ConcatNone(p.args);
      assert a[0..] + b == a + b && p.args + Parse(info, argc, left, a + b).args == Parse(info, argc, left, a + b).args;
    } else {
      var x, rest := a[..n.value], a[n.value..];
      var p' := Parse(info, argc + 1, Less(left, |x|), rest);
      assert a == x + rest && a + b == x + (rest + b);
      ParseCons(info, argc, left, x, rest);
      Resumes(info, argc + 1, Less(left, |x|), rest, b);
      NextPrefix(info, argc, left, a, b);
      ParseCons(info, argc, left, x, rest + b);
      ConcatCons(x, p'.args);
      assert a[|Concat(p.args)|..] == rest[|Concat(p'.args)|..];
      var q := Parse(info, argc + |p.args|, p.left, rest[|Concat(p'.args)|..] + b);
      assert [x] + (p'.args + q.args) == p.args + q.args;
    }
  }

  lemma ParseNone(info: Info, argc: nat, left: nat, d: seq<byte>)
    requires argc >= info.argc || Next(info, argc, left, d).None?
    ensures Parse(info, argc, left, d) == Parsed([], left, if argc >= info.argc then Success else IoWait)
  {
  }

  /** What a stream is understood to be is well formed, and is what the stream starts with. */
  lemma {:induction false} ParseSound(info: Info, argc: nat, left: nat, d: seq<byte>)
    requires argc <= info.argc
    ensures
      var p := Parse(info, argc, left, d);
      Concat(p.args) <= d && (p.ret.Success? ==> WellFormed(info, argc, p.args))
    decreases info.argc - argc
  {
    hide Parse, Concat, WellFormed;
    var p := Parse(info, argc, left, d);
    var n := Next(info, argc, left, d);
    if argc == info.argc || n.None? {
      ParseNone(info, argc, left, d);
      ConcatNone(p.args);
      if p.ret.Success? { WellFormedNone(info); }
    } else {
      var x, rest := d[..n.value], d[n.value..];
      var p' := Parse(info, argc + 1, Less(left, |x|), rest);
      assert d == x + rest;
      ParseCons(info, argc, left, x, rest);
      ParseSound(info, argc + 1, Less(left, |x|), rest);
      ConcatCons(x, p'.args);
      if Terminated(info, argc) { FirstNulAt(x, n.value - 1); }
      if p.ret.Success? { WellFormedCons(info, argc, x, p'.args); }
    }
  }

  lemma WellFormedSize(info: Info, args: seq<seq<byte>>)
    requires WellFormed(info, 0, args)
    ensures |args| == info.argc
  {
  }

  lemma WellFormedNone(info: Info)
    ensures WellFormed(info, info.argc, [])
  {
  }

  lemma WellFormedCons(info: Info, argc: nat, a: seq<byte>, args: seq<seq<byte>>)
    requires WellFormed(info, argc + 1, args) && (Terminated(info, argc) ==> a != [] && FirstNul(a) == |a| - 1)
    ensures WellFormed(info, argc, [a] + args)
  {
    var all := [a] + args;
    forall x | 0 <= x < |all| && Terminated(info, argc + x) ensures all[x] != [] && FirstNul(all[x]) == |all[x]| - 1 {
      if x > 0 { assert all[x] == args[x - 1] && Terminated(info, argc + 1 + (x - 1)); }
    }
  }

  lemma FirstNulAt(d: seq<byte>, i: nat)
    requires i < |d| && d[i] == 0 && forall k :: 0 <= k < i ==> d[k] != 0
    ensures FirstNul(d) == i
  {
    assert d[FirstNul(d)] == 0 || FirstNul(d) == |d|;
  }

  lemma NextIs(info: Info, argc: nat, left: nat, a: seq<byte>, d: seq<byte>)
    requires if Terminated(info, argc) then a != [] && FirstNul(a) == |a| - 1 else left == |a|
    ensures Next(info, argc, left, a + d) == Some(|a|)
  {
    hide FirstNul;
    if Terminated(info, argc) {
      FirstNulPrefix(a, d);
      assert FirstNul(a + d) == |a| - 1 < |a + d|;
    } else {
      assert |a + d| >= left;
    }
  }

  lemma WellFormedTail(info: Info, argc: nat, args: seq<seq<byte>>)
    requires WellFormed(info, argc, args) && args != []
    ensures WellFormed(info, argc + 1, args[1..])
    ensures Terminated(info, argc) ==> args[0] != [] && FirstNul(args[0]) == |args[0]| - 1
  {
    var others := args[1..];
    forall x | 0 <= x < |others| && Terminated(info, argc + 1 + x)
      ensures others[x] != [] && FirstNul(others[x]) == |others[x]| - 1
    {
      assert others[x] == args[x + 1] && Terminated(info, argc + (x + 1));
    }
    if Terminated(info, argc) { assert Terminated(info, argc + 0); }
  }

  /** Arguments that are well formed are read back as they were laid out, whatever follows them. */
  lemma {:induction false} ArgsRoundTrip(info: Info, argc: nat, args: seq<seq<byte>>, payload: nat, rest: seq<byte>)
    requires WellFormed(info, argc, args) && (info.data || payload == 0)
    requires |Concat(args)| + payload <= UINT32_MAX
    ensures Parse(info, argc, |Concat(args)| + payload, Concat(args) + rest) == Parsed(args, payload, Success)
    decreases |args|
  {
    hide Parse, Concat, Next, FirstNul;
    var left := |Concat(args)| + payload;
    if args == [] {
      ConcatNone(args);
      ParseNone(info, argc, left, Concat(args) + rest);
    } else {
      var a, others := args[0], args[1..];
      var d := Concat(others) + rest;
      assert args == [a] + others;
      ConcatCons(a, others);
      assert Concat(args) + rest == a + d;
      WellFormedTail(info, argc, args);
      if !Terminated(info, argc) { ConcatNone(others); }
      NextIs(info, argc, left, a, d);
      ParseCons(info, argc, left, a, d);
      assert Less(left, |a|) == |Concat(others)| + payload;
      ArgsRoundTrip(info, argc + 1, others, payload, rest);
    }
  }

  lemma ConcatNone(args: seq<seq<byte>>)
    requires args == []
    ensures Concat(args) == []
  {
  }

  /** A packet that was packed, found at the front of a stream, is read as it was given: its header, its
      arguments, and how much payload follows. */
  lemma PacketRoundTrip(b: seq<byte>, magic: Magic, command: nat, args: seq<seq<byte>>, payload: nat, rest: seq<byte>)
    requires |b| >= HEADER_SIZE && b[HEADER_SIZE..] == Concat(args)
    requires UnpackHeader(b[..HEADER_SIZE]) == Header(magic, command, |Concat(args)| + payload)
    requires WellFormed(InfoOf(command), 0, args) && (InfoOf(command).data || payload == 0)
    ensures
      var h := UnpackHeader((b + rest)[..HEADER_SIZE]);
      && h == Header(magic, command, |Concat(args)| + payload)
      && Parse(InfoOf(command), 0, h.length, (b + rest)[HEADER_SIZE..]) == Parsed(args, payload, Success)
  {
    hide InfoOf, WellFormed, Parse, Concat;
    assert (b + rest)[..HEADER_SIZE] == b[..HEADER_SIZE] && (b + rest)[HEADER_SIZE..] == Concat(args) + rest;
    ArgsRoundTrip(InfoOf(command), 0, args, payload, rest);
  }
}
