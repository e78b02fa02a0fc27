/** How a packet is put together in memory and read back: `packet_create_arg`,
    `gearmand_packet_pack_header` and the Gear protocol's `unpack`. */
module Packets {
  import opened Seqs
  import opened Framing

  const BUFFER_SIZE := 128

  /** Where the bytes of a packet are: nowhere yet, in the buffer inside it, or on the heap. */
  datatype Where = Nowhere | Inline | Heap

  /** Where the arguments start, from their sizes. */
  method Pointers(at: nat, sizes: seq<nat>, ghost given: seq<seq<byte>>) returns (r: seq<nat>)
    requires |sizes| == |given| && forall x :: 0 <= x < |sizes| ==> sizes[x] == |given[x]|
    ensures |r| == |sizes| && forall x :: 0 <= x < |r| ==> r[x] == at + Offset(given, x)
  {
    hide Offset;
    var offset := at;
    r := [];
    OffsetNone(given);
    for x := 0 to |sizes|
      invariant |r| == x && offset == at + Offset(given, x)
      invariant forall y :: 0 <= y < x ==> r[y] == at + Offset(given, y)
    {
      OffsetNext(given, x);
      r := r + [offset];
      offset := offset + sizes[x];
    }
  }

  class Packet {
    var magic: Magic
    var command: nat
    var argc: nat
    var args: Where
    const buffer: array<byte>
    var heap: array<byte>
    var argsSize: nat
    var argSize: seq<nat>
    var arg: seq<nat>                   // where each argument starts
    var data: Option<seq<byte>>
    var dataSize: nat
    var complete: bool
    ghost var given: seq<seq<byte>>     // the arguments, as the caller gave them

    function Memory(): array<byte>
      reads this
    {
      if args.Heap? then heap else buffer
    }

    /** Where the memory is, how much of it is in use, and how much of it there is. */
    ghost predicate Sized()
      reads this
    {
      && buffer.Length == BUFFER_SIZE && buffer != heap
      && (args.Nowhere? ==> given == [])
      && argsSize == (if args.Nowhere? then 0 else Start(magic) + Offset(given, |given|))
      && (args.Inline? ==> argsSize < BUFFER_SIZE) && (args.Heap? ==> BUFFER_SIZE <= argsSize == heap.Length)
    }

    /** The bytes in use. */
    ghost function Bytes(): seq<byte>
      requires Sized()
      reads this, Memory()
    {
      Memory()[..argsSize]
    }

    /** The argument pointers point at the arguments given. */
    ghost predicate Pointed()
      reads this
    {
      && argc == |given| == |argSize| == |arg|
      && forall x :: 0 <= x < argc ==> argSize[x] == |given[x]| && arg[x] == Start(magic) + Offset(given, x)
    }

    ghost predicate Valid()
      reads this, Memory()
    {
      && Sized() && Pointed() && AllPlaced(Bytes(), Start(magic), given)
      && argc <= InfoOf(command).argc && (data.Some? ==> dataSize == |data.value|)
    }

    /** `gearmand_packet_st::reset` */
    constructor (magic: Magic, command: nat)
      ensures Valid() && given == [] && data == None && dataSize == 0 && this.magic == magic && this.command == command
      ensures args.Nowhere? && !complete && fresh(buffer) && fresh(heap)
    {
      this.magic, this.command, argc, args, argsSize := magic, command, 0, Nowhere, 0;
      argSize, arg, data, dataSize, complete, given := [], [], None, 0, false, [];
      buffer := new byte[BUFFER_SIZE];
      heap := new byte[0];
    }

    /** How much of the memory is in use, the header included once there is one. */
    function Used(): nat
      reads this
    {
      if argsSize == 0 && !magic.Text? then HEADER_SIZE else argsSize
    }

    /** The memory gets room for `n` more bytes: inside the packet as long as they fit there, else on the
        heap, where what is there already is copied. */
    method Reserve(n: nat)
      requires Sized()
      modifies this`args, this`heap
      ensures Memory().Length >= Used() + n && buffer != heap && (heap == old(heap) || fresh(heap))
      ensures args == if Used() + n < BUFFER_SIZE then Inline else Heap
      ensures args.Heap? ==> heap.Length == Used() + n
      ensures argsSize <= old(Memory()).Length && forall i :: 0 <= i < argsSize ==> Memory()[i] == old(Memory()[i])
    {
      if Used() + n < BUFFER_SIZE {
        args := Inline;
      } else {
        var from := Memory();
        var m := new byte[Used() + n];
        forall i | 0 <= i < argsSize { m[i] := from[i]; }
        heap := m;
        args := Heap;
      }
    }

    lemma UsedIs()
      requires Sized()
      ensures Used() == Start(magic) + Offset(given, |given|)
    {
    }

    /** What is kept when the memory moves: all there was, or a header if there was nothing. */
    lemma Kept(was: seq<byte>, kept: seq<byte>)
      requires AllPlaced(was, Start(magic), given) && (given != [] ==> was == kept)
      ensures AllPlaced(kept, Start(magic), given)
    {
    }

    /** The bytes `a` go behind those in use. */
    method Store(a: seq<byte>) returns (ghost kept: seq<byte>)
      requires Sized()
      modifies this`args, this`heap, this`argsSize, buffer, heap
      ensures old(Pointed()) ==> Pointed()
      ensures |kept| == old(Used()) && (given != [] ==> kept == old(Bytes()))
      ensures argsSize == |kept| + |a| <= Memory().Length && Memory()[..argsSize] == kept + a
      ensures buffer != heap && (heap == old(heap) || fresh(heap))
      ensures args == (if argsSize < BUFFER_SIZE then Inline else Heap) && (args.Heap? ==> heap.Length == argsSize)
    {
      hide Offset;
      Reserve(|a|);
      var m, used := Memory(), Used();
      kept := m[..used];
      assert given != [] ==> kept == old(Bytes());
      forall i | used <= i < used + |a| { m[i] := a[i - used]; }
      argsSize := used + |a|;
      assert m[..argsSize] == kept + a;
    }

    /** One argument more; the pointers are set anew, since the memory may have moved. */
    method Record(a: seq<byte>)
      requires Pointed()
      modifies this`argSize, this`arg, this`argc, this`given
      ensures Pointed() && given == old(given) + [a] && argc == old(argc) + 1
    {
      var sizes := argSize + [|a|];
      var pointers := Pointers(if magic.Text? then 0 else HEADER_SIZE, sizes, given + [a]);
      argSize, arg, argc, given := sizes, pointers, argc + 1, given + [a];
    }

    /** The next argument goes behind the others. */
    method Extend(a: seq<byte>)
      requires Valid() && argc < InfoOf(command).argc
      modifies this, buffer, heap
      ensures Valid() && given == old(given) + [a] && !args.Nowhere?
      ensures magic == old(magic) && command == old(command) && data == old(data) && dataSize == old(dataSize)
      ensures complete == old(complete) && (heap == old(heap) || fresh(heap))
    {
      hide InfoOf, Offset, AllPlaced, Pointed;
      UsedIs();
      ghost var was := Bytes();
      ghost var kept := Store(a);
      Kept(was, kept);
      AllPlacedSnoc(kept, Start(magic), given, a);
      OffsetEnd(given, a);
      Record(a);
    }

    /** The arguments are right behind the header. */
    lemma Layout()
      requires Valid() && !args.Nowhere?
      ensures |Concat(given)| == argsSize - Start(magic) && Bytes()[Start(magic)..] == Concat(given)
    {
      hide InfoOf, Concat, AllPlaced;
      ConcatSize(given);
      Contiguous(Bytes(), Start(magic), given);
    }

    /** `packet_create_arg`: once the command has its arguments, the payload; then nothing more. */
    method CreateArg(a: seq<byte>) returns (ret: Ret)
      requires Valid() && command < COMMAND_MAX
      modifies this, buffer, heap
      ensures Valid() && magic == old(magic) && command == old(command) && complete == old(complete)
      ensures heap == old(heap) || fresh(heap)
      ensures ret == if old(argc) < InfoOf(command).argc || (InfoOf(command).data && old(data).None?) then Success
                else TooManyArgs
      ensures given == if old(argc) < InfoOf(command).argc then old(given) + [a] else old(given)
      ensures old(argc) < InfoOf(command).argc ==> !args.Nowhere? && dataSize == old(dataSize)
      ensures data == if ret.Success? && old(argc) == InfoOf(command).argc then Some(a) else old(data)
    {
      var info := InfoOf(command);
      if argc == info.argc && (!info.data || data.Some?) { return TooManyArgs; }
      if argc == info.argc {
        data, dataSize := Some(a), |a|;
        return Success;
      }
      Extend(a);
      return Success;
    }

    /** `gearmand_packet_pack_header`: what is packed is read back as it was, and the arguments stay,
        right behind the header. */
    method PackHeader() returns (ret: Ret)
      requires Valid()
      modifies this`args, this`argsSize, this`complete, buffer, heap
      ensures Valid() && complete == (old(complete) || ret.Success?)
      ensures ret ==
        if magic.Text? then Success
        else if command == 0 || command >= COMMAND_MAX then InvalidCommand
        else if |Concat(given)| + dataSize >= UINT32_MAX then ArgumentTooLarge
        else Success
      ensures ret.Success? && !magic.Text? ==>
        && |Bytes()| >= HEADER_SIZE && Bytes()[HEADER_SIZE..] == Concat(given)
        && UnpackHeader(Bytes()[..HEADER_SIZE]) == Header(magic, command, |Concat(given)| + dataSize)
    {
      hide InfoOf, Offset, Concat, AllPlaced, UnpackHeader;
      if magic.Text? {
        complete := true;
        return Success;
      }
      if argsSize == 0 {
        UsedIs();
        args, argsSize := Inline, HEADER_SIZE;
        Kept([], Memory()[..HEADER_SIZE]);
      }
      ret := WriteHeader();
      Layout();
      if ret.Success? { complete := true; }
    }

    method WriteHeader() returns (ret: Ret)
      requires Valid() && !magic.Text? && !args.Nowhere?
      modifies buffer, heap
      ensures Valid()
      ensures ret ==
        if command == 0 || command >= COMMAND_MAX then InvalidCommand
        else if argsSize - HEADER_SIZE + dataSize >= UINT32_MAX then ArgumentTooLarge
        else Success
      ensures ret.Success? ==>
        UnpackHeader(Bytes()[..HEADER_SIZE]) == Header(magic, command, argsSize - HEADER_SIZE + dataSize)
    {
      hide InfoOf, Offset, AllPlaced, ToBytes;
      var length := argsSize - HEADER_SIZE + dataSize;
      Write(0, if magic.Request? then REQUEST_MAGIC else RESPONSE_MAGIC);
      if command == 0 || command >= COMMAND_MAX { return InvalidCommand; }
      Write(4, ToBytes(command));
      if length >= UINT32_MAX { return ArgumentTooLarge; }
      ghost var h := Bytes()[..8];
      assert h[..4] == Bytes()[..4] && h[4..] == Bytes()[4..8];
      Write(8, ToBytes(length));
      assert Bytes()[..HEADER_SIZE] == h + ToBytes(length);
      Unpacked(Bytes()[..HEADER_SIZE], magic, command, length);
      return Success;
    }

    /** Four bytes of the header. */
    method Write(at: nat, b: seq<byte>)
      requires Valid() && !magic.Text? && !args.Nowhere? && at + 4 <= HEADER_SIZE && |b| == 4
      modifies buffer, heap
      ensures Valid() && Bytes()[..at] == old(Bytes()[..at]) && Bytes()[at..at + 4] == b
    {
      hide InfoOf, Offset, AllPlaced;
      var m := Memory();
      ghost var was := Bytes();
      m[at], m[at + 1], m[at + 2], m[at + 3] := b[0], b[1], b[2], b[3];
      assert Bytes()[HEADER_SIZE..] == was[HEADER_SIZE..];
      AllPlacedAfter(was, Bytes(), HEADER_SIZE, given);
    }

    /** The loop of the Gear protocol's `unpack`, after the header: as many arguments are taken from `d` as
        are complete. */
    method UnpackArgs(d: seq<byte>) returns (used: nat, ret: Ret)
      requires Valid() && !args.Nowhere? && data.None?
      modifies this, buffer, heap
      ensures Valid() && !args.Nowhere? && data.None? && magic == old(magic) && command == old(command)
      ensures
        var p := Parse(InfoOf(command), old(argc), old(dataSize), d);
        given == old(given) + p.args && dataSize == p.left && ret == p.ret && used == |Concat(p.args)|
    {
      hide Parse, InfoOf, Offset, AllPlaced, Next, Concat;
      var info := InfoOf(command);
      ghost var p := Parse(info, argc, dataSize, d);
      ghost var got: seq<seq<byte>> := [];
      used := 0;
      ConcatNone(got);
      assert d[0..] == d && given == given + got;
      while argc != info.argc
        invariant Valid() && !args.Nowhere? && data.None? && magic == old(magic) && command == old(command)
        invariant heap == old(heap) || fresh(heap)
        invariant used <= |d| && given == old(given) + got && used == |Concat(got)|
        invariant var r := Parse(info, argc, dataSize, d[used..]); p == Parsed(got + r.args, r.left, r.ret)
        decreases info.argc - argc
      {
        var n := Next(info, argc, dataSize, d[used..]);
        if n.None? {
          ParseNone(info, argc, dataSize, d[used..]);
          assert p.args == got;
          return used, IoWait;
        }
        var a := d[used..used + n.value];
        assert d[used..] == a + d[used + n.value..];
        ParseCons(info, argc, dataSize, a, d[used + n.value..]);
        ConcatSnoc(got, a);
        HasArgs(command);
        ret := CreateArg(a);
        dataSize, used, got := Less(dataSize, n.value), used + n.value, got + [a];
      }
      ParseNone(info, argc, dataSize, d[used..]);
      assert p.args == got;
      ret := Success;
    }

    /** The head of `unpack`: the header is copied, and read. */
    method ReadHeader(h: seq<byte>) returns (ret: Ret)
      requires Valid() && args.Nowhere? && data.None? && |h| == HEADER_SIZE
      modifies this`args, this`argsSize, this`magic, this`command, this`dataSize, buffer
      ensures ret == match UnpackHeader(h) { case Header(_, _, _) => Success case Malformed(r) => r }
      ensures ret.Success? ==> Valid() && args.Inline? && UnpackHeader(h) == Header(magic, command, dataSize)
    {
      hide InfoOf, Offset, AllPlaced;
      args, argsSize := Inline, HEADER_SIZE;
      forall i | 0 <= i < HEADER_SIZE { buffer[i] := h[i]; }
      match UnpackHeader(h)
      case Malformed(r) => return r;
      case Header(m, c, l) =>
        magic, command, dataSize := m, c, l;
        OffsetNone(given);
        NoneThere(buffer[..argsSize], Start(magic));
        return Success;
    }
  }

  lemma NoneThere(m: seq<byte>, at: nat)
    ensures AllPlaced(m, at, [])
  {}

  /** What one side puts together, argument by argument, the other side reads back as it was given,
      whatever follows in the stream. */
  method Transmit(magic: Magic, command: nat, args: seq<seq<byte>>, payload: seq<byte>, rest: seq<byte>)
      returns (got: Packet)
    requires !magic.Text? && 0 < command < COMMAND_MAX && WellFormed(InfoOf(command), 0, args)
    requires InfoOf(command).data || payload == []
    requires |Concat(args)| + |payload| < UINT32_MAX
    ensures fresh(got) && got.Valid() && got.magic == magic && got.command == command
    ensures got.given == args && got.dataSize == |payload|
  {
    hide InfoOf, WellFormed, Concat, UnpackHeader, AllPlaced;
    WellFormedSize(InfoOf(command), args);
    var stream := Compose(magic, command, args, payload);
    var all := stream + payload + rest;
    got := new Packet(Request, 0);
    var ret := got.ReadHeader(all[..HEADER_SIZE]);
    PacketRoundTrip(stream, magic, command, args, |payload|, payload + rest);
    assert all == stream + (payload + rest);
    var used, done := got.UnpackArgs(all[HEADER_SIZE..]);
  }

  /** A packet with the arguments `args`. */
  method Fill(magic: Magic, command: nat, args: seq<seq<byte>>) returns (p: Packet)
    requires command < COMMAND_MAX && |args| <= InfoOf(command).argc
    ensures p.Valid() && fresh(p) && fresh(p.buffer) && fresh(p.heap)
    ensures p.magic == magic && p.command == command && p.given == args && p.data == None && p.dataSize == 0
  {
    hide InfoOf, AllPlaced, Offset;
    p := new Packet(magic, command);
    for i := 0 to |args|
      invariant p.Valid() && fresh(p) && fresh(p.buffer) && fresh(p.heap)
      invariant p.magic == magic && p.command == command && p.given == args[..i] && p.data == None && p.dataSize == 0
    {
      var ret := p.CreateArg(args[i]);
    }
    assert args[..|args|] == args;
  }

  /** The bytes of header and arguments. */
  method Compose(magic: Magic, command: nat, args: seq<seq<byte>>, payload: seq<byte>) returns (stream: seq<byte>)
    requires !magic.Text? && 0 < command < COMMAND_MAX && |args| == InfoOf(command).argc
    requires InfoOf(command).data || payload == []
    requires |Concat(args)| + |payload| < UINT32_MAX
    ensures |stream| >= HEADER_SIZE && stream[HEADER_SIZE..] == Concat(args)
    ensures UnpackHeader(stream[..HEADER_SIZE]) == Header(magic, command, |Concat(args)| + |payload|)
  {
    hide InfoOf, Concat, UnpackHeader, AllPlaced, Offset;
    var p := Fill(magic, command, args);
    if payload != [] { var ret := p.CreateArg(payload); }
    var ret := p.PackHeader();
    stream := p.Memory()[..p.argsSize];
  }
}
