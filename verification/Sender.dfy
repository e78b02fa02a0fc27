/** The resumable packet sender of a connection: `gearman_io_send`, `_connection_flush`
    and `_thread_packet_flush`. Whatever the socket accepts and however often the sender is
    re-entered, what is on the wire followed by what is still to go is the bytes of the
    packets queued, in order. */
module Sender {

  newtype byte = x: int | 0 <= x < 256

  const SEND_BUFFER_SIZE := 8192

  /** A packet to send: header and arguments first, then the payload. A null `data` pointer
      is the empty payload. */
  datatype Packet = Packet(complete: bool, args: seq<byte>, data: seq<byte>)

  datatype SendState = Idle | PreFlush | ForceFlush | Flushing | FlushData

  /** `send_buffer_ptr`: into the send buffer, or into the payload of a packet. */
  datatype Ptr = InBuffer(off: nat) | InData(data: seq<byte>, off: nat)

  /** What one `send()` answers. */
  datatype Outcome = Wrote(n: nat) | WouldBlock | Interrupted | Broken

  datatype Ret = Success | Again | IoWait | LostConnection | InvalidPacket | SendBufferTooSmall

  function Bytes(p: Packet): seq<byte> { p.args + p.data }

  function Stream(ps: seq<Packet>): seq<byte> {
    if ps == [] then [] else Bytes(ps[0]) + Stream(ps[1..])
  }

  lemma {:induction false} StreamSnoc(ps: seq<Packet>, p: Packet)
    ensures Stream(ps + [p]) == Stream(ps) + Bytes(p)
  {
    if ps == [] {
      assert [p][1..] == [];
    } else {
      StreamSnoc(ps[1..], p);
      assert (ps + [p])[1..] == ps[1..] + [p];
      assert Bytes(ps[0]) + (Stream(ps[1..]) + Bytes(p)) == (Bytes(ps[0]) + Stream(ps[1..])) + Bytes(p);
    }
  }

  /** `s` holds the bytes `b` at position `at`. */
  ghost predicate Holds(s: seq<byte>, at: nat, b: seq<byte>) {
    at + |b| <= |s| && forall i :: 0 <= i < |b| ==> s[at + i] == b[i]
  }

  /** From `at` on, `s` is exactly the bytes of the packets `ps` in order. */
  ghost predicate Spells(s: seq<byte>, at: nat, ps: seq<Packet>)
    decreases |ps|
  {
    if ps == [] then at == |s|
    else Holds(s, at, Bytes(ps[0])) && Spells(s, at + |Bytes(ps[0])|, ps[1..])
  }

  lemma {:induction false} SpellsAppend(s: seq<byte>, at: nat, ps: seq<Packet>, p: Packet)
    requires Spells(s, at, ps)
    ensures Spells(s + Bytes(p), at, ps + [p])
    decreases |ps|
  {
    if ps == [] {
      assert (ps + [p])[1..] == [];
    } else {
      SpellsAppend(s, at + |Bytes(ps[0])|, ps[1..], p);
      assert (ps + [p])[1..] == ps[1..] + [p];
    }
  }

  lemma {:induction false} SpellsRest(s: seq<byte>, at: nat, ps: seq<Packet>)
    requires Spells(s, at, ps)
    ensures at <= |s| && s[at..] == Stream(ps)
    decreases |ps|
  {
    if ps != [] {
      var b := Bytes(ps[0]);
      SpellsRest(s, at + |b|, ps[1..]);
      assert s[at..at + |b|] == b;
      assert s[at..] == s[at..at + |b|] + s[at + |b|..];
    }
  }

  lemma RestOfHead(s: seq<byte>, at: nat, ps: seq<Packet>, k: nat)
    requires Spells(s, at, ps) && ps != [] && k <= |Bytes(ps[0])|
    ensures at + k <= |s| && s[at + k..] == Bytes(ps[0])[k..] + Stream(ps[1..])
  {
    var b := Bytes(ps[0]);
    SpellsRest(s, at + |b|, ps[1..]);
    assert s[at + k..at + |b|] == b[k..];
  }

  /** `m[lo..hi]` stands in `goal` at `base`. */
  ghost predicate Maps(m: seq<byte>, lo: nat, hi: nat, goal: seq<byte>, base: nat) {
    && lo <= hi <= |m| && base + (hi - lo) <= |goal|
    && forall i {:trigger m[i]} :: lo <= i < hi ==> m[i] == goal[base + (i - lo)]
  }

  lemma MapsSlice(m: seq<byte>, lo: nat, hi: nat, goal: seq<byte>, base: nat, n: nat)
    requires Maps(m, lo, hi, goal, base) && lo + n <= hi
    ensures goal[..base] + m[lo..lo + n] == goal[..base + n]
  {
    var w := goal[..base] + m[lo..lo + n];
    forall i | 0 <= i < base + n ensures w[i] == goal[i] {
      if i >= base { assert w[i] == m[lo + (i - base)]; }
    }
  }

  lemma MapsWindow(m: seq<byte>, lo: nat, hi: nat, goal: seq<byte>, base: nat)
    requires Maps(m, lo, hi, goal, base)
    ensures goal[..base] + (m[lo..hi] + goal[base + (hi - lo)..]) == goal
  {
    assert m[lo..hi] == goal[base..base + (hi - lo)];
  }

  function Min(a: nat, b: nat): nat { if a < b then a else b }

  class Connection {
    const buffer: array<byte>
    var connected: bool
    var state: SendState
    var ptr: Ptr
    var size: nat          // send_buffer_size
    var dataSize: nat      // send_data_size
    var dataOffset: nat    // send_data_offset
    var closeAfterFlush: bool
    var pollOut: bool
    var queue: seq<Packet>     // io_packet_list
    var wire: seq<byte>        // what the socket has accepted
    var script: seq<Outcome>   // answers of the coming send() calls; after them it would block
    ghost var content: seq<byte>    // what `buffer` holds
    ghost var stream: seq<byte>     // the bytes of every packet ever queued
    ghost var start: nat            // where in `stream` the packet at the head of the queue starts

    /** The memory `send_buffer_ptr` points into. */
    ghost function Memory(): seq<byte>
      reads this
    {
      if ptr.InData? then ptr.data else content
    }

    ghost predicate BufferOk()
      reads this, buffer
    {
      buffer.Length == |content| == SEND_BUFFER_SIZE && buffer[..] == content
    }

    ghost predicate WindowOk()
      reads this
    {
      && |content| == SEND_BUFFER_SIZE
      && (ptr.InBuffer? ==> ptr.off + size <= SEND_BUFFER_SIZE && state != FlushData)
      && (ptr.InData? ==>
            ptr.off + size == |ptr.data| == dataSize && ptr.off == dataOffset && state == FlushData && size > 0)
    }

    /** What was written and then the window `send_buffer_ptr[..send_buffer_size]` are the first
        `n` bytes of `goal`. */
    ghost predicate OnTrack(goal: seq<byte>, n: nat)
      reads this
    {
      && WindowOk()
      && |wire| + size == n <= |goal|
      && wire == goal[..|wire|]
      && Maps(Memory(), ptr.off, ptr.off + size, goal, |wire|)
    }

    /** How much of the packet being sent is written or in the window. */
    ghost function Pushed(p: Packet): nat
      reads this
    {
      match state
      case Idle => 0
      case PreFlush => 0
      case ForceFlush => |p.args| + dataOffset
      case Flushing => |Bytes(p)|
      case FlushData => |Bytes(p)|
    }

    /** The state between two steps of sending packet `p`, which starts at `at` in `goal`. */
    ghost predicate Sending(p: Packet, goal: seq<byte>, at: nat)
      reads this
    {
      && Holds(goal, at, Bytes(p))
      && OnTrack(goal, at + Pushed(p))
      && (state == Idle ==> ptr == InBuffer(0))
      && (state == ForceFlush ==> dataOffset < |p.data|)
      && (state == FlushData ==> ptr.data == p.data)
      && (state != FlushData ==> dataSize == 0)
      && (state != FlushData && state != ForceFlush ==> dataOffset == 0)
    }

    /** `_connection_close` */
    method Close()
      modifies this`connected, this`state, this`ptr, this`size, this`dataSize, this`dataOffset
      ensures !connected && state == Idle && ptr == InBuffer(0)
      ensures size == 0 && dataSize == 0 && dataOffset == 0
    {
      connected := false;
      state := Idle;
      ptr := InBuffer(0);
      size, dataSize, dataOffset := 0, 0, 0;
    }

    /** One `send()`: takes the next scripted answer, and puts the bytes on the wire. */
    method Send(ghost goal: seq<byte>, ghost n: nat) returns (r: Outcome)
      requires BufferOk() && OnTrack(goal, n)
      modifies this`wire, this`script
      ensures r.Wrote? ==> r.n <= size && wire == goal[..|old(wire)| + r.n]
      ensures !r.Wrote? || r.n == 0 ==> wire == old(wire)
      ensures |script| < |old(script)| || (script == [] && r == WouldBlock)
    {
      if script == [] { return WouldBlock; }
      r := script[0];
      script := script[1..];
      if r.Wrote? {
        r := Wrote(Min(r.n, size));
        MapsSlice(Memory(), ptr.off, ptr.off + size, goal, |wire|, r.n);
        wire := wire + if ptr.InData? then ptr.data[ptr.off..ptr.off + r.n] else buffer[ptr.off..ptr.off + r.n];
      }
    }

    /** Moves the window past `n` bytes just written; `done` when the loop of
        `_connection_flush` is left. */
    method Advance(n: nat) returns (done: bool)
      requires WindowOk() && 0 < n <= size
      modifies this`ptr, this`size, this`dataSize, this`dataOffset
      ensures done ==> n == old(size) && size == 0
      ensures !done ==> WindowOk() && ptr == old(ptr).(off := old(ptr.off) + n) && size == old(size) - n > 0
      ensures done && state == FlushData ==> dataSize == 0 && dataOffset == 0
      ensures state != FlushData ==> dataSize == old(dataSize) && dataOffset == old(dataOffset)
    {
      size := size - n;
      if state == FlushData {
        dataOffset := dataOffset + n;
        if dataOffset == dataSize {
          dataSize, dataOffset := 0, 0;
          return true;
        }
      } else if size == 0 {
        return true;
      }
      ptr := ptr.(off := ptr.off + n);
      return false;
    }

    /** A round of the loop of `_connection_flush`: one `send()`, and the window moved past
        what was written. `Success` stands for leaving the loop. */
    method Round(ghost goal: seq<byte>, ghost n: nat, zeroWrites: nat) returns (ret: Ret, zeroWrites': nat)
      requires BufferOk() && connected && OnTrack(goal, n) && size > 0
      modifies this`ptr, this`size, this`dataSize, this`dataOffset, this`wire, this`script
      ensures ret == Again || ret == IoWait || ret == Success || ret == LostConnection
      ensures ret == Success ==> size == 0 && wire == goal[..n]
      ensures ret == Again || ret == IoWait ==> size > 0 && OnTrack(goal, n)
      ensures ret == Again || ret == IoWait ==> state == FlushData ==> ptr.data == old(ptr.data)
      ensures ret == Again ==> |script| < |old(script)|
      ensures ret == Success && state == FlushData ==> dataSize == 0 && dataOffset == 0
      ensures state != FlushData ==> dataSize == old(dataSize) && dataOffset == old(dataOffset)
    {
      zeroWrites' := zeroWrites;
      var r := Send(goal, n);
      if r == WouldBlock {
        ret := IoWait;
      } else if r == Broken {
        ret := LostConnection;
      } else if r == Interrupted {
        ret := Again;
      } else if r.n == 0 {
        zeroWrites' := zeroWrites' + 1;
        ret := if zeroWrites' > 5 then LostConnection else Again;
      } else {
        var done := Advance(r.n);
        ret := if done then Success else Again;
      }
    }

    /** `_connection_flush`: writes out the window. */
    method Flush(ghost goal: seq<byte>, ghost n: nat) returns (ret: Ret)
      requires BufferOk() && connected && OnTrack(goal, n)
      modifies this`connected, this`state, this`ptr, this`size, this`dataSize, this`dataOffset,
               this`wire, this`script, this`pollOut
      ensures ret == Success || ret == IoWait || ret == LostConnection
      ensures connected <==> ret != LostConnection
      ensures connected ==> OnTrack(goal, n)
      ensures ret == Success ==> size == 0 && state == Idle && ptr == InBuffer(0) && pollOut == old(pollOut)
      ensures ret == Success && old(state) == FlushData ==> dataSize == 0 && dataOffset == 0
      ensures connected && old(state) != FlushData ==> dataSize == old(dataSize) && dataOffset == old(dataOffset)
      ensures ret == IoWait ==> state == old(state) && size > 0 && pollOut
      ensures ret == IoWait && state == FlushData ==> ptr.data == old(ptr.data)
    {
      var zeroWrites := 0;
      ret := if size == 0 then Success else Again;
      while ret == Again
        invariant connected && state == old(state) && pollOut == old(pollOut)
        invariant ret == Again || ret == IoWait || ret == Success || ret == LostConnection
        invariant ret == Success ==> size == 0 && wire == goal[..n] && |content| == SEND_BUFFER_SIZE
        invariant ret == Again || ret == IoWait ==> size > 0 && OnTrack(goal, n)
        invariant ret == Again || ret == IoWait ==> state == FlushData ==> ptr.data == old(ptr.data)
        invariant ret == Success && state == FlushData ==> dataSize == 0 && dataOffset == 0
        invariant state != FlushData ==> dataSize == old(dataSize) && dataOffset == old(dataOffset)
        decreases ret == Again, |script|
      {
        ret, zeroWrites := Round(goal, n, zeroWrites);
      }
      if ret == Success {
        state := Idle;
        ptr := InBuffer(0);
      } else if ret == IoWait {
        pollOut := true;
      } else {
        Close();
      }
    }

    /** `memcpy` of `bytes` behind what the send buffer holds. */
    method CopyIn(bytes: seq<byte>, ghost goal: seq<byte>, ghost n: nat)
      requires BufferOk() && OnTrack(goal, n) && ptr == InBuffer(0)
      requires size + |bytes| <= SEND_BUFFER_SIZE && Holds(goal, n, bytes)
      modifies this`size, this`content, buffer
      ensures BufferOk() && size == old(size) + |bytes| && OnTrack(goal, n + |bytes|)
    {
      forall i | 0 <= i < |bytes| { buffer[size + i] := bytes[i]; }
      forall i | size <= i < size + |bytes| ensures buffer[i] == goal[|wire| + i] {
        assert buffer[i] == bytes[i - size] == goal[n + (i - size)];
      }
      content := buffer[..];
      size := size + |bytes|;
    }

    /** The first part of `gearman_io_send`: pack header and arguments, flushing first when they
        do not fit. The gear protocol packs by copying `args`. */
    method Pack(p: Packet, ghost goal: seq<byte>, ghost at: nat) returns (ret: Ret)
      requires BufferOk() && connected && Sending(p, goal, at) && (state == Idle || state == PreFlush)
      modifies this`connected, this`state, this`ptr, this`size, this`dataSize, this`dataOffset,
               this`wire, this`script, this`pollOut, this`content, buffer
      ensures BufferOk() && (connected <==> ret != LostConnection)
      ensures ret == Success || ret == IoWait || ret == LostConnection || ret == SendBufferTooSmall
      ensures ret == Success ==> state == Idle && ptr == InBuffer(0) && dataOffset == 0 && dataSize == 0
      ensures ret == Success ==> OnTrack(goal, at + |p.args|)
      ensures ret == IoWait ==> state == PreFlush && size > 0
      ensures ret == SendBufferTooSmall ==> state == Idle && size == 0 && |p.args| > SEND_BUFFER_SIZE
      ensures ret == IoWait || ret == SendBufferTooSmall ==> Sending(p, goal, at)
    {
      while state == PreFlush || size + |p.args| > SEND_BUFFER_SIZE
        invariant BufferOk() && connected && Sending(p, goal, at) && (state == Idle || state == PreFlush)
        decreases if state == PreFlush then 1 else if size == 0 then 0 else 2
      {
        if state != PreFlush {
          if size == 0 { return SendBufferTooSmall; }
          state := PreFlush;
        }
        ret := Flush(goal, at);
        if ret != Success { return; }
      }
      assert Holds(goal, at, p.args) by { assert forall i :: 0 <= i < |p.args| ==> p.args[i] == Bytes(p)[i]; }
      CopyIn(p.args, goal, at);
      ret := Success;
    }

    /** Copies as much of the payload as the buffer has room for; `done` when that was all. */
    method StartData(p: Packet, ghost goal: seq<byte>, ghost at: nat) returns (done: bool)
      requires BufferOk() && OnTrack(goal, at + |p.args|) && Holds(goal, at, Bytes(p)) && |p.data| > 0
      requires state == Idle && ptr == InBuffer(0) && dataOffset == 0 && dataSize == 0
      modifies this`state, this`size, this`dataOffset, this`content, buffer
      ensures BufferOk()
      ensures done ==> state == Idle && dataOffset == 0 && OnTrack(goal, at + |Bytes(p)|)
      ensures !done ==> state == ForceFlush && Sending(p, goal, at)
    {
      var room := SEND_BUFFER_SIZE - size;
      if room > 0 {
        dataOffset := Min(room, |p.data|);
        var part := p.data[..dataOffset];
        assert Holds(goal, at + |p.args|, part) by {
          assert forall i :: 0 <= i < |part| ==> part[i] == Bytes(p)[|p.args| + i];
        }
        CopyIn(part, goal, at + |p.args|);
        if dataOffset == |p.data| {
          dataOffset := 0;
          return true;
        }
      }
      state := ForceFlush;
      return false;
    }

    /** The `FORCE_FLUSH` case: empty the buffer, then copy the rest of the payload into it, or
        write straight from the payload when it is too long. `buffered` tells the first. */
    method ForceData(p: Packet, ghost goal: seq<byte>, ghost at: nat) returns (ret: Ret, buffered: bool)
      requires BufferOk() && connected && state == ForceFlush && Sending(p, goal, at)
      modifies this`connected, this`state, this`ptr, this`size, this`dataSize, this`dataOffset,
               this`wire, this`script, this`pollOut, this`content, buffer
      ensures BufferOk() && (connected <==> ret != LostConnection)
      ensures ret == Success || ret == IoWait || ret == LostConnection
      ensures ret == IoWait ==> size > 0 && state == ForceFlush && Sending(p, goal, at)
      ensures ret == Success && buffered ==>
                state == Idle && ptr == InBuffer(0) && dataOffset == 0 && dataSize == 0
                    && OnTrack(goal, at + |Bytes(p)|)
      ensures ret == Success && !buffered ==> state == FlushData && Sending(p, goal, at)
    {
      buffered := false;
      ret := Flush(goal, at + |p.args| + dataOffset);
      if ret != Success { return; }
      dataSize := |p.data|;
      var rest := p.data[dataOffset..];
      assert Holds(goal, at + |p.args| + dataOffset, rest) by {
        assert forall i :: 0 <= i < |rest| ==> rest[i] == Bytes(p)[|p.args| + dataOffset + i];
      }
      if |rest| < SEND_BUFFER_SIZE {
        CopyIn(rest, goal, at + |p.args| + dataOffset);
        dataSize, dataOffset := 0, 0;
        buffered := true;
      } else {
        Direct(p, goal, at);
      }
    }

    method Direct(p: Packet, ghost goal: seq<byte>, ghost at: nat)
      requires OnTrack(goal, at + |p.args| + dataOffset) && Holds(goal, at, Bytes(p))
      requires state == Idle && ptr == InBuffer(0) && size == 0 && dataOffset < |p.data| == dataSize
      modifies this`state, this`ptr, this`size
      ensures state == FlushData && Sending(p, goal, at)
    {
      size := |p.data| - dataOffset;
      ptr := InData(p.data, dataOffset);
      state := FlushData;
      forall i | dataOffset <= i < |p.data| ensures p.data[i] == goal[|wire| + (i - dataOffset)] {
        assert p.data[i] == Bytes(p)[|p.args| + i];
      }
    }

    /** A flush that ends the packet; closes the connection behind it when asked to. */
    method FinalFlush(ghost goal: seq<byte>, ghost n: nat) returns (ret: Ret)
      requires BufferOk() && connected && OnTrack(goal, n)
      requires state != FlushData ==> dataSize == 0 && dataOffset == 0
      modifies this`connected, this`state, this`ptr, this`size, this`dataSize, this`dataOffset,
               this`wire, this`script, this`pollOut
      ensures ret == Success || ret == IoWait || ret == LostConnection
      ensures connected <==> ret != LostConnection
      ensures connected ==> OnTrack(goal, n)
      ensures ret == Success ==> size == 0 && state == Idle && ptr == InBuffer(0) && dataSize == 0 && dataOffset == 0
      ensures ret == IoWait ==> state == old(state) && size > 0 && pollOut
      ensures ret == IoWait && state == FlushData ==> ptr.data == old(ptr.data)
      ensures ret == IoWait && state != FlushData ==> dataSize == 0 && dataOffset == 0
    {
      ret := Flush(goal, n);
      if ret == Success && closeAfterFlush {
        Close();
        ret := LostConnection;
      }
    }

    /** Everything `gearman_io_send` does before its last flush: the packet ends up in the
        buffer (state `Idle`), or is being written straight from its payload. */
    method Load(p: Packet, ghost goal: seq<byte>, ghost at: nat) returns (ret: Ret)
      requires BufferOk() && connected && Sending(p, goal, at) && state != Flushing && state != FlushData
      modifies this`connected, this`state, this`ptr, this`size, this`dataSize, this`dataOffset,
               this`wire, this`script, this`pollOut, this`content, buffer
      ensures BufferOk() && (connected <==> ret != LostConnection)
      ensures ret == Success || ret == IoWait || ret == LostConnection || ret == SendBufferTooSmall
      ensures ret == Success ==> Sent(goal, at + |Bytes(p)|) || (state == FlushData && Sending(p, goal, at))
      ensures ret == IoWait ==> state != Idle
      ensures ret == SendBufferTooSmall ==> |p.args| > SEND_BUFFER_SIZE
      ensures ret == IoWait || ret == SendBufferTooSmall ==> Sending(p, goal, at)
    {
      if state != ForceFlush {
        ret := Pack(p, goal, at);
        if ret != Success { return; }
        if |p.data| == 0 { return; }
        var done := StartData(p, goal, at);
        if done { return; }
      }
      var buffered;
      ret, buffered := ForceData(p, goal, at);
    }

    /** `gearman_io_send`, entered afresh or resumed where it stopped. */
    method IoSend(p: Packet, flush: bool, ghost goal: seq<byte>, ghost at: nat) returns (ret: Ret)
      requires BufferOk() && connected && Sending(p, goal, at)
      modifies this`connected, this`state, this`ptr, this`size, this`dataSize, this`dataOffset,
               this`wire, this`script, this`pollOut, this`content, buffer
      ensures BufferOk() && (connected <==> ret != LostConnection) && ret != Again
      ensures ret == Success ==> Sent(goal, at + |Bytes(p)|) && (flush ==> size == 0)
      ensures connected && ret != Success ==> Sending(p, goal, at)
      ensures ret == IoWait ==> state != Idle
      ensures ret == InvalidPacket ==> !p.complete
      ensures ret == SendBufferTooSmall ==> |p.args| > SEND_BUFFER_SIZE
    {
      hide Maps, Holds;
      if state == Idle && !p.complete { return InvalidPacket; }
      if state != Flushing && state != FlushData {
        ret := Load(p, goal, at);
        if ret != Success { return; }
        if state == Idle && !flush { return; }
        if state == Idle { state := Flushing; }
      }
      ret := FinalFlush(goal, at + |Bytes(p)|);
    }

    /** Between packets: the first `n` bytes of `goal` are written or in the buffer. */
    ghost predicate Sent(goal: seq<byte>, n: nat)
      reads this
    {
      OnTrack(goal, n) && state == Idle && ptr == InBuffer(0) && dataSize == 0 && dataOffset == 0
    }

    /** What holds between any two calls, for as long as the connection lives: the bytes on the
        wire, then those in the window, then the rest of the queued packets are the bytes of
        every packet ever queued. */
    ghost predicate Valid()
      reads this, buffer
    {
      && BufferOk()
      && (connected ==>
            && Spells(stream, start, queue)
            && (queue == [] ==> Sent(stream, start) && size == 0)
            && (queue != [] ==> Sending(queue[0], stream, start)))
    }

    lemma OnTrackGrows(goal: seq<byte>, n: nat, x: seq<byte>)
      requires OnTrack(goal, n)
      ensures OnTrack(goal + x, n)
    {
      assert (goal + x)[..|wire|] == goal[..|wire|];
    }

    lemma SendingGrows(p: Packet, goal: seq<byte>, at: nat, x: seq<byte>)
      requires Sending(p, goal, at)
      ensures Sending(p, goal + x, at)
    {
      OnTrackGrows(goal, at + Pushed(p), x);
    }

    /** What has still to reach the wire. */
    ghost function Unsent(): seq<byte>
      reads this, buffer
      requires Valid() && connected
    {
      Memory()[ptr.off..ptr.off + size] +
      if queue == [] then [] else Bytes(queue[0])[Pushed(queue[0])..] + Stream(queue[1..])
    }

    /** Conservation: nothing queued is lost, repeated or reordered. */
    lemma Conserved()
      requires Valid() && connected
      ensures wire + Unsent() == stream
    {
      MapsWindow(Memory(), ptr.off, ptr.off + size, stream, |wire|);
      if queue != [] {
        RestOfHead(stream, start, queue, Pushed(queue[0]));
      }
    }

    /** `gearman_server_io_packet_add`: another packet for the connection. */
    method Enqueue(p: Packet)
      requires Valid()
      modifies this`queue, this`stream
      ensures Valid() && queue == old(queue) + [p] && stream == old(stream) + Bytes(p)
    {
      if connected {
        SpellsAppend(stream, start, queue, p);
        if queue == [] {
          OnTrackGrows(stream, start, Bytes(p));
        } else {
          SendingGrows(queue[0], stream, start, Bytes(p));
        }
      }
      queue := queue + [p];
      stream := stream + Bytes(p);
    }

    constructor (script: seq<Outcome>, closeAfterFlush: bool)
      ensures Valid() && connected && fresh(buffer) && queue == [] && stream == [] && wire == []
      ensures this.script == script && this.closeAfterFlush == closeAfterFlush && !pollOut
    {
      buffer := new byte[SEND_BUFFER_SIZE](_ => 0);
      connected, state, ptr, size, dataSize, dataOffset := true, Idle, InBuffer(0), 0, 0, 0;
      this.closeAfterFlush, pollOut := closeAfterFlush, false;
      queue, wire, stream, start := [], [], [], 0;
      this.script := script;
      new;
      content := buffer[..];
    }

    /** `gearman_server_io_packet_remove` of the packet just sent. */
    method Dequeue()
      requires BufferOk() && connected && queue != []
      requires Spells(stream, start, queue) && Sent(stream, start + |Bytes(queue[0])|)
      requires |queue| == 1 ==> size == 0
      modifies this`queue, this`start
      ensures Valid() && queue == old(queue)[1..]
    {
      start := start + |Bytes(queue[0])|;
      queue := queue[1..];
    }

    /** The other threads queue packets. */
    method EnqueueAll(ps: seq<Packet>)
      requires Valid()
      modifies this`queue, this`stream
      ensures Valid() && queue == old(queue) + ps && stream == old(stream) + Stream(ps)
    {
      for i := 0 to |ps|
        invariant Valid() && queue == old(queue) + ps[..i] && stream == old(stream) + Stream(ps[..i])
      {
        StreamSnoc(ps[..i], ps[i]);
        assert ps[..i + 1] == ps[..i] + [ps[i]];
        Enqueue(ps[i]);
      }
      assert ps[..|ps|] == ps;
    }

    /** A round of `_thread_packet_flush`: the head of the queue, and whether it is the last, are
        read under the lock; then other threads queue `batch` while the packet is sent. */
    method SendHead(batch: seq<Packet>) returns (ret: Ret)
      requires Valid() && connected && queue != []
      modifies this, buffer
      ensures Valid() && (connected <==> ret != LostConnection) && ret != Again
      ensures stream == old(stream) + Stream(batch)
      ensures ret == Success ==> queue == (old(queue) + batch)[1..]
      ensures ret != Success ==> queue == old(queue) + batch
      ensures ret == InvalidPacket ==> !queue[0].complete
      ensures ret == SendBufferTooSmall ==> |queue[0].args| > SEND_BUFFER_SIZE
    {
      var packet, isLast := queue[0], |queue| == 1;
      EnqueueAll(batch);
      ret := IoSend(packet, isLast, stream, start);
      if ret == Success { Dequeue(); }
    }

    /** `_thread_packet_flush`. `arrivals[k]` are the packets other threads queue in round `k`,
        after the head of the queue and whether it is the last were read under the lock. */
    method PacketFlush(arrivals: seq<seq<Packet>>) returns (ret: Ret)
      requires Valid() && connected
      modifies this, buffer
      ensures Valid() && (connected <==> ret != LostConnection)
      ensures old(stream) <= stream
      ensures ret == Success ==> queue == [] && wire == stream
      ensures ret == InvalidPacket ==> queue != [] && !queue[0].complete
      ensures ret == SendBufferTooSmall ==> queue != [] && |queue[0].args| > SEND_BUFFER_SIZE
    {
      if pollOut { return IoWait; }
      var rounds := arrivals;
      while queue != []
        invariant Valid() && connected && old(stream) <= stream
        decreases |rounds|, |queue|
      {
        var batch := if rounds == [] then [] else rounds[0];
        ret := SendHead(batch);
        if ret != Success { return; }
        rounds := if rounds == [] then [] else rounds[1..];
      }
      ret := Success;
    }

    /** `gearmand_io_set_revents`: the socket is writable again. */
    method Writable(more: seq<Outcome>)
      requires Valid()
      modifies this`pollOut, this`script
      ensures Valid() && !pollOut && script == old(script) + more
    {
      pollOut := false;
      script := script + more;
    }
  }
}
