/** The echo server's connection: what has been sent is always the beginning of what has
    been received. */
module Echo {
  import opened Timevals
  import opened Events
  import opened BaseState
  import opened Dispatch
  import opened Evbuffers
  import opened Bufferevents

  const CHUNK := 4096

  /** The three buffers of a connection are different objects with different arrays. */
  ghost predicate Apart(bev: Bufferevent, output_buffer: Evbuffer)
    reads bev, bev.input, bev.output, output_buffer
  {
    && output_buffer != bev.input && output_buffer != bev.output && output_buffer.cb == NoCallback
    && output_buffer.orig_buffer != bev.input.orig_buffer && output_buffer.orig_buffer != bev.output.orig_buffer
  }

  ghost predicate Small(buf: Evbuffer)
    reads buf
  {
    buf.totallen < TOP_SIZE / 4
  }

  lemma Arrays(bev: Bufferevent)
    requires bev.Valid()
    ensures bev.Owned() && bev.Streams()
  {
  }

  /** One turn of the loop: at most 4096 bytes go from the input to `output_buffer`. */
  method MoveChunk(bev: Bufferevent, output_buffer: Evbuffer, data: array<byte>, nbytes: nat, now: Timeval, ok: bool)
    requires bev.Valid() && output_buffer.Valid() && Apart(bev, output_buffer)
    requires data.Length == CHUNK && nbytes <= CHUNK && nbytes <= bev.input.off
    requires data != bev.input.orig_buffer && data != bev.output.orig_buffer && data != output_buffer.orig_buffer
    requires output_buffer.misalign + output_buffer.off + nbytes <= TOP_SIZE
    modifies bev`ev_read, bev`read_lapsed, bev`misjudged, bev`consumed, bev.input`off, bev.input`buffer, bev.input`misalign, bev.input`cb, data
    modifies output_buffer, output_buffer.orig_buffer
    ensures bev.Valid() && output_buffer.Valid() && Apart(bev, output_buffer)
    ensures output_buffer.orig_buffer == old(output_buffer.orig_buffer) || fresh(output_buffer.orig_buffer)
    ensures bev.input.off == old(bev.input.off) - nbytes && output_buffer.off == old(output_buffer.off) + nbytes
    ensures output_buffer.misalign <= old(output_buffer.misalign)
    ensures exists chunk: seq<byte> :: |chunk| == nbytes && bev.consumed == old(bev.consumed) + chunk
                                       && output_buffer.Contents() == old(output_buffer.Contents()) + chunk
  {
    hide Bufferevent.Valid, IsSize, Evbuffer.Contents;
    Arrays(bev);
    var n := bev.Consume(data, nbytes, now, ok);
    Arrays(bev);
    ghost var chunk := data[0 .. 0 + nbytes];
    assert chunk == data[..n];
    var res, notice := output_buffer.Add(data, 0, nbytes, true);
    Arrays(bev);
  }

  /** The loop of buffered_on_read. */
  method MoveAll(bev: Bufferevent, output_buffer: Evbuffer, now: Timeval, ok: bool)
    requires bev.Valid() && output_buffer.Valid() && Apart(bev, output_buffer)
    requires bev.input.off < 0x8000_0000 && output_buffer.off <= 0x8000_0000 && Small(output_buffer)
    modifies bev`ev_read, bev`read_lapsed, bev`misjudged, bev`consumed, bev.input`off, bev.input`buffer, bev.input`misalign, bev.input`cb
    modifies output_buffer, output_buffer.orig_buffer
    ensures bev.Valid() && output_buffer.Valid() && Apart(bev, output_buffer) && bev.input.off == 0
    ensures output_buffer.orig_buffer == old(output_buffer.orig_buffer) || fresh(output_buffer.orig_buffer)
    ensures output_buffer.off == old(output_buffer.off + bev.input.off)
    ensures old(bev.written + output_buffer.Contents() == bev.consumed) ==> bev.written + output_buffer.Contents() == bev.consumed
  {
    hide Bufferevent.Valid, IsSize, Evbuffer.Contents, Int32;
    ghost var linked := bev.written + output_buffer.Contents() == bev.consumed;
    Arrays(bev);
    var data := new byte[CHUNK](_ => 0);
    var nbytes := Int32(bev.input.off);
    while nbytes > 0
      invariant bev.Valid() && output_buffer.Valid() && Apart(bev, output_buffer) && nbytes == bev.input.off
      invariant data != bev.input.orig_buffer && data != bev.output.orig_buffer && data != output_buffer.orig_buffer
      invariant output_buffer.orig_buffer == old(output_buffer.orig_buffer) || fresh(output_buffer.orig_buffer)
      invariant output_buffer.misalign <= old(output_buffer.misalign)
      invariant output_buffer.off + bev.input.off == old(output_buffer.off + bev.input.off)
      invariant linked ==> bev.written + output_buffer.Contents() == bev.consumed
      decreases nbytes
    {
      Arrays(bev);
      if nbytes > CHUNK {
        nbytes := CHUNK;
      }
      ghost var was := output_buffer.Contents();
      MoveChunk(bev, output_buffer, data, nbytes, now, ok);
      assert forall chunk :: bev.written + (was + chunk) == (bev.written + was) + chunk;
      Arrays(bev);
      nbytes := Int32(bev.input.off);
    }
  }

  /** buffered_on_read: all input goes, chunk by chunk, to `output_buffer`, whose allocations
      succeed, and from there to the output. */
  method BufferedOnRead(bev: Bufferevent, output_buffer: Evbuffer, granted: bool, now: Timeval, ok: bool) returns (res: int)
    requires bev.Valid() && output_buffer.Valid() && Apart(bev, output_buffer)
    requires bev.input.off < 0x8000_0000 && output_buffer.off <= 0x8000_0000 && Small(bev.output) && Small(output_buffer)
    modifies bev`ev_read, bev`ev_write, bev`read_lapsed, bev`write_lapsed, bev`misjudged, bev`consumed, bev`written, bev.input`off, bev.input`buffer, bev.input`misalign, bev.input`cb
    modifies bev.output, bev.output.orig_buffer, output_buffer, output_buffer.orig_buffer
    ensures bev.Valid() && output_buffer.Valid() && Apart(bev, output_buffer) && bev.input.off == 0
    ensures output_buffer.orig_buffer == old(output_buffer.orig_buffer) || fresh(output_buffer.orig_buffer)
    ensures bev.output.orig_buffer == old(bev.output.orig_buffer) || fresh(bev.output.orig_buffer)
    ensures old(bev.written + output_buffer.Contents() == bev.consumed) ==>
              bev.written + output_buffer.Contents() == bev.consumed && bev.consumed == bev.received
    ensures (res == 0 || res == -1) && (granted ==> res == 0) && (res == 0 ==> output_buffer.off == 0)
    ensures bev.enabled == old(bev.enabled)
    ensures bev.ev_write == if res == 0 && old(output_buffer.off + bev.input.off) > 0 && Write in bev.enabled
                            then bev.WriteAdded(old(bev.ev_write), now, ok) else old(bev.ev_write)
  {
    hide Bufferevent.Valid, IsSize, Evbuffer.Contents, Int32;
    Arrays(bev);
    MoveAll(bev, output_buffer, now, ok);
    Arrays(bev);
    ghost var held := output_buffer.Contents();
    res := bev.WriteBuffer(output_buffer, granted, now, ok);
    Emptied(bev);
    assert bev.written + output_buffer.Contents() == old(bev.written) + held;
  }

  /** Once the input is empty, everything received has been consumed. */
  lemma Emptied(bev: Bufferevent)
    requires bev.Valid() && bev.input.off == 0
    ensures bev.consumed == bev.received
  {
    assert bev.input.Contents() == [];
  }

  // ----- a whole connection -----

  /** What befalls the connection: its descriptor is reported or a deadline passes, and the
      event is served; the calls its callback makes answer so. */
  datatype Fire =
    | ReadFire(expired: bool, ok: bool, ioctl: Option<int>, granted: bool, fails: bool, again: bool, stream: seq<byte>, most: nat,
               written: bool)
    | WriteFire(expired: bool, ok: bool, writeFails: bool, writeAgain: bool, writeMost: nat)

  ghost predicate Connected(bev: Bufferevent, output_buffer: Evbuffer)
    reads bev, bev.input, bev.input.orig_buffer, bev.output, bev.output.orig_buffer, output_buffer, output_buffer.orig_buffer
  {
    && bev.Valid() && output_buffer.Valid() && Apart(bev, output_buffer)
    && bev.written + output_buffer.Contents() == bev.consumed
  }

  /** The base makes the event active; nothing happens if it does not wait for that. */
  method Activate(bev: Bufferevent, fire: Fire) returns (active: bool)
    requires bev.Valid()
    modifies bev`ev_read, bev`ev_write, bev`read_lapsed, bev`write_lapsed
    ensures bev.Valid() && (active ==> Active in (if fire.ReadFire? then bev.ev_read else bev.ev_write).flags)
    ensures if fire.ReadFire? then bev.ev_write == old(bev.ev_write) else bev.ev_read == old(bev.ev_read)
    ensures fire.ReadFire? && !fire.expired && old(Inserted in bev.ev_read.flags) ==>
              active && bev.ev_read == Fired(old(bev.ev_read), {Read})
    ensures fire.WriteFire? && !fire.expired && old(Inserted in bev.ev_write.flags) ==>
              active && bev.ev_write == Fired(old(bev.ev_write), {Write})
  {
    hide Evbuffer.Contents, IsSize;
    match fire {
      case ReadFire(expired, _, _, _, _, _, _, _, _) =>
        if expired && Timeout in bev.ev_read.flags {
          bev.ReadExpires();
        } else if !expired && Inserted in bev.ev_read.flags {
          bev.ReadReady();
        }
        active := Active in bev.ev_read.flags;
      case WriteFire(expired, _, _, _, _) =>
        if expired && Timeout in bev.ev_write.flags {
          bev.WriteExpires();
        } else if !expired && Inserted in bev.ev_write.flags {
          bev.WriteReady();
        }
        active := Active in bev.ev_write.flags;
    }
  }

  /** readcb, and buffered_on_read or buffered_on_error after it. */
  method ServeRead(bev: Bufferevent, output_buffer: Evbuffer, fire: Fire, now: Timeval) returns (closed: bool)
    requires Connected(bev, output_buffer) && fire.ReadFire? && Active in bev.ev_read.flags
    requires fire.ioctl.Some? ==> fire.ioctl.value < 0x8000_0000
    requires bev.input.off < 0x8000_0000 && output_buffer.off <= 0x8000_0000
    requires Small(bev.input) && Small(bev.output) && Small(output_buffer)
    modifies bev`ev_read, bev`ev_write, bev`read_lapsed, bev`write_lapsed, bev`misjudged, bev`untold
    modifies bev`consumed, bev`written, bev`received, bev`read_failed
    modifies bev.input, bev.input.orig_buffer, bev.output, bev.output.orig_buffer, output_buffer, output_buffer.orig_buffer
    ensures Connected(bev, output_buffer)
    ensures bev.input.orig_buffer == old(bev.input.orig_buffer) || fresh(bev.input.orig_buffer)
    ensures bev.output.orig_buffer == old(bev.output.orig_buffer) || fresh(bev.output.orig_buffer)
    ensures output_buffer.orig_buffer == old(output_buffer.orig_buffer) || fresh(output_buffer.orig_buffer)
    ensures old(Reads(bev, fire) && bev.ev_read.res != {TimedOut}) ==>
              var k := old(Taken(bev.input, fire));
              && !closed && 0 < k <= |fire.stream| && bev.received == old(bev.received) + fire.stream[..k]
              && bev.input.off == output_buffer.off == 0 && bev.written == bev.received
              && bev.ev_write == if Write in bev.enabled then bev.WriteAdded(old(bev.ev_write), now, fire.ok) else old(bev.ev_write)
  {
    hide Bufferevent.Valid, IsSize, Grows, Evbuffer.Contents, Int32, Right, Howmuch, AfterAdd, AfterDel, Refusable, Got;
    Arrays(bev);
    closed := false;
    if Reads(bev, fire) { SomeTaken(bev.input, fire); }
    var call, taken := bev.FireRead(now, fire.ok, fire.ioctl, fire.granted, fire.fails, fire.again, fire.stream, fire.most);
    Arrays(bev);
    if call == UserRead {
      if bev.input.off < 0x8000_0000 {
        var res := BufferedOnRead(bev, output_buffer, fire.written, now, fire.ok);
        closed := res != 0;
        if res == 0 { AllWritten(bev, output_buffer); }
      } else {
        closed := true;
      }
    } else if call.UserError? {
      closed := true;
    }
  }

  /** Once both buffers on the way are empty, what has been received has been written. */
  lemma AllWritten(bev: Bufferevent, output_buffer: Evbuffer)
    requires Connected(bev, output_buffer) && output_buffer.off == 0 && bev.input.off == 0
    ensures bev.written == bev.received
  {
    hide IsSize;
    Emptied(bev);
    assert output_buffer.Contents() == [];
  }

  lemma SomeTaken(input: Evbuffer, fire: Fire)
    requires fire.ReadFire? && fire.granted && !fire.fails && fire.most > 0 && fire.stream != []
    requires fire.ioctl.Some? ==> fire.ioctl.value < 0x8000_0000
    ensures 0 < Taken(input, fire) <= |fire.stream| && Taken(input, fire) < 0x8000_0000
  {
    hide ReadSize;
    ReadSizeBounds(input.totallen, fire.ioctl, -1);
  }

  /** buffered_on_read as readcb, buffered_on_write as writecb, buffered_on_error as errorcb. */
  method Serve(bev: Bufferevent, output_buffer: Evbuffer, fire: Fire, now: Timeval) returns (closed: bool)
    requires Connected(bev, output_buffer)
    requires fire.ReadFire? && fire.ioctl.Some? ==> fire.ioctl.value < 0x8000_0000
    requires fire.ReadFire? ==> bev.input.off < 0x8000_0000 && output_buffer.off <= 0x8000_0000
    requires fire.ReadFire? ==> Small(bev.input) && Small(bev.output) && Small(output_buffer)
    modifies bev`ev_read, bev`ev_write, bev`read_lapsed, bev`write_lapsed, bev`misjudged, bev`untold
    modifies bev`consumed, bev`written, bev`received, bev`sent, bev`read_failed, bev`write_failed
    modifies bev.input, bev.input.orig_buffer, bev.output, bev.output.orig_buffer, output_buffer, output_buffer.orig_buffer
    ensures Connected(bev, output_buffer)
    ensures bev.input.orig_buffer == old(bev.input.orig_buffer) || fresh(bev.input.orig_buffer)
    ensures bev.output.orig_buffer == old(bev.output.orig_buffer) || fresh(bev.output.orig_buffer)
    ensures output_buffer.orig_buffer == old(output_buffer.orig_buffer) || fresh(output_buffer.orig_buffer)
    ensures old(fire.ReadFire? && !fire.expired && Ready(bev.ev_read) && Reads(bev, fire)) ==>
              var k := old(Taken(bev.input, fire));
              && !closed && 0 < k <= |fire.stream| && bev.received == old(bev.received) + fire.stream[..k]
              && bev.input.off == output_buffer.off == 0 && bev.written == bev.received && bev.sent == old(bev.sent)
              && bev.ev_write == if Write in bev.enabled then bev.WriteAdded(old(bev.ev_write), now, fire.ok) else old(bev.ev_write)
    ensures old(fire.WriteFire? && !fire.expired && Ready(bev.ev_write)) ==>
              var given := if fire.writeFails then 0 else Least(fire.writeMost, old(bev.output.off));
              && bev.sent == old(bev.sent) + old(bev.output.Contents())[..given] && bev.received == old(bev.received)
              && (closed <==> old(bev.output.off) != 0 && given == 0 && !(fire.writeFails && fire.writeAgain))
  {
    hide Bufferevent.Valid, IsSize, Evbuffer.Contents, Int32, AfterAdd, AfterDel, Refusable, Reads, Taken, Least, Fired;
    Arrays(bev);
    closed := false;
    FiredReady(bev.ev_read, Read);
    FiredReady(bev.ev_write, Write);
    label Before:
    var active := Activate(bev, fire);
    Arrays(bev);
    if !active {
      return;
    }
    if fire.ReadFire? {
      StillReads@Before(bev, fire);
      closed := ServeRead(bev, output_buffer, fire, now);
    } else {
      var call, given := bev.FireWrite(now, fire.ok, fire.writeFails, fire.writeAgain, fire.writeMost);
      Arrays(bev);
      closed := call.UserError?;
    }
  }

  /** An idle event that waits for its descriptor. */
  predicate Ready(ev: Ev) {
    Inserted in ev.flags && Active !in ev.flags
  }

  lemma FiredReady(ev: Ev, what: What)
    ensures Ready(ev) ==> Fired(ev, {what}).res == {what}
  {
  }

  /** Bytes wait, and nothing stands in the way of reading them and passing them on. */
  ghost predicate Reads(bev: Bufferevent, fire: Fire)
    reads bev, bev.input
  {
    && fire.ReadFire? && fire.granted && !fire.fails && fire.most > 0 && fire.stream != [] && fire.written
    && bev.has_readcb && bev.wm_read_low == bev.wm_read_high == 0 && bev.input.off == 0
  }

  twostate lemma StillReads(bev: Bufferevent, new fire: Fire)
    requires unchanged(bev`wm_read_low, bev`wm_read_high) && unchanged(bev.input)
    ensures Reads(bev, fire) == old(Reads(bev, fire)) && (fire.ReadFire? ==> Taken(bev.input, fire) == old(Taken(bev.input, fire)))
  {
  }

  /** How many bytes that read takes: those that wait, but no more than read and evbuffer_read
      are good for. */
  ghost function Taken(input: Evbuffer, fire: Fire): int
    reads input
    requires fire.ReadFire?
  {
    Got(input.totallen, input.misalign + input.off, input.misalign, fire.ioctl, -1, fire.granted, fire.fails, |fire.stream|, fire.most)
  }

  /** The echo: bytes that arrive at an idle connection are all on their way back once the read
      and the write event that it causes have been served. */
  method Echoed(bev: Bufferevent, output_buffer: Evbuffer, r: Fire, w: Fire, now: Timeval)
    requires Connected(bev, output_buffer) && Small(bev.input) && Small(bev.output) && Small(output_buffer)
    requires r.ReadFire? && !r.expired && r.ok && Reads(bev, r) && (r.ioctl.Some? ==> r.ioctl.value < 0x8000_0000)
    requires Ready(bev.ev_read) && Active !in bev.ev_write.flags && Write in bev.enabled
    requires output_buffer.off == bev.output.off == 0
    requires w.WriteFire? && !w.expired && !w.writeFails && w.writeMost >= |r.stream|
    modifies bev, bev.input, bev.input.orig_buffer, bev.output, bev.output.orig_buffer, output_buffer, output_buffer.orig_buffer
    ensures Connected(bev, output_buffer) && old(Taken(bev.input, r)) > 0
    ensures bev.sent == bev.received == old(bev.received) + r.stream[..old(Taken(bev.input, r))]
  {
    hide Bufferevent.Valid, Connected, IsSize, Evbuffer.Contents, Int32, Refusable, Reads, Taken, AfterAdd, AfterDel;
    AllSent(bev, output_buffer, r);
    ghost var was, more := bev.received, r.stream[..Taken(bev.input, r)];
    AddedReady(bev.ev_write, bev.timeout_write, now);
    var closed := Serve(bev, output_buffer, r, now);
    OutputIs(bev, output_buffer, was, more);
    closed := Serve(bev, output_buffer, w, now);
    assert more[..|more|] == more;
  }

  /** Over any sequence of reads, partial writes, retries and failures, until the connection
      is closed or a buffer outgrows an int: what has been sent is a beginning of what has
      been received, and the rest is in the three buffers, in order. */
  method Session(bev: Bufferevent, output_buffer: Evbuffer, fires: seq<Fire>, now: Timeval)
    requires Connected(bev, output_buffer)
    requires forall f | f in fires :: f.ReadFire? && f.ioctl.Some? ==> f.ioctl.value < 0x8000_0000
    modifies bev, bev.input, bev.input.orig_buffer, bev.output, bev.output.orig_buffer, output_buffer, output_buffer.orig_buffer
    ensures Connected(bev, output_buffer)
    ensures bev.sent + bev.output.Contents() + output_buffer.Contents() + bev.input.Contents() == bev.received
    ensures bev.sent <= bev.received
  {
    hide Connected, IsSize, Evbuffer.Contents, Int32, Bufferevent.Valid;
    var i := 0;
    var closed := false;
    while i < |fires| && !closed
      invariant Connected(bev, output_buffer)
      invariant bev.input.orig_buffer == old(bev.input.orig_buffer) || fresh(bev.input.orig_buffer)
      invariant bev.output.orig_buffer == old(bev.output.orig_buffer) || fresh(bev.output.orig_buffer)
      invariant output_buffer.orig_buffer == old(output_buffer.orig_buffer) || fresh(output_buffer.orig_buffer)
      decreases |fires| - i
    {
      if bev.input.off >= 0x8000_0000 || output_buffer.off > 0x8000_0000 || bev.input.totallen >= TOP_SIZE / 4
         || bev.output.totallen >= TOP_SIZE / 4 || output_buffer.totallen >= TOP_SIZE / 4 {
        break;
      }
      closed := Serve(bev, output_buffer, fires[i], now);
      i := i + 1;
    }
    InOrder(bev, output_buffer);
  }

  lemma InOrder(bev: Bufferevent, output_buffer: Evbuffer)
    requires Connected(bev, output_buffer)
    ensures bev.Owned() && output_buffer.Valid()
    ensures bev.sent + bev.output.Contents() + output_buffer.Contents() + bev.input.Contents() == bev.received
    ensures bev.sent <= bev.received
  {
    hide Evbuffer.Contents, IsSize;
    var a, b, c, d := bev.sent, bev.output.Contents(), output_buffer.Contents(), bev.input.Contents();
    assert a + b == bev.written && (a + b) + c == bev.consumed && ((a + b) + c) + d == bev.received;
    assert a + (b + c + d) == bev.received;
  }

  lemma AllSent(bev: Bufferevent, output_buffer: Evbuffer, r: Fire)
    requires Connected(bev, output_buffer) && output_buffer.off == bev.output.off == 0 && Reads(bev, r)
    requires r.ioctl.Some? ==> r.ioctl.value < 0x8000_0000
    ensures bev.sent == bev.received && bev.ev_write.events == {Write} && bev.input.off == 0 && 0 < Taken(bev.input, r) <= |r.stream|
  {
    hide IsSize, Got;
    SomeTaken(bev.input, r);
    AllWritten(bev, output_buffer);
    assert bev.output.Contents() == [];
  }

  lemma AddedReady(ev: Ev, timeout: int, now: Timeval)
    requires Active !in ev.flags && ev.events == {Write}
    ensures Ready(AfterAdd(ev, timeout, now))
  {
    assert Write in ev.events * (IO_EVENTS + {Signal});
    assert Inserted !in ev.flags ==> ev.flags * {Inserted, Active} == {};
  }

  lemma OutputIs(bev: Bufferevent, output_buffer: Evbuffer, was: seq<byte>, more: seq<byte>)
    requires Connected(bev, output_buffer) && bev.written == was + more && bev.sent == was
    ensures bev.Owned() && bev.output.Contents() == more && bev.output.off == |more|
  {
    hide Evbuffer.Contents, IsSize;
    var held := bev.output.Contents();
    assert was + held == was + more;
    assert (was + held)[|was|..] == held && (was + more)[|was|..] == more;
  }
}
