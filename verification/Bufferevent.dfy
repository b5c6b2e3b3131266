/** `struct bufferevent`: two byte buffers between a descriptor and the program, filled and
    emptied by two events that the watermarks suspend and resume. */
module Bufferevents {
  import opened Timevals
  import opened Events
  import opened Epoll
  import opened BaseState
  import opened BaseInv
  import opened BaseEffects
  import opened Timeouts
  import opened Dispatch
  import opened Evbuffers

  // ----- the events -----

  /** The descriptor is watched for the event, or its callback is due. */
  predicate Watched(ev: Ev) {
    Inserted in ev.flags || Active in ev.flags
  }

  /** event_pending(ev, what, NULL) */
  predicate Pending(ev: Ev, what: What) {
    (Inserted in ev.flags && what in ev.events) || (Active in ev.flags && what in ev.res)
  }

  /** bufferevent_add, when event_add has what it needs: no deadline for a timeout of 0. */
  function AfterAdd(ev: Ev, timeout: int, now: Timeval): Ev {
    if timeout != 0 then Timed(Joined(ev), Timeval(timeout, 0), now) else Joined(ev)
  }

  /** event_add asks for memory, or the kernel's consent. */
  predicate Refusable(ev: Ev, timeout: int) {
    (timeout != 0 && Timeout !in ev.flags) || Wants(ev)
  }

  function AfterDel(ev: Ev): Ev {
    ev.(flags := ev.flags - QUEUES)
  }

  /** event_add takes back the activation by a timeout of an event that is not inserted. */
  predicate Retimes(ev: Ev, timeout: int) {
    timeout != 0 && Active in ev.flags && TimedOut in ev.res && Inserted !in ev.flags
  }

  /** After event_add the descriptor is watched, or the callback due, with this one exception. */
  lemma AddWatches(ev: Ev, timeout: int, now: Timeval)
    requires ev.events == {Read} || ev.events == {Write}
    ensures AfterAdd(ev, timeout, now).events == ev.events
    ensures Watched(AfterAdd(ev, timeout, now)) <==> !Retimes(ev, timeout)
    ensures Retimes(ev, timeout) ==> Timeout in AfterAdd(ev, timeout, now).flags
    ensures Refusable(ev, timeout) <==> (timeout != 0 && Timeout !in ev.flags) || (Inserted !in ev.flags && Active !in ev.flags)
  {
    WantedIs(ev);
    assert (if Read in ev.events then Read else Write) in ev.events * IO_EVENTS;
    ScheduledFlags(ev, if timeout != 0 then Some(Timeval(timeout, 0)) else None, now);
  }

  lemma WantedIs(ev: Ev)
    requires ev.events == {Read} || ev.events == {Write}
    ensures Wants(ev) <==> Inserted !in ev.flags && Active !in ev.flags
  {
    assert (if Read in ev.events then Read else Write) in ev.events * (IO_EVENTS + {Signal});
    assert Inserted in ev.flags ==> Inserted in ev.flags * {Inserted, Active};
    assert Active in ev.flags ==> Active in ev.flags * {Inserted, Active};
  }

  /** These are the fields an event base leaves of the two events: after event_add and
      event_del, when their deadline passes, and when epoll reports their descriptor. */
  lemma OnABase(s: State, e: Event, timeout: int, env: Env)
    requires Inv(s) && AddOk(s, e) && (s.evs[e].events == {Read} || s.evs[e].events == {Write})
    ensures var tv := if timeout != 0 then Some(Timeval(timeout, 0)) else None;
            var (s', r) := Add(s, e, tv, env);
            && Of(s', e) == (if r == 0 then AfterAdd(s.evs[e], timeout, env.now) else s.evs[e])
            && (r != 0 ==> Refusable(s.evs[e], timeout))
    ensures Of(Del(s, e).0, e) == AfterDel(s.evs[e])
    ensures Of(Expire(s, e), e) == Expired(s.evs[e])
    ensures forall rs :: ReportAll(s, rs).evs.Keys == s.evs.Keys && Of(ReportAll(s, rs), e) == Fired(s.evs[e], Reasons(s, e, rs))
  {
    hide Core, Slots, Signals, SelfPipe, Agree, Add, Del, Off, Joined, Timed, PollAdd, FreeFor, Wants, ReportAll, Reasons, Fired, Expire;
    var tv := if timeout != 0 then Some(Timeval(timeout, 0)) else None;
    AddEffect(s, e, tv, env);
    DelInv(s, e);
    CoreOf(s);
    ExpireEffect(s, e);
    forall rs ensures ReportAll(s, rs).evs.Keys == s.evs.Keys && Of(ReportAll(s, rs), e) == Fired(s.evs[e], Reasons(s, e, rs)) {
      ReportAllEffect(s, rs);
    }
  }

  // ----- int howmuch = high - off -----

  /** The subtraction is done in size_t and the result kept in an int. */
  function Howmuch(high: nat, off: nat): int {
    Int32((high - off) % SIZE_T)
  }

  /** howmuch tells a mark that is reached from one that is not. */
  predicate Right(high: nat, off: nat) {
    Howmuch(high, off) <= 0 <==> off >= high
  }

  /** The test howmuch <= 0 tells whether the mark is reached exactly if the difference is
      not one that an int turns around. */
  lemma HowmuchExactly(high: nat, off: nat)
    requires high < SIZE_T && off < SIZE_T
    ensures Right(high, off) <==>
            if off < high then 0 < (high - off) % 0x1_0000_0000 < 0x8000_0000
                 else (high - off) % 0x1_0000_0000 == 0 || (high - off) % 0x1_0000_0000 >= 0x8000_0000
  {
    var d := (high - off) % SIZE_T;
    ModMod(high - off);
    var m := (high - off) % 0x1_0000_0000;
    assert Howmuch(high, off) == if m < 0x8000_0000 then m else m - 0x1_0000_0000 by { Int32Mod(d); }
  }

  lemma ModMod(n: int)
    ensures n % SIZE_T % 0x1_0000_0000 == n % 0x1_0000_0000
  {
    var q := n / SIZE_T;
    assert n == q * SIZE_T + n % SIZE_T;
    assert n == (q * 0x1_0000_0000) * 0x1_0000_0000 + n % SIZE_T;
    ModPlus(n % SIZE_T, q * 0x1_0000_0000);
  }

  lemma ModPlus(a: int, k: int)
    ensures (k * 0x1_0000_0000 + a) % 0x1_0000_0000 == a % 0x1_0000_0000
  {
  }

  lemma Int32Mod(n: int)
    ensures Int32(n) == if n % 0x1_0000_0000 < 0x8000_0000 then n % 0x1_0000_0000 else n % 0x1_0000_0000 - 0x1_0000_0000
  {
  }

  /** howmuch never lets readcb ask for more than the mark leaves room for, if it is right. */
  lemma HowmuchBelow(high: nat, off: nat)
    requires high < SIZE_T
    ensures off < high ==> Howmuch(high, off) <= high - off
  {
    if off < high {
      Int32Mod(high - off);
    }
  }

  /** With a high mark of 2^31 the first read event suspends reading of an empty buffer. */
  lemma HugeMarkSuspends()
    ensures Howmuch(0x8000_0000, 0) <= 0
  {
  }

  // ----- watermarks -----

  predicate Reached(high: nat, off: nat) {
    high != 0 && off >= high
  }

  /** The test before readcb: wm_read.low == 0 || len >= wm_read.low */
  predicate Tells(low: nat, off: nat) {
    low == 0 || off >= low
  }

  /** A buffer that holds reading up is full enough for the program to have been told, whatever
      it holds, exactly if the low mark is not above the high one. */
  lemma HeldUpIsTold(low: nat, high: nat)
    ensures (forall off: nat :: Reached(high, off) ==> Tells(low, off)) <==> high == 0 || low <= high
  {
    assert high != 0 ==> Reached(high, high);
  }

  // ----- the bufferevent -----

  /** EVBUFFER_* */
  datatype Cause = Reading | Writing | Eof | Failure | TimedOutCause

  /** The program's function that a callback ends in; nothing happens after it. */
  datatype Call = NoCall | UserRead | UserWrite | UserError(what: set<Cause>)

  class Bufferevent {
    const input: Evbuffer
    const output: Evbuffer
    var ev_read: Ev
    var ev_write: Ev
    var enabled: set<What>
    var wm_read_low: size_t
    var wm_read_high: size_t
    var wm_write_low: size_t
    var wm_write_high: size_t
    var timeout_read: int
    var timeout_write: int
    const has_readcb: bool
    const has_writecb: bool

    // An error was reported, and the direction has not been enabled since.
    ghost var read_failed: bool
    ghost var write_failed: bool
    // The latest event_add was refused, or left a deadline only.
    ghost var read_lapsed: bool
    ghost var write_lapsed: bool
    // Reading is suspended although the mark is not reached: an int was too small.
    ghost var misjudged: bool
    // Bytes have arrived since readcb was last called.
    ghost var untold: bool
    // The marks for reading were set in order, and not so that bytes already there reach the
    // low mark without readcb having been called.
    ghost var fair: bool
    // All bytes read from the descriptor, taken by the program, given by the program, and
    // written to the descriptor.
    ghost var received: seq<byte>
    ghost var consumed: seq<byte>
    ghost var written: seq<byte>
    ghost var sent: seq<byte>

    ghost predicate Owned()
      reads this`ev_read, this`ev_write, input, output
    {
      && input.Valid() && output.Valid() && input != output && input.orig_buffer != output.orig_buffer
      && output.cb == NoCallback && ev_read.events == {Read} && ev_write.events == {Write}
    }

    /** No byte is lost, doubled or out of order on its way. */
    ghost predicate Streams()
      requires input.Valid() && output.Valid()
      reads this`received, this`consumed, this`written, this`sent, input, input.orig_buffer, output, output.orig_buffer
    {
      consumed + input.Contents() == received && sent + output.Contents() == written
    }

    /** The pressure callback is installed only while the high mark is reached, or was taken
        to be. */
    ghost predicate PressureJustified()
      reads this`wm_read_high, this`misjudged, input
    {
      input.cb == Pressure ==> wm_read_high != 0 && (Reached(wm_read_high, input.off) <==> !misjudged)
    }

    /** Reading that is wanted goes on, or is held up until the input buffer is emptied below
        the mark, exactly unless the latest event_add failed to see to that. */
    ghost predicate ReadAlive()
      reads this`enabled, this`read_failed, this`read_lapsed, this`ev_read, input
    {
      Read in enabled && !read_failed ==> (Watched(ev_read) || input.cb == Pressure <==> !read_lapsed)
    }

    /** Output that is wanted is on its way, exactly unless the latest event_add failed. */
    ghost predicate WriteAlive()
      reads this`enabled, this`write_failed, this`write_lapsed, this`ev_write, output
    {
      Write in enabled && !write_failed && output.off != 0 ==> (Watched(ev_write) <==> !write_lapsed)
    }

    /** Bytes the program has not been told of reach neither mark. */
    ghost predicate Informed()
      reads this`fair, this`untold, this`wm_read_low, this`wm_read_high, input
    {
      has_readcb && fair ==> (wm_read_high == 0 || wm_read_low <= wm_read_high) && (untold ==> !Tells(wm_read_low, input.off))
    }

    /** What holds while ev_read's own callback is at work. */
    ghost predicate ReadingNow()
      reads this, input, input.orig_buffer, output, output.orig_buffer
    {
      Owned() && Streams() && PressureJustified() && WriteAlive() && Informed()
    }

    /** And while ev_write's is. */
    ghost predicate WritingNow()
      reads this, input, input.orig_buffer, output, output.orig_buffer
    {
      Owned() && Streams() && PressureJustified() && ReadAlive() && Informed()
    }

    ghost predicate Valid()
      reads this, input, input.orig_buffer, output, output.orig_buffer
    {
      ReadingNow() && ReadAlive()
    }

    /** The arrays stay clear of sizes that no memory has. */
    ghost predicate Roomy()
      reads this, input, output
    {
      input.totallen < TOP_SIZE / 2 && output.totallen < TOP_SIZE / 2
    }

    /** While the marks in force were set fairly, reading is never held up over bytes the
        program has not been told of. */
    lemma ToldBeforeHeldUp()
      requires Valid() && has_readcb && fair && input.cb == Pressure && !misjudged
      ensures !untold
    {
    }

    /** bufferevent_new: only writing is enabled, and there is nothing to write. */
    constructor (fd: nat, pri: nat, has_readcb: bool, has_writecb: bool)
      ensures Valid() && fresh(input) && fresh(output) && fresh(input.orig_buffer) && fresh(output.orig_buffer)
      ensures enabled == {Write} && received == consumed == written == sent == [] && !untold && !read_failed && !misjudged
      ensures this.has_readcb == has_readcb && this.has_writecb == has_writecb && timeout_read == timeout_write == 0
      ensures ev_read == Ev(fd, {Read}, pri, {Init}, Timeval(0, 0), {}, 0, 0) && input.cb == NoCallback
      ensures ev_write == Ev(fd, {Write}, pri, {Init}, Timeval(0, 0), {}, 0, 0)
      ensures wm_read_low == wm_read_high == wm_write_low == wm_write_high == 0
      ensures input.off == input.misalign == input.totallen == output.totallen == 0
    {
      input := new Evbuffer();
      output := new Evbuffer();
      ev_read := Ev(fd, {Read}, pri, {Init}, Timeval(0, 0), {}, 0, 0);
      ev_write := Ev(fd, {Write}, pri, {Init}, Timeval(0, 0), {}, 0, 0);
      enabled := {Write};
      wm_read_low, wm_read_high, wm_write_low, wm_write_high := 0, 0, 0, 0;
      timeout_read, timeout_write := 0, 0;
      this.has_readcb, this.has_writecb := has_readcb, has_writecb;
      read_failed, write_failed, read_lapsed, write_lapsed := false, false, false, false;
      misjudged, untold, fair := false, false, true;
      received, consumed, written, sent := [], [], [], [];
    }

    /** bufferevent_add of ev_read; `ok` is what memory and kernel say if they are asked. */
    method AddRead(now: Timeval, ok: bool) returns (res: int)
      requires Owned() && Streams()
      modifies this`ev_read, this`read_lapsed
      ensures Owned() && Streams() && res == (if ok || !Refusable(old(ev_read), timeout_read) then 0 else -1)
      ensures ev_read == if res == 0 then AfterAdd(old(ev_read), timeout_read, now) else old(ev_read)
      ensures read_lapsed <==> !Watched(ev_read) && input.cb != Pressure
      ensures res == 0 ==> (Watched(ev_read) <==> !Retimes(old(ev_read), timeout_read))
    {
      hide Refusable, AfterAdd, Retimes, Watched;
      AddWatches(ev_read, timeout_read, now);
      res := if ok || !Refusable(ev_read, timeout_read) then 0 else -1;
      if res == 0 {
        ev_read := AfterAdd(ev_read, timeout_read, now);
      }
      read_lapsed := !Watched(ev_read) && input.cb != Pressure;
    }

    method AddWrite(now: Timeval, ok: bool) returns (res: int)
      requires Owned() && Streams()
      modifies this`ev_write, this`write_lapsed
      ensures Owned() && Streams() && res == (if ok || !Refusable(old(ev_write), timeout_write) then 0 else -1)
      ensures ev_write == if res == 0 then AfterAdd(old(ev_write), timeout_write, now) else old(ev_write)
      ensures write_lapsed <==> !Watched(ev_write)
      ensures res == 0 ==> (Watched(ev_write) <==> !Retimes(old(ev_write), timeout_write))
    {
      hide Refusable, AfterAdd, Retimes, Watched;
      AddWatches(ev_write, timeout_write, now);
      res := if ok || !Refusable(ev_write, timeout_write) then 0 else -1;
      if res == 0 {
        ev_write := AfterAdd(ev_write, timeout_write, now);
      }
      write_lapsed := !Watched(ev_write);
    }

    /** What bufferevent_add makes of the two events. */
    ghost function ReadAdded(ev: Ev, now: Timeval, ok: bool): Ev
      reads this
    {
      if ok || !Refusable(ev, timeout_read) then AfterAdd(ev, timeout_read, now) else ev
    }

    ghost function WriteAdded(ev: Ev, now: Timeval, ok: bool): Ev
      reads this
    {
      if ok || !Refusable(ev, timeout_write) then AfterAdd(ev, timeout_write, now) else ev
    }

    /** What it comes to when bytes have arrived: if the pressure callback was installed it
        runs first, and may add the event as well. */
    ghost function Rearmed(cb: Callback, ev: Ev, now: Timeval, ok: bool): Ev
      reads this, input
    {
      ReadAdded(if cb == Pressure && !Reached(wm_read_high, input.off) && Read in enabled then ReadAdded(ev, now, ok) else ev, now, ok)
    }

    /** And after the look at the watermarks. */
    ghost predicate Marked(cb: Callback, ev: Ev, now: Timeval, ok: bool)
      reads this, input
    {
      var full, told := Reached(wm_read_high, input.off), Tells(wm_read_low, input.off);
      && ev_read == (if full && told then AfterDel(Rearmed(cb, ev, now, ok)) else Rearmed(cb, ev, now, ok))
      && input.cb == if full && (told || cb == Pressure) then Pressure else NoCallback
    }

    /** bufferevent_read_pressure_cb; nobody looks at the result of bufferevent_add in it. */
    method PressureCb(off: nat, now: Timeval, ok: bool)
      requires Owned() && Streams() && off == input.off
      modifies this`ev_read, this`read_lapsed, this`misjudged, input`cb
      ensures Owned() && Streams() && (input.cb == Pressure && wm_read_high != 0 ==> PressureJustified())
      ensures old(ReadAlive()) ==> ReadAlive()
      ensures !Reached(wm_read_high, off) ==>
                (input.cb == NoCallback && ev_read == if Read in enabled then ReadAdded(old(ev_read), now, ok) else old(ev_read))
      ensures Reached(wm_read_high, off) ==> ev_read == old(ev_read) && input.cb == old(input.cb) && !misjudged
    {
      hide IsSize, Refusable, AfterAdd, Retimes, Watched;
      if wm_read_high == 0 || off < wm_read_high {
        input.cb := NoCallback;
        if Read in enabled {
          var r := AddRead(now, ok);
        }
      } else {
        misjudged := false;
      }
    }

    /** The call of the input buffer's callback that `notice` asks for. */
    method Tell(notice: Notice, now: Timeval, ok: bool)
      requires Owned() && Streams() && WriteAlive() && ReadAlive() && Informed()
      requires notice == NoNotice ==> PressureJustified()
      requires notice.Changed? ==> notice.now == input.off && input.cb == Pressure && wm_read_high != 0
      modifies this`ev_read, this`read_lapsed, this`misjudged, input`cb
      ensures Valid()
      ensures if notice.Changed? && !Reached(wm_read_high, input.off)
              then input.cb == NoCallback && ev_read == if Read in enabled then ReadAdded(old(ev_read), now, ok) else old(ev_read)
              else input.cb == old(input.cb) && ev_read == old(ev_read)
    {
      hide IsSize, Refusable, AfterAdd, Retimes, Watched;
      match notice {
        case NoNotice =>
        case Changed(_, off) => PressureCb(off, now, ok);
      }
    }

    method Suspend()
      requires Owned() && Streams()
      modifies this`ev_read, this`read_lapsed, this`misjudged, input`cb
      ensures Owned() && Streams() && input.cb == Pressure && ev_read == AfterDel(old(ev_read)) && !Watched(ev_read)
      ensures !read_lapsed && (misjudged <==> !Reached(wm_read_high, input.off))
    {
      DelUnwatches(ev_read);
      ev_read := AfterDel(ev_read);
      input.cb := Pressure;
      read_lapsed, misjudged := false, !Reached(wm_read_high, input.off);
    }

    /** evbuffer_read into the input buffer. */
    method Fetch(howmuch: int, ioctl: Option<int>, granted: bool, fails: bool, stream: seq<byte>, most: nat)
      returns (res: int, notice: Notice)
      requires Owned() && Streams() && Roomy() && (ioctl.Some? ==> ioctl.value < 0x8000_0000) && howmuch != 0
      modifies this`received, input, input.orig_buffer
      ensures Owned() && Streams() && input.cb == old(input.cb)
      ensures input.orig_buffer == old(input.orig_buffer) || fresh(input.orig_buffer)
      ensures -1 <= res <= |stream| && (howmuch >= 0 ==> res <= howmuch)
      ensures received == old(received) + (if res > 0 then stream[..res] else [])
      ensures input.off == old(input.off) + if res > 0 then res else 0
      ensures input.misalign <= old(input.misalign)
      ensures Grows(old(input.totallen), old(input.misalign + input.off) + 0x8000_0000, input.totallen)
      ensures fails ==> res == -1
      ensures granted && !fails ==> res >= 0
      ensures granted && !fails && most > 0 && stream != [] ==> res > 0
      ensures stream == [] ==> res <= 0
      ensures res == old(Got(input.totallen, input.misalign + input.off, input.misalign, ioctl, howmuch, granted, fails, |stream|, most))
      ensures notice == if res > 0 && input.cb != NoCallback then Changed(old(input.off), input.off) else NoNotice
    {
      hide IsSize, Grows, Evbuffer.Contents, Got, Least;
      ghost var held := input.Contents();
      res, notice := input.Read(ioctl, howmuch, granted, fails, stream, most);
      if res > 0 {
        received := received + stream[..res];
        Appended(consumed, held, stream[..res]);
      }
      assert received == old(received) + (if res > 0 then stream[..res] else []);
    }

    /** bufferevent_readcb.  `stream` waits on the descriptor; see Evbuffer.Read for the rest.
        `again` says that errno is EAGAIN or EINTR, `ok` whether event_add gets what it asks. */
    method Readcb(event: set<What>, now: Timeval, ok: bool, ioctl: Option<int>, granted: bool, fails: bool, again: bool,
                  stream: seq<byte>, most: nat) returns (call: Call, taken: nat)
      requires ReadingNow() && Roomy() && (ioctl.Some? ==> ioctl.value < 0x8000_0000)
      modifies this`ev_read, this`read_lapsed, this`misjudged, this`untold, this`received, this`read_failed, input, input.orig_buffer
      ensures Valid() && (input.orig_buffer == old(input.orig_buffer) || fresh(input.orig_buffer))
      ensures taken <= |stream| && received == old(received) + stream[..taken] && input.off == old(input.off) + taken
      ensures input.misalign <= old(input.misalign)
      ensures Grows(old(input.totallen), old(input.misalign + input.off) + 0x8000_0000, input.totallen)
      ensures Right(wm_read_high, old(input.off)) && wm_read_high != 0 ==> input.off <= old(input.off) || input.off <= wm_read_high
      ensures read_failed <==> old(read_failed) || call.UserError?
      ensures call == UserRead <==> has_readcb && taken > 0 && Tells(wm_read_low, input.off)
      ensures call != UserWrite && untold == (if taken > 0 then call != UserRead else old(untold))
      ensures event == {TimedOut} ==> call == UserError({Reading, TimedOutCause}) && taken == 0
      ensures event != {TimedOut} && wm_read_high != 0 && Howmuch(wm_read_high, old(input.off)) <= 0 ==>
                taken == 0 && call == NoCall && input.cb == Pressure && !Watched(ev_read)
                && (misjudged <==> !Reached(wm_read_high, input.off))
      ensures event != {TimedOut} && (wm_read_high == 0 || Howmuch(wm_read_high, old(input.off)) > 0) ==>
                && (taken == 0 && !again ==> call.UserError?) && (fails && again ==> call == NoCall)
                && (granted && !fails && stream == [] ==> call == UserError({Reading, Eof}))
                && (granted && !fails && stream != [] && most > 0 ==> taken > 0)
      ensures event != {TimedOut} && (wm_read_high == 0 || Howmuch(wm_read_high, old(input.off)) > 0) ==>
                var res := old(Got(input.totallen, input.misalign + input.off, input.misalign, ioctl, if wm_read_high == 0 then -1 else Howmuch(wm_read_high, input.off), granted, fails, |stream|, most));
                && taken == (if res > 0 then res else 0) && (res == 0 ==> call == UserError({Reading, Eof}))
                && (res == -1 ==> call == if again then NoCall else UserError({Reading, Failure}))
      ensures taken > 0 ==> !call.UserError?
      ensures taken > 0 ==> Marked(old(input.cb), old(ev_read), now, ok)
      ensures call == NoCall && taken == 0 ==>
                if wm_read_high != 0 && Howmuch(wm_read_high, input.off) <= 0 then ev_read == AfterDel(old(ev_read))
                else ev_read == ReadAdded(old(ev_read), now, ok) && input.cb == old(input.cb)
      ensures taken > 0 && old(input.cb) == NoCallback ==>
                (input.cb == Pressure <==> Reached(wm_read_high, input.off) && Tells(wm_read_low, input.off))
                && (input.cb == Pressure ==> !misjudged)
      ensures call.UserError? ==> ev_read == old(ev_read) && input.cb == old(input.cb)
      ensures !call.UserError? && old(input.cb) == NoCallback ==>
                if input.cb == Pressure then !Watched(ev_read) else ev_read == ReadAdded(old(ev_read), now, ok)
    {
      hide Howmuch, IsSize, Grows, Evbuffer.Contents, AfterAdd, AfterDel, Refusable, Retimes, Watched, Streams, Tells, Got, Least, Marked;
      taken := 0;
      assert received + [] == received && stream[..0] == [];
      GrowsNot(input.totallen, input.misalign + input.off + 0x8000_0000);
      if event == {TimedOut} {
        read_failed := true;
        return UserError({Reading, TimedOutCause}), 0;
      }
      var howmuch := -1;
      if wm_read_high != 0 {
        howmuch := Howmuch(wm_read_high, input.off);
        HowmuchBelow(wm_read_high, input.off);
        if howmuch <= 0 {
          Suspend();
          return NoCall, 0;
        }
      }
      call, taken := ReadOn(howmuch, now, ok, ioctl, granted, fails, again, stream, most);
    }

    /** readcb from evbuffer_read on. */
    method ReadOn(howmuch: int, now: Timeval, ok: bool, ioctl: Option<int>, granted: bool, fails: bool, again: bool,
                  stream: seq<byte>, most: nat) returns (call: Call, taken: nat)
      requires ReadingNow() && Roomy() && (ioctl.Some? ==> ioctl.value < 0x8000_0000) && howmuch != 0
      modifies this`ev_read, this`read_lapsed, this`misjudged, this`untold, this`received, this`read_failed, input, input.orig_buffer
      ensures Valid() && (input.orig_buffer == old(input.orig_buffer) || fresh(input.orig_buffer))
      ensures taken <= |stream| && received == old(received) + stream[..taken] && input.off == old(input.off) + taken
      ensures input.misalign <= old(input.misalign) && (howmuch >= 0 ==> taken <= howmuch)
      ensures Grows(old(input.totallen), old(input.misalign + input.off) + 0x8000_0000, input.totallen)
      ensures read_failed <==> old(read_failed) || call.UserError?
      ensures call == UserRead <==> has_readcb && taken > 0 && Tells(wm_read_low, input.off)
      ensures call != UserWrite && untold == (if taken > 0 then call != UserRead else old(untold))
      ensures var res := old(Got(input.totallen, input.misalign + input.off, input.misalign, ioctl, howmuch, granted, fails, |stream|, most));
                && taken == (if res > 0 then res else 0) && (res == 0 ==> call == UserError({Reading, Eof}))
                && (res == -1 ==> call == if again then NoCall else UserError({Reading, Failure}))
      ensures taken == 0 && !again ==> call.UserError?
      ensures fails && again ==> call == NoCall
      ensures granted && !fails && stream == [] ==> call == UserError({Reading, Eof})
      ensures granted && !fails && stream != [] && most > 0 ==> taken > 0
      ensures taken > 0 ==> !call.UserError?
      ensures taken > 0 ==> Marked(old(input.cb), old(ev_read), now, ok)
      ensures call == NoCall && taken == 0 ==> ev_read == ReadAdded(old(ev_read), now, ok) && input.cb == old(input.cb)
      ensures taken > 0 && old(input.cb) == NoCallback ==>
                (input.cb == Pressure <==> Reached(wm_read_high, input.off) && Tells(wm_read_low, input.off))
                && (input.cb == Pressure ==> !misjudged)
      ensures call.UserError? ==> ev_read == old(ev_read) && input.cb == old(input.cb)
      ensures !call.UserError? && old(input.cb) == NoCallback ==>
                if input.cb == Pressure then !Watched(ev_read) else ev_read == ReadAdded(old(ev_read), now, ok)
    {
      hide IsSize, Grows, Evbuffer.Contents, AfterAdd, AfterDel, Refusable, Retimes, Watched, Streams, Tells, Got, Least, Marked;
      assert received + [] == received && stream[..0] == [];
      var res, notice := Fetch(howmuch, ioctl, granted, fails, stream, most);
      if res == -1 && again {
        var r := AddRead(now, ok);
        return NoCall, 0;
      }
      if res <= 0 {
        read_failed := true;
        return UserError(if res == -1 then {Reading, Failure} else {Reading, Eof}), 0;
      }
      taken := res;
      call := Arrived(notice, now, ok);
    }

    /** What readcb does once bytes have arrived: the pressure callback comes first, if it is
        installed in spite of that, and then event_add. */
    method Rearm(notice: Notice, now: Timeval, ok: bool)
      requires Owned() && Streams() && (input.cb == Pressure ==> wm_read_high != 0)
      requires (notice == NoNotice <==> input.cb == NoCallback) && (notice.Changed? ==> notice.now == input.off)
      modifies this`ev_read, this`read_lapsed, this`misjudged, input`cb
      ensures Owned() && Streams() && PressureJustified() && ReadAlive() && (old(input.cb) == NoCallback ==> input.cb == NoCallback)
      ensures old(input.cb) == NoCallback ==> ev_read == ReadAdded(old(ev_read), now, ok)
      ensures ev_read == Rearmed(old(input.cb), old(ev_read), now, ok)
      ensures input.cb == if Reached(wm_read_high, input.off) then old(input.cb) else NoCallback
    {
      hide IsSize, AfterAdd, AfterDel, Refusable, Retimes, Watched, Evbuffer.Contents, Streams;
      if notice.Changed? {
        PressureCb(notice.now, now, ok);
      }
      var r := AddRead(now, ok);
    }

    /** Then comes the look at the watermarks. */
    method Arrived(notice: Notice, now: Timeval, ok: bool) returns (call: Call)
      requires Owned() && Streams() && WriteAlive()
      requires has_readcb && fair ==> wm_read_high == 0 || wm_read_low <= wm_read_high
      requires input.cb == Pressure ==> wm_read_high != 0
      requires (notice == NoNotice <==> input.cb == NoCallback) && (notice.Changed? ==> notice.now == input.off)
      modifies this`ev_read, this`read_lapsed, this`misjudged, this`untold, input`cb
      ensures Valid() && (call == UserRead || call == NoCall) && untold == (call != UserRead)
      ensures call == UserRead <==> has_readcb && Tells(wm_read_low, input.off)
      ensures Marked(old(input.cb), old(ev_read), now, ok)
      ensures old(input.cb) == NoCallback ==>
                (input.cb == Pressure <==> Reached(wm_read_high, input.off) && Tells(wm_read_low, input.off))
                && (input.cb == Pressure ==> !misjudged)
                && if input.cb == Pressure then !Watched(ev_read) else ev_read == ReadAdded(old(ev_read), now, ok)
    {
      hide Streams, ReadAlive, PressureJustified, Informed, AfterAdd, AfterDel, Refusable, Watched, Tells, Evbuffer.Valid;
      Rearm(notice, now, ok);
      call := Look();
    }

    /** len is compared with both marks, and the program told. */
    method Look() returns (call: Call)
      requires Owned() && Streams() && PressureJustified() && ReadAlive() && WriteAlive()
      requires has_readcb && fair ==> wm_read_high == 0 || wm_read_low <= wm_read_high
      modifies this`ev_read, this`read_lapsed, this`misjudged, this`untold, input`cb
      ensures Valid() && (call == UserRead || call == NoCall) && untold == (call != UserRead)
      ensures call == UserRead <==> has_readcb && Tells(wm_read_low, input.off)
      ensures var held := Reached(wm_read_high, input.off) && Tells(wm_read_low, input.off);
              && ev_read == (if held then AfterDel(old(ev_read)) else old(ev_read))
              && input.cb == (if held then Pressure else old(input.cb)) && (held ==> !misjudged && !Watched(ev_read))
    {
      hide Owned, Streams, AfterDel, Watched;
      untold := true;
      var len := input.off;
      if wm_read_low != 0 && len < wm_read_low {
        return NoCall;
      }
      if wm_read_high != 0 && len >= wm_read_high {
        Suspend();
      }
      untold := !has_readcb;
      call := if has_readcb then UserRead else NoCall;
    }

    // ----- what the event base does -----

    /** epoll reports ev_read's descriptor. */
    method ReadReady()
      requires Valid() && Inserted in ev_read.flags
      modifies this`ev_read, this`read_lapsed
      ensures Valid() && ev_read == Fired(old(ev_read), {Read}) && Active in ev_read.flags
    {
      hide IsSize, Evbuffer.Contents;
      ev_read := Fired(ev_read, {Read});
      read_lapsed := false;
    }

    /** The deadline of ev_read has passed. */
    method ReadExpires()
      requires Valid() && Timeout in ev_read.flags
      modifies this`ev_read, this`read_lapsed
      ensures Valid() && ev_read == Expired(old(ev_read)) && Active in ev_read.flags
    {
      hide IsSize, Evbuffer.Contents;
      ev_read := Expired(ev_read);
      read_lapsed := false;
    }

    method WriteReady()
      requires Valid() && Inserted in ev_write.flags
      modifies this`ev_write, this`write_lapsed
      ensures Valid() && ev_write == Fired(old(ev_write), {Write}) && Active in ev_write.flags
    {
      hide IsSize, Evbuffer.Contents;
      ev_write := Fired(ev_write, {Write});
      write_lapsed := false;
    }

    method WriteExpires()
      requires Valid() && Timeout in ev_write.flags
      modifies this`ev_write, this`write_lapsed
      ensures Valid() && ev_write == Expired(old(ev_write)) && Active in ev_write.flags
    {
      hide IsSize, Evbuffer.Contents;
      ev_write := Expired(ev_write);
      write_lapsed := false;
    }

    /** event_process_active serves ev_read: the event is off all structures when its callback
        starts. */
    method FireRead(now: Timeval, ok: bool, ioctl: Option<int>, granted: bool, fails: bool, again: bool, stream: seq<byte>, most: nat)
      returns (call: Call, taken: nat)
      requires Valid() && Roomy() && (ioctl.Some? ==> ioctl.value < 0x8000_0000) && Active in ev_read.flags
      modifies this`ev_read, this`read_lapsed, this`misjudged, this`untold, this`received, this`read_failed, input, input.orig_buffer
      ensures Valid() && (input.orig_buffer == old(input.orig_buffer) || fresh(input.orig_buffer))
      ensures taken <= |stream| && received == old(received) + stream[..taken] && input.off == old(input.off) + taken
      ensures input.misalign <= old(input.misalign)
      ensures Grows(old(input.totallen), old(input.misalign + input.off) + 0x8000_0000, input.totallen)
      ensures Right(wm_read_high, old(input.off)) && wm_read_high != 0 ==> input.off <= old(input.off) || input.off <= wm_read_high
      ensures read_failed <==> old(read_failed) || call.UserError?
      ensures call == UserRead <==> has_readcb && taken > 0 && Tells(wm_read_low, input.off)
      ensures call != UserWrite && untold == (if taken > 0 then call != UserRead else old(untold))
      ensures old(ev_read.res) != {TimedOut} && wm_read_high != 0 && Howmuch(wm_read_high, old(input.off)) <= 0 ==>
                taken == 0 && call == NoCall && input.cb == Pressure && !Watched(ev_read)
                && (misjudged <==> !Reached(wm_read_high, input.off))
      ensures old(ev_read.res) != {TimedOut} && (wm_read_high == 0 || Howmuch(wm_read_high, old(input.off)) > 0) ==>
                (granted && !fails && stream != [] && most > 0 ==> taken > 0)
      ensures old(ev_read.res) == {TimedOut} ==> call == UserError({Reading, TimedOutCause}) && taken == 0
      ensures old(ev_read.res) != {TimedOut} && (wm_read_high == 0 || Howmuch(wm_read_high, old(input.off)) > 0) ==>
                var res := old(Got(input.totallen, input.misalign + input.off, input.misalign, ioctl, if wm_read_high == 0 then -1 else Howmuch(wm_read_high, input.off), granted, fails, |stream|, most));
                && taken == (if res > 0 then res else 0) && (res == 0 ==> call == UserError({Reading, Eof}))
                && (res == -1 ==> call == if again then NoCall else UserError({Reading, Failure}))
      ensures taken > 0 ==> !call.UserError?
      ensures taken > 0 ==> Marked(old(input.cb), AfterDel(old(ev_read)), now, ok)
      ensures call == NoCall && taken == 0 ==>
                if wm_read_high != 0 && Howmuch(wm_read_high, input.off) <= 0 then ev_read == AfterDel(old(ev_read))
                else ev_read == ReadAdded(AfterDel(old(ev_read)), now, ok) && input.cb == old(input.cb)
      ensures call.UserError? ==> ev_read == AfterDel(old(ev_read)) && input.cb == old(input.cb)
      ensures taken > 0 && old(input.cb) == NoCallback ==>
                (input.cb == Pressure <==> Reached(wm_read_high, input.off) && Tells(wm_read_low, input.off))
                && (input.cb == NoCallback ==> ev_read == ReadAdded(AfterDel(old(ev_read)), now, ok))
    {
      hide Howmuch, IsSize, Grows, Evbuffer.Contents, Tells, Right, AfterAdd, Refusable, Got, Least, Marked;
      var event := ev_read.res;
      ev_read := AfterDel(ev_read);
      call, taken := Readcb(event, now, ok, ioctl, granted, fails, again, stream, most);
    }

    /** evbuffer_write from the output buffer. */
    method Flush(fails: bool, most: nat) returns (res: int)
      requires WritingNow() && output.off != 0
      modifies this`sent, output`off, output`buffer, output`misalign
      ensures WritingNow() && -1 <= res <= old(output.off) && (res == -1 <==> fails) && (most > 0 && !fails ==> res > 0)
      ensures res == if fails then -1 else Least(most, old(output.off))
      ensures sent == old(sent) + (if res > 0 then old(output.Contents())[..res] else [])
      ensures output.off == old(output.off) - if res > 0 then res else 0
    {
      hide IsSize, Evbuffer.Contents, Watched;
      ghost var held := output.Contents();
      var notice;
      res, notice := output.Write(fails, most);
      if res > 0 {
        Peeled(sent, held[..res], output.Contents(), held);
        sent := sent + held[..res];
      }
      assert sent == old(sent) + (if res > 0 then held[..res] else []);
    }

    /** bufferevent_writecb.  `again` says that errno is EAGAIN, EINTR or EINPROGRESS. */
    method Writecb(event: set<What>, now: Timeval, ok: bool, fails: bool, again: bool, most: nat) returns (call: Call, given: nat)
      requires WritingNow()
      modifies this`ev_write, this`write_lapsed, this`sent, this`write_failed, output`off, output`buffer, output`misalign
      ensures Valid() && given <= old(output.off)
      ensures sent == old(sent) + old(output.Contents())[..given] && output.off == old(output.off) - given
      ensures write_failed <==> old(write_failed) || call.UserError?
      ensures event == {TimedOut} ==> call == UserError({Writing, TimedOutCause}) && given == 0
      ensures event != {TimedOut} ==> (call.UserError? <==> old(output.off) != 0 && given == 0 && !(fails && again))
      ensures event != {TimedOut} ==> given == if fails then 0 else Least(most, old(output.off))
      ensures event != {TimedOut} && call.UserError? ==> call == UserError(if fails then {Writing, Failure} else {Writing, Eof})
      ensures event != {TimedOut} && old(output.off) != 0 && !fails && most > 0 ==> given > 0
      ensures call == UserWrite <==> event != {TimedOut} && has_writecb && output.off <= wm_write_low
                                     && (old(output.off) == 0 || given > 0)
      ensures call != UserRead
      ensures ev_write == if output.off != 0 && !call.UserError? then WriteAdded(old(ev_write), now, ok) else old(ev_write)
    {
      hide IsSize, Evbuffer.Contents, Watched, AfterAdd, Refusable, Retimes, Streams;
      given := 0;
      assert output.Contents()[..0] == [];
      assert sent + [] == sent;
      if event == {TimedOut} {
        write_failed := true;
        return UserError({Writing, TimedOutCause}), 0;
      }
      if output.off != 0 {
        var res := Flush(fails, most);
        if res == -1 && again {
          var r := AddWrite(now, ok);
          return NoCall, 0;
        }
        if res <= 0 {
          write_failed := true;
          return UserError(if res == -1 then {Writing, Failure} else {Writing, Eof}), 0;
        }
        given := res;
      }
      if output.off != 0 {
        var r := AddWrite(now, ok);
      }
      call := if has_writecb && output.off <= wm_write_low then UserWrite else NoCall;
    }

    method FireWrite(now: Timeval, ok: bool, fails: bool, again: bool, most: nat) returns (call: Call, given: nat)
      requires Valid() && Active in ev_write.flags
      modifies this`ev_write, this`write_lapsed, this`sent, this`write_failed, output`off, output`buffer, output`misalign
      ensures Valid() && given <= old(output.off)
      ensures sent == old(sent) + old(output.Contents())[..given] && output.off == old(output.off) - given
      ensures old(ev_write.res) != {TimedOut} ==> given == if fails then 0 else Least(most, old(output.off))
      ensures old(ev_write.res) != {TimedOut} && call.UserError? ==> call == UserError(if fails then {Writing, Failure} else {Writing, Eof})
      ensures old(ev_write.res) == {TimedOut} ==> call == UserError({Writing, TimedOutCause}) && given == 0
      ensures old(ev_write.res) != {TimedOut} ==> (call.UserError? <==> old(output.off) != 0 && given == 0 && !(fails && again))
      ensures call == UserWrite <==> old(ev_write.res) != {TimedOut} && has_writecb && output.off <= wm_write_low
                                     && (old(output.off) == 0 || given > 0)
      ensures call != UserRead
      ensures ev_write == if output.off != 0 && !call.UserError? then WriteAdded(AfterDel(old(ev_write)), now, ok) else AfterDel(old(ev_write))
    {
      hide IsSize, Evbuffer.Contents, Watched, AfterAdd, Refusable;
      var event := ev_write.res;
      ev_write := AfterDel(ev_write);
      call, given := Writecb(event, now, ok, fails, again, most);
    }

    // ----- what the program calls -----

    /** bufferevent_write of data[from .. from + size] */
    method WriteData(data: array<byte>, from: nat, size: nat, granted: bool, now: Timeval, ok: bool) returns (res: int)
      requires Valid() && from + size <= data.Length && data != output.orig_buffer
      requires output.misalign + output.off + size <= TOP_SIZE
      modifies this`ev_write, this`write_lapsed, this`written, output, output.orig_buffer
      ensures Valid() && (output.orig_buffer == old(output.orig_buffer) || fresh(output.orig_buffer))
      ensures (res == 0 || res == -1) && (granted ==> res == 0)
      ensures written == old(written) + (if res == 0 then data[from .. from + size] else [])
      ensures ev_write == if res == 0 && size > 0 && Write in enabled then WriteAdded(old(ev_write), now, ok) else old(ev_write)
    {
      hide IsSize, Evbuffer.Contents, Watched, AfterAdd, Refusable, Retimes, Streams;
      res := Put(data, from, size, granted);
      if res == -1 {
        return;
      }
      if size > 0 && Write in enabled {
        var r := AddWrite(now, ok);
      }
    }

    /** evbuffer_add to the output buffer. */
    method Put(data: array<byte>, from: nat, size: nat, granted: bool) returns (res: int)
      requires Owned() && Streams() && from + size <= data.Length && data != output.orig_buffer
      requires output.misalign + output.off + size <= TOP_SIZE
      modifies this`written, output, output.orig_buffer
      ensures Owned() && Streams() && (output.orig_buffer == old(output.orig_buffer) || fresh(output.orig_buffer))
      ensures (res == 0 || res == -1) && (granted ==> res == 0)
      ensures written == old(written) + (if res == 0 then data[from .. from + size] else [])
      ensures output.off == old(output.off) + if res == 0 then size else 0
    {
      hide IsSize, Evbuffer.Contents;
      ghost var held, more := output.Contents(), data[from .. from + size];
      var notice;
      res, notice := output.Add(data, from, size, granted);
      Appended(sent, held, more);
      if res == 0 {
        written := written + more;
      }
    }

    /** bufferevent_write_buffer of a buffer that is neither of this bufferevent's. */
    method WriteBuffer(buf: Evbuffer, granted: bool, now: Timeval, ok: bool) returns (res: int)
      requires Valid() && buf.Valid() && buf != input && buf != output
      requires buf.orig_buffer != input.orig_buffer && buf.orig_buffer != output.orig_buffer
      requires output.misalign + output.off + buf.off <= TOP_SIZE
      modifies this`ev_write, this`write_lapsed, this`written, output, output.orig_buffer, buf`off, buf`buffer, buf`misalign
      ensures Valid() && buf.Valid() && (output.orig_buffer == old(output.orig_buffer) || fresh(output.orig_buffer))
      ensures (res == 0 || res == -1) && (granted ==> res == 0)
      ensures written == old(written) + (if res == 0 then old(buf.Contents()) else [])
      ensures buf.Contents() == if res == 0 then [] else old(buf.Contents())
      ensures ev_write == if res == 0 && old(buf.off) > 0 && Write in enabled then WriteAdded(old(ev_write), now, ok) else old(ev_write)
    {
      hide IsSize, Watched, AfterAdd, Refusable;
      res := WriteData(buf.orig_buffer, buf.buffer, buf.off, granted, now, ok);
      if res != -1 {
        var notice := buf.Drain(buf.off);
      }
    }

    /** bufferevent_write_buffer of its own input buffer; draining it may resume reading. */
    method WriteInput(granted: bool, now: Timeval, ok: bool) returns (res: int)
      requires Valid() && output.misalign + output.off + input.off <= TOP_SIZE
      modifies this`ev_read, this`ev_write, this`read_lapsed, this`write_lapsed, this`misjudged, this`written, this`consumed
      modifies output, output.orig_buffer, input`off, input`buffer, input`misalign, input`cb
      ensures Valid() && (output.orig_buffer == old(output.orig_buffer) || fresh(output.orig_buffer))
      ensures (res == 0 || res == -1) && (granted ==> res == 0)
      ensures written == old(written) + (if res == 0 then old(input.Contents()) else [])
      ensures consumed == old(consumed) + (if res == 0 then old(input.Contents()) else [])
      ensures input.off == if res == 0 then 0 else old(input.off)
    {
      hide IsSize, Watched, AfterAdd, Refusable, Evbuffer.Contents, Streams;
      ghost var held := input.Contents();
      WholeSlice(input);
      assert held[..|held|] == held && consumed + [] == consumed;
      res := WriteData(input.orig_buffer, input.buffer, input.off, granted, now, ok);
      if res != -1 {
        var notice := Shed(input.off);
        Tell(notice, now, ok);
      }
    }

    /** bufferevent_read: up to `size` bytes to the front of `data`. */
    method ReadData(data: array<byte>, size: nat, now: Timeval, ok: bool) returns (n: nat)
      requires Valid() && data != input.orig_buffer && data != output.orig_buffer
      requires data.Length >= if size < input.off then size else input.off
      modifies this`ev_read, this`read_lapsed, this`misjudged, this`consumed, input`off, input`buffer, input`misalign, input`cb, data
      ensures Valid() && n == if size < old(input.off) then size else old(input.off)
      ensures data[..n] == old(input.Contents())[..n] && data[n..] == old(data[..])[n..]
      ensures consumed == old(consumed) + data[..n] && input.off == old(input.off) - n
      ensures if n != 0 && old(input.cb) == Pressure && !Reached(wm_read_high, input.off)
              then input.cb == NoCallback && ev_read == if Read in enabled then ReadAdded(old(ev_read), now, ok) else old(ev_read)
              else input.cb == old(input.cb) && ev_read == old(ev_read)
    {
      hide IsSize, Watched, AfterAdd, Refusable, Evbuffer.Contents;
      n := size;
      if input.off < n {
        n := input.off;
      }
      Peek(data, n);
      assert consumed + [] == consumed;
      if n != 0 {
        var notice := Shed(n);
        Tell(notice, now, ok);
      }
    }

    /** memcpy(data, buf->buffer, n) */
    method Peek(data: array<byte>, n: nat)
      requires Valid() && data != input.orig_buffer && data != output.orig_buffer && n <= data.Length && n <= input.off
      modifies data
      ensures Valid() && data[..n] == old(input.Contents())[..n] && data[n..] == old(data[..])[n..]
    {
      hide IsSize, Watched, AfterAdd;
      forall i | 0 <= i < n {
        data[i] := input.orig_buffer[input.buffer + i];
      }
    }

    /** evbuffer_drain of the input buffer. */
    method Shed(len: nat) returns (notice: Notice)
      requires Owned() && Streams() && len <= input.off && Informed()
      modifies this`consumed, input`off, input`buffer, input`misalign
      ensures Owned() && Streams() && consumed == old(consumed) + old(input.Contents())[..len] && input.off == old(input.off) - len
      ensures input.Contents() == old(input.Contents())[len..] && Informed()
      ensures notice == if len != 0 && input.cb != NoCallback then Changed(old(input.off), input.off) else NoNotice
    {
      hide IsSize, Evbuffer.Contents;
      ghost var held := input.Contents();
      notice := input.Drain(len);
      assert held == held[..len] + held[len..];
      assert |held| == len ==> held[len..] == [];
      Peeled(consumed, held[..len], held[len..], held);
      consumed := consumed + held[..len];
    }

    /** evbuffer_remove from the input buffer; the pressure callback may run at its end. */
    method Consume(data: array<byte>, size: nat, now: Timeval, ok: bool) returns (n: nat)
      requires Valid() && data != input.orig_buffer && data != output.orig_buffer
      requires data.Length >= if size < input.off then size else input.off
      modifies this`ev_read, this`read_lapsed, this`misjudged, this`consumed, input`off, input`buffer, input`misalign, input`cb, data
      ensures Valid() && n == if size < old(input.off) then size else old(input.off)
      ensures data[..n] == old(input.Contents())[..n] && data[n..] == old(data[..])[n..]
      ensures consumed == old(consumed) + data[..n] && input.off == old(input.off) - n
      ensures if n != 0 && old(input.cb) == Pressure && !Reached(wm_read_high, input.off)
              then input.cb == NoCallback && ev_read == if Read in enabled then ReadAdded(old(ev_read), now, ok) else old(ev_read)
              else input.cb == old(input.cb) && ev_read == old(ev_read)
    {
      hide IsSize, Watched, AfterAdd, Refusable, Evbuffer.Contents;
      var notice;
      n, notice := Pull(data, size);
      Tell(notice, now, ok);
    }

    method Pull(data: array<byte>, size: nat) returns (n: nat, notice: Notice)
      requires Owned() && Streams() && data != input.orig_buffer && data != output.orig_buffer
      requires data.Length >= if size < input.off then size else input.off
      modifies this`consumed, input`off, input`buffer, input`misalign, data
      ensures Owned() && Streams() && n == if size < old(input.off) then size else old(input.off)
      ensures data[..n] == old(input.Contents())[..n] && data[n..] == old(data[..])[n..]
      ensures consumed == old(consumed) + data[..n] && input.off == old(input.off) - n
      ensures notice == if n != 0 && input.cb != NoCallback then Changed(old(input.off), input.off) else NoNotice
    {
      hide IsSize, Evbuffer.Contents;
      ghost var held := input.Contents();
      n, notice := input.Remove(data, size);
      Peeled(consumed, data[..n], input.Contents(), held);
      consumed := consumed + data[..n];
    }

    /** bufferevent_enable: what memory and kernel answer for the two directions is `okRead` and
        `okWrite`.  After a refusal nothing more is done, but a read event that has been
        added stays. */
    method Enable(event: set<What>, now: Timeval, okRead: bool, okWrite: bool) returns (res: int)
      requires Valid() && event <= {Read, Write}
      modifies this`ev_read, this`ev_write, this`read_lapsed, this`write_lapsed, this`enabled, this`read_failed, this`write_failed
      ensures Valid() && (res == 0 || res == -1) && enabled == old(enabled) + (if res == 0 then event else {})
      ensures res == 0 <==> (Read in event ==> okRead || !Refusable(old(ev_read), timeout_read))
                            && (Write in event ==> okWrite || !Refusable(old(ev_write), timeout_write))
      ensures ev_read == if Read in event then ReadAdded(old(ev_read), now, okRead) else old(ev_read)
      ensures ev_write == if res == 0 && Write in event then AfterAdd(old(ev_write), timeout_write, now) else old(ev_write)
      ensures res == 0 && Read in event ==> !read_failed && (Watched(ev_read) <==> !Retimes(old(ev_read), timeout_read))
      ensures res == 0 && Write in event ==> !write_failed && (Watched(ev_write) <==> !Retimes(old(ev_write), timeout_write))
    {
      hide Owned, Streams, PressureJustified, Informed, Watched, AfterAdd, Refusable, Retimes;
      if Read in event {
        res := EnableReading(now, okRead);
        if res == -1 {
          return;
        }
      }
      if Write in event {
        res := EnableWriting(now, okWrite);
        if res == -1 {
          return;
        }
      }
      enabled := enabled + event;
      res := 0;
    }

    method EnableReading(now: Timeval, ok: bool) returns (res: int)
      requires Valid()
      modifies this`ev_read, this`read_lapsed, this`read_failed
      ensures Valid() && res == (if ok || !Refusable(old(ev_read), timeout_read) then 0 else -1)
      ensures ev_read == ReadAdded(old(ev_read), now, ok)
      ensures res == 0 ==> !read_failed && (read_lapsed <==> !Watched(ev_read) && input.cb != Pressure)
      ensures res == 0 ==> (Watched(ev_read) <==> !Retimes(old(ev_read), timeout_read))
    {
      hide IsSize, Evbuffer.Contents, Watched, AfterAdd, Refusable, Retimes, Streams, PressureJustified, Informed;
      res := AddRead(now, ok);
      if res == 0 {
        read_failed := false;
      }
    }

    method EnableWriting(now: Timeval, ok: bool) returns (res: int)
      requires Valid()
      modifies this`ev_write, this`write_lapsed, this`write_failed
      ensures Valid() && res == (if ok || !Refusable(old(ev_write), timeout_write) then 0 else -1)
      ensures ev_write == WriteAdded(old(ev_write), now, ok)
      ensures res == 0 ==> !write_failed && (write_lapsed <==> !Watched(ev_write))
      ensures res == 0 ==> (Watched(ev_write) <==> !Retimes(old(ev_write), timeout_write))
    {
      hide IsSize, Evbuffer.Contents, Watched, AfterAdd, Refusable, Retimes, Streams, PressureJustified, Informed;
      res := AddWrite(now, ok);
      if res == 0 {
        write_failed := false;
      }
    }

    /** bufferevent_disable; the deletes succeed. */
    method Disable(event: set<What>)
      requires Valid() && event <= {Read, Write}
      modifies this`ev_read, this`ev_write, this`enabled
      ensures Valid() && enabled == old(enabled) - event
      ensures ev_read == if Read in event then AfterDel(old(ev_read)) else old(ev_read)
      ensures ev_write == if Write in event then AfterDel(old(ev_write)) else old(ev_write)
    {
      hide IsSize, Evbuffer.Contents;
      DelUnwatches(ev_read);
      DelUnwatches(ev_write);
      if Read in event {
        ev_read := AfterDel(ev_read);
      }
      if Write in event {
        ev_write := AfterDel(ev_write);
      }
      enabled := enabled - event;
    }

    /** bufferevent_settimeout: new deadlines, also for events that are pending. */
    method SetTimeout(timeout_read: int, timeout_write: int, now: Timeval, okRead: bool, okWrite: bool)
      requires Valid()
      modifies this`ev_read, this`ev_write, this`read_lapsed, this`write_lapsed, this`timeout_read, this`timeout_write
      ensures Valid() && this.timeout_read == timeout_read && this.timeout_write == timeout_write
      ensures ev_read == if old(Inserted in ev_read.flags || (Active in ev_read.flags && Read in ev_read.res)) then ReadAdded(old(ev_read), now, okRead) else old(ev_read)
      ensures ev_write == if old(Inserted in ev_write.flags || (Active in ev_write.flags && Write in ev_write.res)) then WriteAdded(old(ev_write), now, okWrite) else old(ev_write)
    {
      hide IsSize, Evbuffer.Contents, AfterAdd, Watched, Refusable, Retimes, Streams, PressureJustified, Informed;
      this.timeout_read, this.timeout_write := timeout_read, timeout_write;
      if Pending(ev_read, Read) {
        var r := AddRead(now, okRead);
      }
      if Pending(ev_write, Write) {
        var r := AddWrite(now, okWrite);
      }
    }

    method SetMarks(events: set<What>, lowmark: size_t, highmark: size_t)
      requires Valid()
      modifies this`fair, this`wm_read_low, this`wm_read_high, this`wm_write_low, this`wm_write_high
      ensures Owned() && Streams() && ReadAlive() && WriteAlive() && Informed()
      ensures Read in events ==> wm_read_low == lowmark && wm_read_high == highmark
      ensures Write in events ==> wm_write_low == lowmark && wm_write_high == highmark
      ensures Read !in events ==> wm_read_low == old(wm_read_low) && wm_read_high == old(wm_read_high)
      ensures Write !in events ==> wm_write_low == old(wm_write_low) && wm_write_high == old(wm_write_high)
      ensures fair <==> if Read in events then (highmark == 0 || lowmark <= highmark) && (untold ==> !Tells(lowmark, input.off))
                        else old(fair)
    {
      hide IsSize, Evbuffer.Contents, Streams, WriteAlive, ReadAlive;
      if Read in events {
        wm_read_low, wm_read_high := lowmark, highmark;
        fair := (highmark == 0 || lowmark <= highmark) && (untold ==> !Tells(lowmark, input.off));
      }
      if Write in events {
        wm_write_low, wm_write_high := lowmark, highmark;
      }
    }

    /** bufferevent_setwatermark */
    method SetWatermark(events: set<What>, lowmark: size_t, highmark: size_t, now: Timeval, ok: bool)
      requires Valid()
      modifies this`ev_read, this`read_lapsed, this`misjudged, this`fair, input`cb
      modifies this`wm_read_low, this`wm_read_high, this`wm_write_low, this`wm_write_high
      ensures Valid()
      ensures Read in events ==> wm_read_low == lowmark && wm_read_high == highmark
      ensures Write in events ==> wm_write_low == lowmark && wm_write_high == highmark
      ensures Read !in events ==> wm_read_low == old(wm_read_low) && wm_read_high == old(wm_read_high)
      ensures Write !in events ==> wm_write_low == old(wm_write_low) && wm_write_high == old(wm_write_high)
      ensures fair <==> if Read in events then (highmark == 0 || lowmark <= highmark) && (untold ==> !Tells(lowmark, input.off))
                        else old(fair)
      ensures if !Reached(wm_read_high, input.off)
              then input.cb == NoCallback && ev_read == if Read in enabled then ReadAdded(old(ev_read), now, ok) else old(ev_read)
              else input.cb == old(input.cb) && ev_read == old(ev_read)
    {
      hide IsSize, Evbuffer.Contents, AfterAdd, Streams, WriteAlive, ReadAlive, Tells;
      SetMarks(events, lowmark, highmark);
      PressureCb(input.off, now, ok);
    }
  }

  lemma Appended(a: seq<byte>, b: seq<byte>, c: seq<byte>)
    ensures a + (b + c) == a + b + c && a + b + [] == a + b
  {
  }

  lemma Peeled(a: seq<byte>, b: seq<byte>, c: seq<byte>, bc: seq<byte>)
    requires b + c == bc
    ensures a + b + c == a + bc && b == bc[..|b|]
  {
  }

  lemma WholeSlice(buf: Evbuffer)
    requires buf.Valid()
    ensures buf.orig_buffer[buf.buffer .. buf.buffer + buf.off] == buf.Contents()
  {
  }

  lemma DelUnwatches(ev: Ev)
    ensures !Watched(AfterDel(ev)) && AfterDel(ev).events == ev.events
  {
  }

  lemma RejoinsInserted(ev: Ev, now: Timeval)
    requires ev.events == {Read}
    ensures AfterAdd(AfterDel(ev), 0, now).flags == ev.flags - QUEUES + {Inserted} && AfterAdd(AfterDel(ev), 0, now).events == {Read}
  {
    assert Read in {Read} * (IO_EVENTS + {Signal});
  }

  lemma HowmuchFits(high: nat, off: nat)
    requires high < 0x8000_0000 && off < SIZE_T
    ensures off < high ==> Howmuch(high, off) > 0
    ensures off == high ==> Howmuch(high, off) <= 0
  {
    HowmuchExactly(high, off);
  }

  /** Reading held up without a word: for any low mark above the high one a peer that sends
      byte by byte fills the buffer to the high mark, and the program's readcb has never been
      called. */
  method SilentStall(low: size_t, high: size_t, now: Timeval) returns (bev: Bufferevent)
    requires 0 < high < low && high < 0x8000_0000
    ensures bev.Valid() && bev.has_readcb && Read in bev.enabled && !bev.read_failed
    ensures bev.wm_read_low == low && bev.wm_read_high == high && bev.input.off == high
    ensures bev.input.cb == Pressure && !bev.misjudged && !Watched(bev.ev_read) && bev.untold && !bev.fair
  {
    hide IsSize, Evbuffer.Contents, AfterAdd, AfterDel, Refusable, Howmuch, Right, Bufferevent.Streams;
    bev := new Bufferevent(0, 0, true, false);
    bev.SetWatermark({Read}, low, high, now, true);
    FirstAdded(bev.ev_read, now);
    var r := bev.Enable({Read}, now, true, true);
    while bev.input.off < high
      invariant Filling(bev, low, high) && bev.input.off <= high && fresh(bev) && fresh(bev.input) && fresh(bev.input.orig_buffer)
      invariant bev.input.off > 0 ==> bev.untold
      decreases high - bev.input.off
    {
      OneByte(bev, low, high, now);
    }
    LastTurn(bev, low, high, now);
  }

  lemma FirstAdded(ev: Ev, now: Timeval)
    requires ev == Ev(0, {Read}, 0, {Init}, Timeval(0, 0), {}, 0, 0)
    ensures AfterAdd(ev, 0, now).flags == {Init, Inserted} && !Retimes(ev, 0)
  {
    assert Read in {Read} * (IO_EVENTS + {Signal});
  }

  /** A buffer on its way to its high mark. */
  ghost predicate Filling(bev: Bufferevent, low: nat, high: nat)
    reads bev, bev.input, bev.input.orig_buffer, bev.output, bev.output.orig_buffer
  {
    && bev.Valid() && bev.has_readcb && Read in bev.enabled && !bev.read_failed && bev.timeout_read == 0 && !bev.fair
    && bev.wm_read_low == low && bev.wm_read_high == high && bev.input.cb == NoCallback
    && Inserted in bev.ev_read.flags && Active !in bev.ev_read.flags
    && bev.input.misalign == 0 && bev.input.totallen < 0x4_0000_0000 && bev.output.totallen == 0
  }

  method OneByte(bev: Bufferevent, low: nat, high: nat, now: Timeval)
    requires Filling(bev, low, high) && bev.input.off < high < low && high < 0x8000_0000
    modifies bev, bev.input, bev.input.orig_buffer
    ensures Filling(bev, low, high) && bev.input.off == old(bev.input.off) + 1 && bev.untold
    ensures bev.input.orig_buffer == old(bev.input.orig_buffer) || fresh(bev.input.orig_buffer)
  {
    hide IsSize, Evbuffer.Contents, AfterAdd, AfterDel, Refusable, Howmuch, Right, Bufferevent.Streams;
    bev.ReadReady();
    HowmuchFits(high, bev.input.off);
    RejoinsInserted(bev.ev_read, now);
    var call, taken := bev.FireRead(now, true, None, true, false, false, [0], 1);
  }

  method LastTurn(bev: Bufferevent, low: nat, high: nat, now: Timeval)
    requires Filling(bev, low, high) && bev.input.off == high && 0 < high < low && high < 0x8000_0000 && bev.untold
    modifies bev, bev.input, bev.input.orig_buffer
    ensures bev.Valid() && bev.has_readcb && Read in bev.enabled && !bev.read_failed
    ensures bev.wm_read_low == low && bev.wm_read_high == high && bev.input.off == high
    ensures bev.input.cb == Pressure && !bev.misjudged && !Watched(bev.ev_read) && bev.untold && !bev.fair
  {
    hide IsSize, Evbuffer.Contents, AfterAdd, AfterDel, Refusable, Howmuch, Right, Bufferevent.Streams;
    bev.ReadReady();
    HowmuchFits(high, bev.input.off);
    var call, taken := bev.FireRead(now, true, None, true, false, false, [0], 1);
  }
}
