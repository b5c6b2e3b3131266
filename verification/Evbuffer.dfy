/** `struct evbuffer`: a byte queue in a growing array, with the bytes somewhere in its middle. */
module Evbuffers {
  import opened BaseState

  type byte = b: int | 0 <= b < 256

  const SIZE_T := 0x1_0000_0000_0000_0000

  type size_t = n: int | 0 <= n < SIZE_T

  const TOP_SIZE := 0x8000_0000_0000_0000

  /** 256, 512, 1024, ... */
  predicate IsSize(n: nat) {
    n == 256 || (n > 256 && n % 2 == 0 && IsSize(n / 2))
  }

  lemma {:induction false} SizesApart(n: nat, m: nat)
    requires IsSize(n) && IsSize(m) && n < m
    ensures 2 * n <= m
    decreases m
  {
    if n > 256 {
      SizesApart(n / 2, m / 2);
    } else if m / 2 > 256 {
      SizesApart(n, m / 2);
    }
  }

  lemma Times2(n: nat)
    requires IsSize(n)
    ensures IsSize(2 * n)
  {
    assert 2 * n / 2 == n;
  }

  lemma Times32(n: nat)
    requires IsSize(n)
    ensures IsSize(32 * n)
  {
    hide IsSize;
    Times2(n);
    Times2(2 * n);
    Times2(4 * n);
    Times2(8 * n);
    Times2(16 * n);
  }

  lemma FirstSize()
    ensures IsSize(256)
  {
  }

  lemma TopIsSize()
    ensures IsSize(TOP_SIZE)
  {
    hide IsSize;
    FirstSize();
    Times32(0x100);
    Times32(0x2000);
    Times32(0x40000);
    Times32(0x800000);
    Times32(0x10000000);
    Times32(0x200000000);
    Times32(0x4000000000);
    Times32(0x80000000000);
    Times32(0x1000000000000);
    Times32(0x20000000000000);
    Times32(0x400000000000000);
  }

  /** length <<= 1 */
  function ShiftLeft(length: nat): nat {
    2 * length % SIZE_T
  }

  /** It loses nothing below the top. */
  lemma ShiftIsDouble(length: nat)
    requires IsSize(length) && length < TOP_SIZE
    ensures ShiftLeft(length) == 2 * length <= TOP_SIZE && IsSize(2 * length)
  {
    hide IsSize;
    TopIsSize();
    SizesApart(length, TOP_SIZE);
    Times2(length);
  }

  function Lengths(length: nat, times: nat): nat
    decreases times
  {
    if times == 0 then length else Lengths(ShiftLeft(length), times - 1)
  }

  /** The doubling loop stops exactly for needs up to the largest power of two a size_t holds. */
  lemma DoublingEndsExactly(length: nat, need: nat)
    requires IsSize(length) && length <= TOP_SIZE && need < SIZE_T
    ensures (exists times: nat :: Lengths(length, times) >= need) <==> need <= TOP_SIZE
  {
    TopIsSize();
    if need <= TOP_SIZE {
      var times := ReachesTop(length);
      assert Lengths(length, times) >= need;
    } else {
      forall times: nat ensures Lengths(length, times) < need {
        NeverBeyondTop(length, times);
      }
    }
  }

  lemma {:induction false} ReachesTop(length: nat) returns (times: nat)
    requires IsSize(length) && length <= TOP_SIZE
    ensures Lengths(length, times) == TOP_SIZE
    decreases TOP_SIZE - length
  {
    hide IsSize, ShiftLeft;
    if length == TOP_SIZE {
      times := 0;
    } else {
      ShiftIsDouble(length);
      SizePositive(length);
      var rest := ReachesTop(2 * length);
      times := rest + 1;
    }
  }

  lemma SizePositive(length: nat)
    requires IsSize(length)
    ensures length >= 256
  {
  }

  lemma {:induction false} NeverBeyondTop(length: nat, times: nat)
    requires (IsSize(length) && length <= TOP_SIZE) || length == 0
    ensures Lengths(length, times) <= TOP_SIZE
    decreases times
  {
    hide IsSize, ShiftLeft;
    if times > 0 {
      if 0 < length < TOP_SIZE { ShiftIsDouble(length); } else { ShiftToZero(length); }
      NeverBeyondTop(ShiftLeft(length), times - 1);
    }
  }

  lemma ShiftToZero(length: nat)
    requires length == 0 || length == TOP_SIZE
    ensures ShiftLeft(length) == 0
  {
  }

  /** An array that had to grow is less than twice what was needed. */
  predicate Grows(totallen: nat, need: nat, totallen': nat) {
    totallen' == totallen || totallen' <= 256 || totallen' < 2 * need
  }

  lemma GrowsNot(totallen: nat, need: nat)
    ensures Grows(totallen, need, totallen)
  {
  }

  // ----- how much evbuffer_read asks for -----

  const EVBUFFER_MAX_READ := 4096

  /** What FIONREAD's answer `n` (or its failure) and the caller's `howmuch` come to. */
  function ReadSize(totallen: nat, ioctl: Option<int>, howmuch: int): int {
    var n := match ioctl
             case None => EVBUFFER_MAX_READ
             case Some(n) =>
               if n <= 0 then EVBUFFER_MAX_READ
               else if n > EVBUFFER_MAX_READ && n > howmuch then
                 var few := if n > 4 * totallen % SIZE_T then Int32(4 * totallen % SIZE_T) else n;
                 if few < EVBUFFER_MAX_READ then EVBUFFER_MAX_READ else few
               else n;
    if howmuch < 0 || howmuch > n then n else howmuch
  }

  /** It is never more than the caller allows, nor nothing unless he allows nothing; and it
      exceeds EVBUFFER_MAX_READ only for data that is there, up to four times the array. */
  lemma ReadSizeBounds(totallen: nat, ioctl: Option<int>, howmuch: int)
    requires ioctl.Some? ==> ioctl.value < 0x8000_0000
    ensures var r := ReadSize(totallen, ioctl, howmuch);
            && (howmuch >= 0 ==> r <= howmuch) && (howmuch != 0 ==> r > 0) && 0 <= r < 0x8000_0000
            && (r > EVBUFFER_MAX_READ ==> ioctl.Some? && r <= ioctl.value && (r <= 4 * totallen || r <= howmuch))
  {
  }

  /** And exactly: FIONREAD's answer, 4096 in the place of none, counts as it is up to 4096
      bytes and for a caller who allows that many; beyond, it is cut to four times the array,
      but not below 4096; and the caller's limit is kept. */
  lemma ReadSizeExactly(totallen: nat, ioctl: Option<int>, howmuch: int)
    requires ioctl.Some? ==> ioctl.value < 0x8000_0000
    ensures var n := if ioctl.Some? && ioctl.value > 0 then ioctl.value else 4096;
            var held := 4 * totallen % 0x1_0000_0000_0000_0000;
            var cap := if n <= 4096 || howmuch >= n || n <= held then n else if held < 4096 then 4096 else held;
            ReadSize(totallen, ioctl, howmuch) == if 0 <= howmuch < cap then howmuch else cap
  {
  }

  function Least(a: int, b: int): int {
    if a < b then a else b
  }

  /** The result of evbuffer_read when `used` bytes of the array lie before the end of those
      held, `misalign` of them free, and `waiting` bytes wait on the descriptor. */
  ghost function Got(totallen: nat, used: nat, misalign: nat, ioctl: Option<int>, howmuch: int, granted: bool, fails: bool,
                     waiting: nat, most: nat): int {
    var size := ReadSize(totallen, ioctl, howmuch);
    if fails || (!granted && totallen < used + size && misalign < size) then -1
    else Least(size, Least(most, waiting))
  }

  lemma GotExactly(totallen: nat, used: nat, misalign: nat, ioctl: Option<int>, howmuch: int, granted: bool, fails: bool,
                   waiting: nat, most: nat)
    requires ioctl.Some? ==> ioctl.value < 0x8000_0000
    ensures var n := if ioctl.Some? && ioctl.value > 0 then ioctl.value else 4096;
            var held := 4 * totallen % 0x1_0000_0000_0000_0000;
            var cap := if n <= 4096 || howmuch >= n || n <= held then n else if held < 4096 then 4096 else held;
            var size := if 0 <= howmuch < cap then howmuch else cap;
            var refused := !granted && totallen < used + size && misalign < size;
            Got(totallen, used, misalign, ioctl, howmuch, granted, fails, waiting, most)
            == if fails || refused then -1 else Least(size, Least(most, waiting))
  {
    hide ReadSize, Least;
    ReadSizeExactly(totallen, ioctl, howmuch);
  }

  // ----- the buffer -----

  /** The owner's function that is told about changes, if there is one. */
  datatype Callback = NoCallback | Pressure

  /** A call of it that is due: (*cb)(buf, old, now, arg). */
  datatype Notice = NoNotice | Changed(old_: nat, now: nat)

  class Evbuffer {
    var orig_buffer: array<byte>   // a NULL pointer is an array of length 0
    var buffer: nat                // where buffer points, counted from orig_buffer
    var misalign: nat
    var totallen: nat
    var off: nat
    var cb: Callback

    ghost predicate Valid()
      reads this
    {
      && totallen == orig_buffer.Length && buffer == misalign && misalign + off <= totallen
      && (totallen == 0 || (IsSize(totallen) && totallen <= TOP_SIZE))
    }

    /** The bytes held. */
    ghost function Contents(): (r: seq<byte>)
      requires Valid()
      reads this, orig_buffer
      ensures |r| == off
    {
      orig_buffer[misalign .. misalign + off]
    }

    /** evbuffer_new */
    constructor ()
      ensures Valid() && Contents() == [] && cb == NoCallback && fresh(orig_buffer)
      ensures off == misalign == totallen == 0
    {
      orig_buffer := new byte[0];
      buffer, misalign, totallen, off, cb := 0, 0, 0, 0, NoCallback;
    }

    /** evbuffer_align; memmove copes with the overlap. */
    method Align()
      requires Valid()
      modifies this`buffer, this`misalign, orig_buffer
      ensures Valid() && misalign == 0 && Contents() == old(Contents())
    {
      forall i | 0 <= i < off {
        orig_buffer[i] := orig_buffer[buffer + i];
      }
      buffer, misalign := 0, 0;
    }

    /** The doubling loop of evbuffer_expand. */
    method Enlarged(need: nat) returns (length: nat)
      requires Valid() && need <= TOP_SIZE
      ensures length >= need && length >= totallen && IsSize(length) && length <= TOP_SIZE && Grows(totallen, need, length)
    {
      hide IsSize, ShiftLeft;
      TopIsSize();
      length := totallen;
      if length < 256 {
        length := 256;
      }
      FirstLength(length);
      while length < need
        invariant IsSize(length) && totallen <= length <= TOP_SIZE && Grows(totallen, need, length)
        decreases TOP_SIZE - length
      {
        ShiftIsDouble(length);
        SizePositive(length);
        length := ShiftLeft(length);
      }
    }

    lemma FirstLength(length: nat)
      requires Valid() && length == if totallen < 256 then 256 else totallen
      ensures IsSize(length) && totallen <= length <= TOP_SIZE
    {
      TopIsSize();
    }

    /** evbuffer_expand: room for `datlen` more bytes, by moving the contents to the front if
        that is enough, else in an array twice, four times, ... the size. */
    method Expand(datlen: nat, granted: bool) returns (res: int)
      requires Valid() && misalign + off + datlen <= TOP_SIZE
      modifies this, orig_buffer
      ensures Valid() && Contents() == old(Contents()) && off == old(off) && cb == old(cb)
      ensures res == if old(totallen < misalign + off + datlen && misalign < datlen) && !granted then -1 else 0
      ensures res == 0 ==> misalign + off + datlen <= totallen
      ensures orig_buffer == old(orig_buffer) || fresh(orig_buffer)
      ensures old(misalign >= datlen) ==> totallen == old(totallen)
      ensures totallen >= old(totallen) && misalign <= old(misalign) && Grows(old(totallen), old(misalign + off) + datlen, totallen)
    {
      var need := misalign + off + datlen;
      if totallen >= need {
        return 0;
      }
      if misalign >= datlen {
        Align();
      } else {
        var length := Enlarged(need);
        if buffer != 0 {
          Align();
        }
        if !granted {
          return -1;
        }
        Reallocate(length);
      }
      return 0;
    }

    /** realloc of an aligned buffer, when it succeeds. */
    method Reallocate(length: nat)
      requires Valid() && misalign == 0 && length >= totallen && IsSize(length) && length <= TOP_SIZE
      modifies this`orig_buffer, this`buffer, this`totallen
      ensures Valid() && Contents() == old(Contents()) && totallen == length && fresh(orig_buffer)
    {
      var newbuf := new byte[length](_ => 0);
      forall i | 0 <= i < totallen {
        newbuf[i] := orig_buffer[i];
      }
      orig_buffer, buffer, totallen := newbuf, 0, length;
    }

    /** evbuffer_add of data[from .. from + datlen]. */
    method Add(data: array<byte>, from: nat, datlen: nat, granted: bool) returns (res: int, notice: Notice)
      requires Valid() && from + datlen <= data.Length && data != orig_buffer && misalign + off + datlen <= TOP_SIZE
      modifies this, orig_buffer
      ensures Valid() && cb == old(cb) && (orig_buffer == old(orig_buffer) || fresh(orig_buffer)) && misalign <= old(misalign)
      ensures res == if old(totallen < misalign + off + datlen && misalign < datlen) && !granted then -1 else 0
      ensures Contents() == if res == 0 then old(Contents()) + data[from .. from + datlen] else old(Contents())
      ensures notice == if res == 0 && datlen != 0 && cb != NoCallback then Changed(old(off), off) else NoNotice
    {
      notice := NoNotice;
      var need := misalign + off + datlen;
      var oldoff := off;
      res := 0;
      if totallen < need {
        res := Expand(datlen, granted);
        if res == -1 {
          return;
        }
      }
      Receive(data[from .. from + datlen]);
      if datlen != 0 && cb != NoCallback {
        notice := Changed(oldoff, off);
      }
    }

    /** evbuffer_drain */
    method Drain(len: nat) returns (notice: Notice)
      requires Valid()
      modifies this`off, this`buffer, this`misalign
      ensures Valid() && Contents() == if len >= old(off) then [] else old(Contents())[len..]
      ensures notice == if off != old(off) && cb != NoCallback then Changed(old(off), off) else NoNotice
    {
      var oldoff := off;
      if len >= off {
        off, buffer, misalign := 0, 0, 0;
      } else {
        buffer, misalign, off := buffer + len, misalign + len, off - len;
      }
      notice := if off != oldoff && cb != NoCallback then Changed(oldoff, off) else NoNotice;
    }

    /** evbuffer_remove: up to `datlen` bytes move to the front of `data`. */
    method Remove(data: array<byte>, datlen: nat) returns (nread: nat, notice: Notice)
      requires Valid() && data != orig_buffer && data.Length >= (if datlen < off then datlen else off)
      modifies this`off, this`buffer, this`misalign, data
      ensures Valid() && nread == if datlen < old(off) then datlen else old(off)
      ensures data[..nread] + Contents() == old(Contents()) && data[nread..] == old(data[..])[nread..]
      ensures notice == if nread != 0 && cb != NoCallback then Changed(old(off), off) else NoNotice
    {
      hide IsSize;
      ghost var held := Contents();
      nread := datlen;
      if nread >= off {
        nread := off;
      }
      forall i | 0 <= i < nread {
        data[i] := orig_buffer[buffer + i];
      }
      assert data[..nread] == held[..nread];
      assert Contents() == held;
      notice := Drain(nread);
      assert Contents() == held[nread..];
      assert held[..nread] + held[nread..] == held;
    }

    /** evbuffer_read: `fails` and `most` are what read does with the bytes `stream` that wait
        on the descriptor. */
    method Read(ioctl: Option<int>, howmuch: int, granted: bool, fails: bool, stream: seq<byte>, most: nat)
      returns (res: int, notice: Notice)
      requires Valid() && (ioctl.Some? ==> ioctl.value < 0x8000_0000) && misalign + off < TOP_SIZE - 0x8000_0000
      modifies this, orig_buffer
      ensures Valid() && cb == old(cb) && (orig_buffer == old(orig_buffer) || fresh(orig_buffer))
      ensures misalign <= old(misalign) && Grows(old(totallen), old(misalign + off) + 0x8000_0000, totallen)
      ensures -1 <= res <= |stream| && (howmuch >= 0 ==> res <= howmuch)
      ensures fails ==> res == -1
      ensures granted && !fails ==> res >= 0
      ensures granted && !fails && howmuch != 0 && most > 0 && stream != [] ==> res > 0
      ensures var n := if ioctl.Some? && ioctl.value > 0 then ioctl.value else 4096;
              var held := 4 * old(totallen) % 0x1_0000_0000_0000_0000;
              var cap := if n <= 4096 || howmuch >= n || n <= held then n else if held < 4096 then 4096 else held;
              var size := if 0 <= howmuch < cap then howmuch else cap;
              var refused := !granted && old(totallen < misalign + off + size) && old(misalign) < size;
              res == if fails || refused then -1 else Least(size, Least(most, |stream|))
      ensures res == old(Got(totallen, misalign + off, misalign, ioctl, howmuch, granted, fails, |stream|, most))
      ensures Contents() == if res > 0 then old(Contents()) + stream[..res] else old(Contents())
      ensures notice == if res > 0 && cb != NoCallback then Changed(old(off), off) else NoNotice
    {
      hide IsSize, Grows, Got, Least;
      GotExactly(totallen, misalign + off, misalign, ioctl, howmuch, granted, fails, |stream|, most);
      res, notice := ReadOnce(ioctl, howmuch, granted, fails, stream, most);
    }

    method ReadOnce(ioctl: Option<int>, howmuch: int, granted: bool, fails: bool, stream: seq<byte>, most: nat)
      returns (res: int, notice: Notice)
      requires Valid() && (ioctl.Some? ==> ioctl.value < 0x8000_0000) && misalign + off < TOP_SIZE - 0x8000_0000
      modifies this, orig_buffer
      ensures Valid() && cb == old(cb) && (orig_buffer == old(orig_buffer) || fresh(orig_buffer))
      ensures misalign <= old(misalign) && Grows(old(totallen), old(misalign + off) + 0x8000_0000, totallen)
      ensures -1 <= res <= |stream| && (howmuch >= 0 ==> res <= howmuch)
      ensures fails ==> res == -1
      ensures granted && !fails ==> res >= 0
      ensures granted && !fails && howmuch != 0 && most > 0 && stream != [] ==> res > 0
      ensures res == old(Got(totallen, misalign + off, misalign, ioctl, howmuch, granted, fails, |stream|, most))
      ensures Contents() == if res > 0 then old(Contents()) + stream[..res] else old(Contents())
      ensures notice == if res > 0 && cb != NoCallback then Changed(old(off), off) else NoNotice
    {
      hide IsSize, ReadSize;
      notice := NoNotice;
      var oldoff := off;
      ReadSizeBounds(totallen, ioctl, howmuch);
      var size := ReadSize(totallen, ioctl, howmuch);
      var r := Expand(size, granted);
      if r == -1 {
        return -1, notice;
      }
      if fails {
        return -1, notice;
      }
      var n := if most < size then most else size;
      if n > |stream| {
        n := |stream|;
      }
      if n == 0 {
        return 0, notice;
      }
      Receive(stream[..n]);
      if off != oldoff && cb != NoCallback {
        notice := Changed(oldoff, off);
      }
      res := n;
    }

    /** memcpy or read to buf->buffer + buf->off; buf->off += n */
    method Receive(bytes: seq<byte>)
      requires Valid() && misalign + off + |bytes| <= totallen
      modifies this`off, orig_buffer
      ensures Valid() && Contents() == old(Contents()) + bytes
    {
      hide IsSize;
      var end := buffer + off;
      ghost var was := orig_buffer[..];
      forall i | end <= i < end + |bytes| {
        orig_buffer[i] := bytes[i - end];
      }
      TailWritten(was, orig_buffer[..], misalign, end, bytes);
      off := off + |bytes|;
    }

    /** evbuffer_write: write takes up to `most` bytes, or fails. */
    method Write(fails: bool, most: nat) returns (res: int, notice: Notice)
      requires Valid()
      modifies this`off, this`buffer, this`misalign
      ensures Valid() && -1 <= res <= old(off) && (res == -1 <==> fails)
      ensures res == if fails then -1 else Least(most, old(off))
      ensures Contents() == if res > 0 then old(Contents())[res..] else old(Contents())
      ensures notice == if res > 0 && cb != NoCallback then Changed(old(off), off) else NoNotice
    {
      notice := NoNotice;
      if fails {
        return -1, notice;
      }
      var n := if most < off then most else off;
      if n == 0 {
        return 0, notice;
      }
      notice := Drain(n);
      return n, notice;
    }
  }

  lemma TailWritten(was: seq<byte>, now: seq<byte>, from: nat, end: nat, bytes: seq<byte>)
    requires from <= end && end + |bytes| <= |now| == |was|
    requires forall i | 0 <= i < |now| && !(end <= i < end + |bytes|) :: now[i] == was[i]
    requires forall i | end <= i < end + |bytes| :: now[i] == bytes[i - end]
    ensures now[from .. end + |bytes|] == was[from .. end] + bytes
  {
  }

  // ----- any number of operations -----

  datatype BufOp = BufAdd(data: seq<byte>, granted: bool) | BufRemove(n: nat) | BufDrain(n: nat) | BufExpand(n: nat, granted: bool)

  /** Any run of additions, removals, drains and expansions, refused ones included: what was
      taken out, and then what is held, is what was held and then what was put in.  An
      addition that no array could hold is not attempted. */
  method Play(buf: Evbuffer, ops: seq<BufOp>) returns (added: seq<byte>, taken: seq<byte>)
    requires buf.Valid()
    modifies buf, buf.orig_buffer
    ensures buf.Valid() && taken + buf.Contents() == old(buf.Contents()) + added
  {
    hide IsSize, Evbuffer.Contents;
    added, taken := [], [];
    ghost var held := buf.Contents();
    var i := 0;
    while i < |ops|
      invariant buf.Valid() && (buf.orig_buffer == old(buf.orig_buffer) || fresh(buf.orig_buffer))
      invariant taken + buf.Contents() == held + added
    {
      var more, less := PlayOne(buf, ops[i]);
      Chained(taken, less, held, added, more);
      added, taken := added + more, taken + less;
      assert taken + buf.Contents() == held + added;
      i := i + 1;
    }
  }

  lemma Chained(taken: seq<byte>, less: seq<byte>, held: seq<byte>, added: seq<byte>, more: seq<byte>)
    ensures forall now: seq<byte>, was: seq<byte> | less + now == was + more && taken + was == held + added ::
              taken + less + now == held + (added + more)
  {
    forall now: seq<byte>, was: seq<byte> | less + now == was + more && taken + was == held + added
      ensures taken + less + now == held + (added + more)
    {
      assert taken + less + now == taken + (less + now) == taken + was + more == held + added + more;
    }
  }

  method PlayOne(buf: Evbuffer, op: BufOp) returns (more: seq<byte>, less: seq<byte>)
    requires buf.Valid()
    modifies buf, buf.orig_buffer
    ensures buf.Valid() && less + buf.Contents() == old(buf.Contents()) + more
    ensures buf.orig_buffer == old(buf.orig_buffer) || fresh(buf.orig_buffer)
  {
    hide Evbuffer.Valid;
    more, less := [], [];
    match op {
      case BufAdd(bytes, granted) =>
        more := PlayAdd(buf, bytes, granted);
      case BufRemove(n) =>
        less := PlayRemove(buf, n);
      case BufDrain(n) =>
        less := PlayDrain(buf, n);
      case BufExpand(n, granted) =>
        if buf.misalign + buf.off + n <= TOP_SIZE {
          var r := buf.Expand(n, granted);
        }
    }
  }

  /** evbuffer_add copies from an array of the caller's. */
  method PlayAdd(buf: Evbuffer, bytes: seq<byte>, granted: bool) returns (more: seq<byte>)
    requires buf.Valid()
    modifies buf, buf.orig_buffer
    ensures buf.Valid() && buf.Contents() == old(buf.Contents()) + more
    ensures buf.orig_buffer == old(buf.orig_buffer) || fresh(buf.orig_buffer)
  {
    hide IsSize;
    more := [];
    if buf.misalign + buf.off + |bytes| <= TOP_SIZE {
      var data := new byte[|bytes|](i requires 0 <= i < |bytes| => bytes[i]);
      assert data[0 .. 0 + |bytes|] == bytes;
      var res, notice := buf.Add(data, 0, |bytes|, granted);
      more := if res == 0 then bytes else [];
    }
  }

  method PlayRemove(buf: Evbuffer, n: nat) returns (less: seq<byte>)
    requires buf.Valid()
    modifies buf
    ensures buf.Valid() && less + buf.Contents() == old(buf.Contents()) && buf.orig_buffer == old(buf.orig_buffer)
  {
    hide IsSize;
    var data := new byte[if n < buf.off then n else buf.off](_ => 0);
    var nread, notice := buf.Remove(data, n);
    less := data[..nread];
  }

  method PlayDrain(buf: Evbuffer, n: nat) returns (less: seq<byte>)
    requires buf.Valid()
    modifies buf
    ensures buf.Valid() && less + buf.Contents() == old(buf.Contents()) && buf.orig_buffer == old(buf.orig_buffer)
  {
    hide IsSize;
    ghost var was := buf.Contents();
    var dropped := if n < buf.off then n else buf.off;
    less := buf.orig_buffer[buf.misalign .. buf.misalign + dropped];
    assert less == was[..dropped];
    var notice := buf.Drain(n);
  }
}
