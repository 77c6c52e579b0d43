/**
 Reading a byte range of a file: a loop over short reads, and the aligned read through a scratch
 buffer with its end-of-file tail. One array stands for memory, so that the destination may lie
 inside the scratch buffer.
 */
module DirectRead {
  import opened Results

  const ALIGN: nat := 4096

  /** What the next read call does: an interruption, a failure, or at most n bytes. */
  datatype Event = Interrupted | Failed | UpTo(n: nat)

  /** The result of one read call. */
  datatype Outcome = Again | Broken | Got(n: nat)

  /** A file and the behaviour of the read calls on it; once the script is over, reads are full. */
  class File {
    const bytes: seq<int>
    var script: seq<Event>

    constructor (bytes: seq<int>, script: seq<Event>)
      ensures this.bytes == bytes && this.script == script
    {
      this.bytes, this.script := bytes, script;
    }

    ghost predicate Healthy()
      reads this
    {
      Failed !in script
    }

    /** What the script makes of a request for n bytes: how many may be read, unless interrupted or failed. */
    method Next(n: nat) returns (r: Outcome)
      requires n > 0
      modifies this
      ensures r.Got? ==> 0 < r.n <= n
      ensures |script| <= |old(script)| && (r.Again? ==> |script| < |old(script)|)
      ensures old(Healthy()) ==> Healthy() && !r.Broken?
    {
      if script == [] {
        return Got(n);
      }
      var e := script[0];
      script := script[1..];
      match e
      case Interrupted => return Again;
      case Failed => return Broken;
      case UpTo(k) => return Got(if k == 0 then 1 else if k < n then k else n);
    }

    /** pread: reads at least one byte when there is one to read. */
    method Pread(mem: array<int>, at: nat, n: nat, offset: nat) returns (r: Outcome)
      requires at + n <= mem.Length && n > 0
      modifies this, mem
      ensures r.Got? ==> r.n <= n && (r.n == 0 <==> offset >= |bytes|) && (r.n > 0 ==> offset + r.n <= |bytes|)
      ensures r.Got? && r.n > 0 ==> Holds(mem[..], old(mem[..]), at, bytes[offset..offset + r.n])
      ensures !r.Got? || r.n == 0 ==> mem[..] == old(mem[..])
      ensures |script| <= |old(script)| && (r.Again? ==> |script| < |old(script)|)
      ensures old(Healthy()) ==> Healthy() && !r.Broken?
    {
      hide Holds;
      r := Next(n);
      if r.Got? {
        var limit := if offset >= |bytes| then 0 else if r.n > |bytes| - offset then |bytes| - offset else r.n;
        if limit > 0 {
          Store(mem, at, bytes[offset..offset + limit]);
        }
        r := Got(limit);
      }
    }
  }

  /** Writes bytes to a place in memory. */
  method Store(mem: array<int>, at: nat, data: seq<int>)
    requires at + |data| <= mem.Length
    modifies mem
    ensures Holds(mem[..], old(mem[..]), at, data)
  {
    var i := 0;
    while i < |data|
      invariant 0 <= i <= |data|
      invariant forall k :: 0 <= k < mem.Length ==> mem[k] == if at <= k < at + i then data[k - at] else old(mem[k])
    {
      mem[at + i] := data[i];
      i := i + 1;
    }
  }

  /** Memory with a stretch of the file at a place, and otherwise as before. */
  predicate Holds(mem: seq<int>, was: seq<int>, at: nat, data: seq<int>) {
    |mem| == |was| && at + |data| <= |was| && mem == was[..at] + data + was[at + |data|..]
  }

  /** Memory as before outside a stretch. */
  predicate Outside(mem: seq<int>, was: seq<int>, at: nat, n: nat) {
    |mem| == |was| && at + n <= |was| && mem[..at] == was[..at] && mem[at + n..] == was[at + n..]
  }

  lemma HoldsMore(mem: seq<int>, mem': seq<int>, was: seq<int>, at: nat, a: seq<int>, b: seq<int>)
    requires Holds(mem, was, at, a) && Holds(mem', mem, at + |a|, b)
    ensures Holds(mem', was, at, a + b)
  {}

  /** How many of the bytes asked for lie in the file. */
  function Available(file: seq<int>, offset: int, bytes: nat): nat {
    if offset < 0 || offset >= |file| then 0 else if bytes < |file| - offset then bytes else |file| - offset
  }

  /**
   pread_full. With healthy reads it succeeds exactly when the range is in the file, and then the bytes
   are in place and nothing else changed; a range that runs over the end of the file is read up to there.
   */
  method PreadFull(f: File, open: bool, mem: array<int>, at: nat, bytes: nat, offset: int) returns (st: Status)
    requires at + bytes <= mem.Length
    modifies f, mem
    ensures st == Ok && bytes > 0 ==>
              0 <= offset && offset + bytes <= |f.bytes| && Holds(mem[..], old(mem[..]), at, f.bytes[offset..offset + bytes])
    ensures bytes == 0 ==> st == Ok && mem[..] == old(mem[..])
    ensures Outside(mem[..], old(mem[..]), at, bytes)
    ensures Outside(mem[..], old(mem[..]), at, Available(f.bytes, offset, bytes))
    ensures old(f.Healthy()) && open && 0 <= offset ==>
              InPlace(mem[..], old(mem[..]), at, f.bytes, offset, Available(f.bytes, offset, bytes))
    ensures old(f.Healthy()) ==> f.Healthy()
    ensures old(f.Healthy()) && open && 0 <= offset && offset + bytes <= |f.bytes| ==> st == Ok
    ensures bytes > 0 && (!open || offset < 0) ==> st == InvalidArgument
  {
    if bytes == 0 {
      return Ok;
    }
    if !open || offset < 0 {
      return InvalidArgument;
    }
    st := ReadLoop(f, mem, at, bytes, offset);
  }

  method ReadLoop(f: File, mem: array<int>, at: nat, bytes: nat, offset: nat) returns (st: Status)
    requires at + bytes <= mem.Length && bytes > 0
    modifies f, mem
    ensures st == Ok ==> offset + bytes <= |f.bytes| && Holds(mem[..], old(mem[..]), at, f.bytes[offset..offset + bytes])
    ensures st == Ok || st == IoError
    ensures Outside(mem[..], old(mem[..]), at, bytes) && Outside(mem[..], old(mem[..]), at, Available(f.bytes, offset, bytes))
    ensures old(f.Healthy()) ==> f.Healthy() && (offset + bytes <= |f.bytes| ==> st == Ok)
    ensures old(f.Healthy()) ==> InPlace(mem[..], old(mem[..]), at, f.bytes, offset, Available(f.bytes, offset, bytes))
  {
    hide Holds, Outside, InPlace;
    ghost var was := mem[..];
    var done := 0;
    NothingRead(was, at, f.bytes, offset, bytes);
    NothingRead(was, at, f.bytes, offset, Available(f.bytes, offset, bytes));
    while done < bytes
      invariant 0 <= done <= Available(f.bytes, offset, bytes) && InPlace(mem[..], was, at, f.bytes, offset, done)
      invariant Outside(mem[..], was, at, bytes) && Outside(mem[..], was, at, Available(f.bytes, offset, bytes))
      invariant old(f.Healthy()) ==> f.Healthy()
      decreases bytes - done, |f.script|
    {
      ghost var before := mem[..];
      var r := f.Pread(mem, at + done, bytes - done, offset + done);
      match r
      case Again => continue;
      case Broken => return IoError;
      case Got(n) =>
        if n == 0 {
          return IoError;
        }
        Appended(before, mem[..], was, at, f.bytes, offset, done, n);
        done := done + n;
        PartOutside(mem[..], was, at, f.bytes, offset, done, bytes);
        PartOutside(mem[..], was, at, f.bytes, offset, done, Available(f.bytes, offset, bytes));
    }
    WholeInPlace(mem[..], was, at, f.bytes, offset, bytes);
    return Ok;
  }

  /** The first `done` bytes of the range are in place. */
  predicate InPlace(mem: seq<int>, was: seq<int>, at: nat, file: seq<int>, offset: nat, done: nat) {
    if done == 0 then mem == was else offset + done <= |file| && Holds(mem, was, at, file[offset..offset + done])
  }

  lemma Appended(before: seq<int>, mem: seq<int>, was: seq<int>, at: nat, file: seq<int>, offset: nat, done: nat, n: nat)
    requires at + done + n <= |was| == |before| && offset + done + n <= |file| && n > 0
    requires InPlace(before, was, at, file, offset, done)
    requires Holds(mem, before, at + done, file[offset + done..offset + done + n])
    ensures InPlace(mem, was, at, file, offset, done + n)
  {
    assert file[offset..offset + done] + file[offset + done..offset + done + n] == file[offset..offset + done + n];
    if done > 0 {
      HoldsMore(before, mem, was, at, file[offset..offset + done], file[offset + done..offset + done + n]);
    }
  }

  lemma NothingRead(was: seq<int>, at: nat, file: seq<int>, offset: nat, bytes: nat)
    requires at + bytes <= |was|
    ensures InPlace(was, was, at, file, offset, 0) && Outside(was, was, at, bytes)
  {}

  lemma WholeInPlace(mem: seq<int>, was: seq<int>, at: nat, file: seq<int>, offset: nat, bytes: nat)
    requires InPlace(mem, was, at, file, offset, bytes) && bytes > 0
    ensures offset + bytes <= |file| && Holds(mem, was, at, file[offset..offset + bytes])
  {}

  /** A partial read changes nothing outside its stretch. */
  lemma PartOutside(mem: seq<int>, was: seq<int>, at: nat, file: seq<int>, offset: nat, done: nat, bytes: nat)
    requires InPlace(mem, was, at, file, offset, done) && done <= bytes && at + bytes <= |was|
    ensures Outside(mem, was, at, bytes)
  {
    if done > 0 {
      var data := file[offset..offset + done];
      assert mem[..at] == was[..at];
      assert forall k :: at + bytes <= k < |was| ==> mem[k] == was[k];
    }
  }

  // ---------------------------------------------------------------------------------------------
  // The aligned read
  // ---------------------------------------------------------------------------------------------

  /** Rounds towards minus infinity, as clearing the low bits does. */
  function AlignDown(n: int): int {
    n / ALIGN * ALIGN
  }

  function AlignUp(n: nat): nat {
    (n + ALIGN - 1) / ALIGN * ALIGN
  }

  lemma AlignFacts(n: int)
    ensures AlignDown(n) <= n < AlignDown(n) + ALIGN && AlignDown(n) % ALIGN == 0
    ensures n >= 0 ==> AlignDown(n) >= 0 && n <= AlignUp(n) < n + ALIGN && AlignUp(n) % ALIGN == 0
  {}

  /** From a page start, rounding down the distance to the end of the file ends at its last page start. */
  lemma LastPage(size: nat, offset: nat)
    ensures AlignDown(offset) + AlignDown(size - AlignDown(offset)) == AlignDown(size) == size - size % ALIGN
  {
    var q := offset / ALIGN;
    assert size - AlignDown(offset) == size - q * ALIGN;
    assert (size - q * ALIGN) / ALIGN == size / ALIGN - q;
  }

  /** The scratch buffer lies in memory from `scratch` on. */
  datatype Scratch = Scratch(at: nat, size: nat)

  /** The bytes outside both the destination and the scratch buffer are as before. */
  predicate Untouched(mem: seq<int>, was: seq<int>, dst: nat, bytes: nat, s: Scratch) {
    |mem| == |was| &&
    forall k :: 0 <= k < |was| && !(dst <= k < dst + bytes) && !(s.at <= k < s.at + s.size) ==> mem[k] == was[k]
  }

  predicate Moved(mem: seq<int>, was: seq<int>, dst: nat, src: nat, n: nat) {
    src + n <= |was| && Holds(mem, was, dst, was[src..src + n])
  }

  /** memmove */
  method Move(mem: array<int>, dst: nat, src: nat, n: nat)
    requires dst + n <= mem.Length && src + n <= mem.Length
    modifies mem
    ensures Moved(mem[..], old(mem[..]), dst, src, n)
  {
    Store(mem, dst, mem[src..src + n]);
  }

  /** Memory holds n bytes of the file from a0 on. */
  predicate Filled(mem: seq<int>, at: nat, file: seq<int>, a0: nat, n: nat) {
    a0 + n <= |file| && at + n <= |mem| && mem[at..at + n] == file[a0..a0 + n]
  }

  /**
   Reads the window and its tail into the scratch buffer: the bytes from the aligned start to the end
   of the range. A negative window makes the tail start before the buffer.
   */
  method FillScratch(f: File, open: bool, mem: array<int>, s: Scratch, a0: nat, want: nat, dlen: int) returns (st: Status)
    requires s.at + s.size <= mem.Length && want > 0 && dlen <= s.size && want <= s.size
    requires dlen < 0 ==> TailBefore(f.bytes, s, a0, dlen)
    modifies f, mem
    ensures dlen >= 0 ==> Outside(mem[..], old(mem[..]), s.at, s.size)
    ensures st == Ok ==> dlen >= 0
    ensures st == Ok ==> Filled(mem[..], s.at, f.bytes, a0, want)
    ensures old(f.Healthy()) ==> f.Healthy()
    ensures old(f.Healthy()) && open && dlen >= 0 && a0 + want <= |f.bytes| && a0 + dlen <= |f.bytes| ==> st == Ok
    ensures dlen < 0 ==> Outside(mem[..], old(mem[..]), s.at + dlen, |f.bytes| - (a0 + dlen))
    ensures dlen < 0 && old(f.Healthy()) && open ==>
              Holds(mem[..], old(mem[..]), s.at + dlen, f.bytes[a0 + dlen..])
  {
    hide Outside, Holds, Filled, File.Healthy;
    st := ReadWindow(f, mem, s, a0, dlen);
    if st == Ok {
      st := ReadTail(f, open, mem, s, a0, want, dlen, old(mem[..]));
    }
  }

  /** The tail starts inside the file and inside memory, at or before the end of the file, which lies before the page. */
  predicate TailBefore(file: seq<int>, s: Scratch, a0: nat, dlen: int) {
    0 <= a0 + dlen <= |file| < a0 && 0 <= s.at + dlen
  }

  /** The direct part, of whole pages. */
  method ReadWindow(f: File, mem: array<int>, s: Scratch, a0: nat, dlen: int) returns (st: Status)
    requires s.at + s.size <= mem.Length && dlen <= s.size
    modifies f, mem
    ensures Outside(mem[..], old(mem[..]), s.at, s.size)
    ensures dlen <= 0 ==> st == Ok && mem[..] == old(mem[..])
    ensures st == Ok && dlen > 0 ==> Filled(mem[..], s.at, f.bytes, a0, dlen)
    ensures old(f.Healthy()) ==> f.Healthy() && (a0 + dlen <= |f.bytes| ==> st == Ok)
  {
    hide Holds, Outside, InPlace;
    ghost var was := mem[..];
    st := Ok;
    if dlen > 0 {
      st := PreadFull(f, true, mem, s.at, dlen, a0);
      WiderOutside(mem[..], was, s.at, dlen, s.size);
      if st == Ok {
        Stored(mem[..], was, s.at, f.bytes[a0..a0 + dlen]);
      }
    } else {
      SameOutside(was, s.at, s.size);
    }
  }

  /** The rest of the range, when the window ends before it. */
  method ReadTail(f: File, open: bool, mem: array<int>, s: Scratch, a0: nat, want: nat, dlen: int, ghost was: seq<int>)
    returns (st: Status)
    requires s.at + s.size <= mem.Length && want > 0 && dlen <= s.size && want <= s.size
    requires Outside(mem[..], was, s.at, s.size)
    requires dlen > 0 ==> Filled(mem[..], s.at, f.bytes, a0, dlen)
    requires dlen < 0 ==> TailBefore(f.bytes, s, a0, dlen) && mem[..] == was
    modifies f, mem
    ensures dlen >= 0 ==> Outside(mem[..], was, s.at, s.size)
    ensures st == Ok ==> dlen >= 0
    ensures st == Ok ==> Filled(mem[..], s.at, f.bytes, a0, want)
    ensures old(f.Healthy()) ==> f.Healthy() && (open && dlen >= 0 && a0 + want <= |f.bytes| ==> st == Ok)
    ensures dlen < 0 ==> Outside(mem[..], was, s.at + dlen, |f.bytes| - (a0 + dlen))
    ensures dlen < 0 && old(f.Healthy()) && open ==> Holds(mem[..], was, s.at + dlen, f.bytes[a0 + dlen..])
  {
    hide Holds, Outside, InPlace, Available, File.Healthy, Filled;
    st := Ok;
    if dlen < want {
      if dlen < 0 {
        PastTheEnd(f.bytes, s, a0, dlen, want);
        st := EarlyTail(f, open, mem, s, a0, want, dlen);
      } else {
        st := LateTail(f, open, mem, s, a0, want, dlen, was);
      }
    } else {
      FrontPart(mem[..], s.at, f.bytes, a0, dlen, want);
    }
  }

  /** The read of the tail when it starts before the buffer. */
  method EarlyTail(f: File, open: bool, mem: array<int>, s: Scratch, a0: nat, want: nat, dlen: int) returns (st: Status)
    requires s.at + s.size <= mem.Length && want <= s.size && dlen < 0 && TailBefore(f.bytes, s, a0, dlen)
    modifies f, mem
    ensures st != Ok && (old(f.Healthy()) ==> f.Healthy())
    ensures Outside(mem[..], old(mem[..]), s.at + dlen, |f.bytes| - (a0 + dlen))
    ensures old(f.Healthy()) && open ==> Holds(mem[..], old(mem[..]), s.at + dlen, f.bytes[a0 + dlen..])
  {
    hide Holds, Outside, InPlace, Available, File.Healthy, Filled;
    ghost var was := mem[..];
    AvailableToTheEnd(f.bytes, s, a0, dlen, want);
    st := PreadFull(f, open, mem, s.at + dlen, want - dlen, a0 + dlen);
    if old(f.Healthy()) && open {
      UpToTheEnd(mem[..], was, s.at + dlen, f.bytes, a0 + dlen);
    }
    PastTheEnd(f.bytes, s, a0, dlen, want);
  }

  /** The read of the tail when it starts in the buffer, behind the direct part. */
  method LateTail(f: File, open: bool, mem: array<int>, s: Scratch, a0: nat, want: nat, dlen: nat, ghost was: seq<int>)
    returns (st: Status)
    requires s.at + s.size <= mem.Length && dlen < want <= s.size && Outside(mem[..], was, s.at, s.size)
    requires dlen > 0 ==> Filled(mem[..], s.at, f.bytes, a0, dlen)
    modifies f, mem
    ensures Outside(mem[..], was, s.at, s.size) && (st == Ok ==> Filled(mem[..], s.at, f.bytes, a0, want))
    ensures old(f.Healthy()) ==> f.Healthy() && (open && a0 + want <= |f.bytes| ==> st == Ok)
  {
    hide Holds, Outside, InPlace, Available, File.Healthy, Filled;
    ghost var middle := mem[..];
    st := PreadFull(f, open, mem, s.at + dlen, want - dlen, a0 + dlen);
    TailOutside(mem[..], middle, was, s.at, dlen, want - dlen, s.size);
    if st == Ok {
      BothParts(mem[..], middle, s.at, f.bytes, a0, dlen, want);
    }
  }

  lemma PastTheEnd(file: seq<int>, s: Scratch, a0: nat, dlen: int, want: nat)
    requires TailBefore(file, s, a0, dlen) && dlen < 0
    ensures a0 + want > |file|
  {}

  lemma AvailableToTheEnd(file: seq<int>, s: Scratch, a0: nat, dlen: int, want: nat)
    requires TailBefore(file, s, a0, dlen) && dlen < 0
    ensures Available(file, a0 + dlen, want - dlen) == |file| - (a0 + dlen)
  {}

  lemma UpToTheEnd(mem: seq<int>, was: seq<int>, at: nat, file: seq<int>, offset: nat)
    requires offset <= |file| && at <= |was| && InPlace(mem, was, at, file, offset, |file| - offset)
    ensures Holds(mem, was, at, file[offset..])
  {
    assert file[offset..] == file[offset..|file|];
  }

  lemma FrontPart(mem: seq<int>, at: nat, file: seq<int>, a0: nat, dlen: nat, want: nat)
    requires want <= dlen && Filled(mem, at, file, a0, dlen)
    ensures Filled(mem, at, file, a0, want)
  {
    assert mem[at..at + want] == mem[at..at + dlen][..want];
    assert file[a0..a0 + want] == file[a0..a0 + dlen][..want];
  }

  lemma SameOutside(was: seq<int>, at: nat, n: nat)
    requires at + n <= |was|
    ensures Outside(was, was, at, n)
  {}

  lemma WiderOutside(mem: seq<int>, was: seq<int>, at: nat, n: nat, size: nat)
    requires Outside(mem, was, at, n) && n <= size && at + size <= |was|
    ensures Outside(mem, was, at, size)
  {
    assert mem[at + size..] == mem[at + n..][size - n..];
    assert was[at + size..] == was[at + n..][size - n..];
  }

  lemma TailOutside(mem: seq<int>, middle: seq<int>, was: seq<int>, at: nat, skip: nat, n: nat, size: nat)
    requires Outside(mem, middle, at + skip, n) && Outside(middle, was, at, size) && skip + n <= size
    ensures Outside(mem, was, at, size)
  {
    assert mem[..at] == mem[..at + skip][..at] && middle[..at] == middle[..at + skip][..at];
    WiderOutside(mem, middle, at + skip, n, size - skip);
  }

  lemma Stored(mem: seq<int>, was: seq<int>, at: nat, data: seq<int>)
    requires Holds(mem, was, at, data)
    ensures mem[at..at + |data|] == data && mem[..at] == was[..at]
  {}

  /** The window and behind it the tail. */
  lemma BothParts(mem: seq<int>, middle: seq<int>, at: nat, file: seq<int>, a0: nat, dlen: nat, want: nat)
    requires dlen < want && a0 + want <= |file| && Holds(mem, middle, at + dlen, file[a0 + dlen..a0 + want])
    requires dlen > 0 ==> Filled(middle, at, file, a0, dlen)
    ensures Filled(mem, at, file, a0, want)
  {
    assert mem[at..at + dlen] == middle[at..at + dlen];
    assert mem[at + dlen..at + want] == file[a0 + dlen..a0 + want];
    assert mem[at..at + want] == mem[at..at + dlen] + mem[at + dlen..at + want];
    assert file[a0..a0 + want] == file[a0..a0 + dlen] + file[a0 + dlen..a0 + want];
  }

  /** The range goes through the scratch buffer, and its page starts beyond the end of the file. */
  predicate PageBeyond(size: nat, direct: bool, scratch: Option<Scratch>, bytes: nat, offset: nat, statOk: bool) {
    && bytes > 0 && direct && statOk && scratch.Some? && AlignDown(offset) > size
    && AlignUp(offset - AlignDown(offset) + bytes) <= scratch.value.size
  }

  /** Where the last partial page of the file is then put, relative to the scratch buffer: before it. */
  function Before(size: nat, offset: nat): (d: int)
    ensures AlignDown(offset) > size ==> d + size % ALIGN < 0
  {
    LastPage(size, offset);
    AlignDown(size) - AlignDown(offset)
  }

  /**
   pread_direct. It succeeds exactly when the range is in the file; then the destination holds the
   range, also when it overlaps the scratch buffer. Nothing but the destination and the scratch buffer,
   up to its size, is written, unless the page of the range starts beyond the end of the file: then the
   read fails, and the last partial page of the file is put before the scratch buffer, where memory
   must reach.
   */
  method PreadDirect(f: File, direct: bool, open: bool, mem: array<int>, dst: nat, scratch: Option<Scratch>, bytes: nat,
                     offset: nat, statOk: bool) returns (st: Status)
    requires dst + bytes <= mem.Length
    requires scratch.Some? ==> scratch.value.at + scratch.value.size <= mem.Length
    requires PageBeyond(|f.bytes|, direct, scratch, bytes, offset, statOk) ==> scratch.value.at + Before(|f.bytes|, offset) >= 0
    modifies f, mem
    ensures st == Ok && bytes > 0 ==> Filled(mem[..], dst, f.bytes, offset, bytes)
    ensures !PageBeyond(|f.bytes|, direct, scratch, bytes, offset, statOk) ==>
              Untouched(mem[..], old(mem[..]), dst, bytes, if scratch.Some? then scratch.value else Scratch(0, 0))
    ensures old(f.Healthy()) && open && statOk && offset + bytes <= |f.bytes| ==> st == Ok
    ensures PageBeyond(|f.bytes|, direct, scratch, bytes, offset, statOk) ==>
              Outside(mem[..], old(mem[..]), scratch.value.at + Before(|f.bytes|, offset), |f.bytes| % ALIGN)
    ensures PageBeyond(|f.bytes|, direct, scratch, bytes, offset, statOk) && old(f.Healthy()) && open ==>
              Holds(mem[..], old(mem[..]), scratch.value.at + Before(|f.bytes|, offset), f.bytes[AlignDown(|f.bytes|)..])
  {
    hide AlignUp, AlignDown, Outside, Holds, Untouched, File.Healthy;
    if bytes == 0 {
      SameUntouched(mem[..], dst, bytes, if scratch.Some? then scratch.value else Scratch(0, 0));
      return Ok;
    }
    if !direct || scratch.None? {
      st := PlainRead(f, open, mem, dst, bytes, offset, if scratch.Some? then scratch.value else Scratch(0, 0));
      return;
    }
    var s := scratch.value;
    var a0 := AlignDown(offset);
    AlignFacts(offset);
    var want := offset - a0 + bytes;
    var dlen := AlignUp(want);
    AlignFacts(want);
    if dlen > s.size {
      st := PlainRead(f, open, mem, dst, bytes, offset, s);
      return;
    }
    if statOk && a0 + dlen > |f.bytes| {
      dlen := AlignDown(|f.bytes| - a0);
      AlignFacts(|f.bytes| - a0);
      LastPage(|f.bytes|, offset);
    }
    st := ThroughScratch(f, open, mem, dst, s, bytes, offset, a0, dlen);
  }

  lemma SameUntouched(was: seq<int>, dst: nat, bytes: nat, s: Scratch)
    ensures Untouched(was, was, dst, bytes, s)
  {}

  /** Fills the scratch buffer and moves the range out of it, unless it is in place already. */
  method ThroughScratch(f: File, open: bool, mem: array<int>, dst: nat, s: Scratch, bytes: nat, offset: nat, a0: nat, dlen: int)
    returns (st: Status)
    requires dst + bytes <= mem.Length && s.at + s.size <= mem.Length && bytes > 0
    requires a0 <= offset && dlen <= s.size && offset - a0 + bytes <= s.size
    requires dlen < 0 ==> TailBefore(f.bytes, s, a0, dlen)
    modifies f, mem
    ensures st == Ok ==> Filled(mem[..], dst, f.bytes, offset, bytes)
    ensures dlen >= 0 ==> Untouched(mem[..], old(mem[..]), dst, bytes, s)
    ensures old(f.Healthy()) && open && dlen >= 0 && offset + bytes <= |f.bytes| && a0 + dlen <= |f.bytes| ==> st == Ok
    ensures dlen < 0 ==> Outside(mem[..], old(mem[..]), s.at + dlen, |f.bytes| - (a0 + dlen))
    ensures dlen < 0 && old(f.Healthy()) && open ==> Holds(mem[..], old(mem[..]), s.at + dlen, f.bytes[a0 + dlen..])
  {
    hide Outside, Holds, Untouched, TailBefore, File.Healthy, Filled, Moved;
    ghost var was := mem[..];
    var pad := offset - a0;
    st := FillScratch(f, open, mem, s, a0, pad + bytes, dlen);
    if dlen >= 0 {
      OnlyScratch(mem[..], was, dst, bytes, s);
    }
    if st != Ok {
      return;
    }
    ghost var filled := mem[..];
    RangeInWindow(filled, s.at, pad, bytes, f.bytes, a0, pad + bytes);
    if dst != s.at + pad {
      Move(mem, dst, s.at + pad, bytes);
      MovedOnly(mem[..], filled, was, dst, bytes, s, pad, f.bytes, offset);
    }
  }

  /** The fallback reads straight into the destination. */
  method PlainRead(f: File, open: bool, mem: array<int>, dst: nat, bytes: nat, offset: nat, ghost s: Scratch) returns (st: Status)
    requires dst + bytes <= mem.Length && bytes > 0
    modifies f, mem
    ensures st == Ok ==> Filled(mem[..], dst, f.bytes, offset, bytes)
    ensures Untouched(mem[..], old(mem[..]), dst, bytes, s)
    ensures old(f.Healthy()) && open && offset + bytes <= |f.bytes| ==> st == Ok
  {
    hide Outside, Holds;
    ghost var was := mem[..];
    st := PreadFull(f, open, mem, dst, bytes, offset);
    if st == Ok {
      Stored(mem[..], was, dst, f.bytes[offset..offset + bytes]);
    }
    OnlyDestination(mem[..], was, dst, bytes, s);
  }

  lemma OnlyDestination(mem: seq<int>, was: seq<int>, dst: nat, bytes: nat, s: Scratch)
    requires Outside(mem, was, dst, bytes)
    ensures Untouched(mem, was, dst, bytes, s)
  {
    forall k | 0 <= k < |was| && !(dst <= k < dst + bytes)
      ensures mem[k] == was[k]
    {
      assert k < dst ==> mem[..dst][k] == was[..dst][k];
      assert k >= dst + bytes ==> mem[dst + bytes..][k - dst - bytes] == was[dst + bytes..][k - dst - bytes];
    }
  }

  lemma OnlyScratch(mem: seq<int>, was: seq<int>, dst: nat, bytes: nat, s: Scratch)
    requires Outside(mem, was, s.at, s.size)
    ensures Untouched(mem, was, dst, bytes, s)
  {
    OnlyDestination(mem, was, s.at, s.size, s);
  }

  /** The range inside the window. */
  lemma RangeInWindow(mem: seq<int>, at: nat, pad: nat, bytes: nat, file: seq<int>, a0: nat, want: nat)
    requires want == pad + bytes && Filled(mem, at, file, a0, want)
    ensures Filled(mem, at + pad, file, a0 + pad, bytes)
  {
    assert mem[at + pad..at + want] == mem[at..at + want][pad..];
    assert file[a0 + pad..a0 + want] == file[a0..a0 + want][pad..];
  }

  lemma MovedOnly(mem: seq<int>, filled: seq<int>, was: seq<int>, dst: nat, bytes: nat, s: Scratch, pad: nat,
                  file: seq<int>, offset: nat)
    requires Moved(mem, filled, dst, s.at + pad, bytes) && Filled(filled, s.at + pad, file, offset, bytes)
    requires Untouched(filled, was, dst, bytes, s)
    ensures Untouched(mem, was, dst, bytes, s) && Filled(mem, dst, file, offset, bytes)
  {}

  /** A stretch of memory replaced. */
  function Replaced(was: seq<int>, at: nat, data: seq<int>): seq<int>
    requires at + |data| <= |was|
  {
    was[..at] + data + was[at + |data|..]
  }

  /** Such a failed read leaves all memory of n bytes outside the scratch buffer alone. */
  ghost predicate LeavesMemory(file: seq<int>, n: nat, s: Scratch, at: nat) {
    at + |file| % ALIGN <= n &&
    forall was: seq<int> :: |was| == n ==> Outside(Replaced(was, at, file[|file| - |file| % ALIGN..]), was, s.at, s.size)
  }

  /** When the page starts beyond the end, nothing outside is written exactly for files of whole pages. */
  lemma WholePagesOnly(file: seq<int>, n: nat, s: Scratch, offset: nat)
    requires s.at + s.size <= n && AlignDown(offset) > |file| && s.at + Before(|file|, offset) >= 0
    ensures LeavesMemory(file, n, s, s.at + Before(|file|, offset)) <==> |file| % ALIGN == 0
  {
    hide AlignDown, Before, Outside, Replaced;
    var at := s.at + Before(|file|, offset);
    var data := file[|file| - |file| % ALIGN..];
    if data == [] {
      forall was: seq<int> | |was| == n
        ensures Outside(Replaced(was, at, data), was, s.at, s.size)
      {
        ReplacedByNothing(was, at, s);
      }
    } else {
      ReplacedBefore(seq(n, k => data[0] + 1), at, data, s);
    }
  }

  lemma ReplacedByNothing(was: seq<int>, at: nat, s: Scratch)
    requires at <= |was| && s.at + s.size <= |was|
    ensures Outside(Replaced(was, at, []), was, s.at, s.size)
  {
    assert Replaced(was, at, []) == was;
  }

  lemma ReplacedBefore(was: seq<int>, at: nat, data: seq<int>, s: Scratch)
    requires data != [] && at + |data| <= s.at && s.at + s.size <= |was| && was[at] != data[0]
    ensures !Outside(Replaced(was, at, data), was, s.at, s.size)
  {
    assert Replaced(was, at, data)[..s.at][at] == data[0];
    assert was[..s.at][at] == was[at];
  }

  /** A one-byte file, read at its second page into a scratch buffer behind one page of other memory. */
  method PageBeyondFile() returns (mem: array<int>, st: Status)
    ensures mem.Length == 2 * ALIGN && mem[0] == 7 && st != Ok
  {
    hide Outside;
    mem := new int[2 * ALIGN](k => 0);
    var f := new File([7], []);
    st := PreadDirect(f, true, true, mem, ALIGN, Some(Scratch(ALIGN, ALIGN)), 1, ALIGN, true);
    assert mem[..][0] == 7;
  }
}
