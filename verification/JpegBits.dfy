/**
 The bit reader of the JPEG decoder: removal of stuffed zero bytes and a 32-bit bit buffer, against
 the bit sequence that the entropy-coded bytes stand for.
 */
module JpegBits {
  import opened Arith
  import opened Bytes

  function Pow2(n: nat): (r: nat)
    ensures r > 0
  {
    if n == 0 then 1 else 2 * Pow2(n - 1)
  }

  /** v << n */
  function Shl(v: nat, n: nat): nat {
    if n == 0 then v else 2 * Shl(v, n - 1)
  }

  lemma {:induction false} ShlGrows(a: nat, b: nat, n: nat)
    requires a < b
    ensures Shl(a, n) + Pow2(n) <= Shl(b, n)
  {
    if n > 0 {
      ShlGrows(a, b, n - 1);
    }
  }

  /** v >> n */
  function Shr(v: nat, n: nat): nat {
    if n == 0 then v else Shr(v / 2, n - 1)
  }

  lemma {:induction false} Pow2Add(a: nat, b: nat)
    ensures Pow2(a + b) == Pow2(a) * Pow2(b)
  {
    if b > 0 {
      Pow2Add(a, b - 1);
      assert Pow2(a) * (2 * Pow2(b - 1)) == 2 * (Pow2(a) * Pow2(b - 1));
    }
  }

  /** The number a bit sequence stands for, first bit most significant. */
  function Value(bits: seq<bool>): nat {
    if bits == [] then 0 else 2 * Value(bits[..|bits| - 1]) + if bits[|bits| - 1] then 1 else 0
  }

  /** The n low bits of v, most significant first. */
  function Bits(v: nat, n: nat): (r: seq<bool>)
    ensures |r| == n
  {
    if n == 0 then [] else Bits(v / 2, n - 1) + [v % 2 == 1]
  }

  lemma {:induction false} ValueBelow(b: seq<bool>)
    ensures Value(b) < Pow2(|b|)
  {
    if b != [] {
      ValueBelow(b[..|b| - 1]);
    }
  }

  lemma {:induction false} ValueOfBits(v: nat, n: nat)
    ensures Value(Bits(v, n)) == v % Pow2(n)
  {
    if n > 0 {
      ValueOfBits(v / 2, n - 1);
      assert Bits(v, n)[..n - 1] == Bits(v / 2, n - 1);
      ModHalf(v, Pow2(n - 1));
    }
  }

  lemma ModHalf(v: nat, p: nat)
    requires p > 0
    ensures v % (2 * p) == 2 * (v / 2 % p) + v % 2
  {
    var q, r := v / 2 / p, v / 2 % p;
    assert v / 2 == q * p + r;
    assert v == q * (2 * p) + (2 * r + v % 2);
    QuotientIs(2 * p, v, q, 2 * r + v % 2);
  }

  lemma {:induction false} BitsOfValue(b: seq<bool>)
    ensures Bits(Value(b), |b|) == b
  {
    if b != [] {
      BitsOfValue(b[..|b| - 1]);
    }
  }

  lemma {:induction false} ValueConcat(a: seq<bool>, b: seq<bool>)
    ensures Value(a + b) == Shl(Value(a), |b|) + Value(b)
  {
    if b == [] {
      assert a + b == a;
    } else {
      var b' := b[..|b| - 1];
      ValueConcat(a, b');
      assert (a + b)[..|a + b| - 1] == a + b';
    }
  }

  /** A sequence begins with the i bits of a number exactly when its first i bits have that value. */
  lemma PrefixIsValue(s: seq<bool>, code: nat, i: nat)
    requires code < Pow2(i)
    ensures Bits(code, i) <= s <==> i <= |s| && Value(s[..i]) == code
  {
    hide Bits, Value, Pow2;
    ValueOfBits(code, i);
    QuotientIs(Pow2(i), code, 0, code);
    if i <= |s| {
      BitsOfValue(s[..i]);
      assert |s[..i]| == i;
      assert Bits(code, i) <= s <==> s[..i] == Bits(code, i);
    }
  }

  /** The high a and the low b bits of a number. */
  lemma {:induction false} BitsSplit(v: nat, a: nat, b: nat)
    ensures Bits(v, a + b) == Bits(Shr(v, b), a) + Bits(v, b)
  {
    if b > 0 {
      BitsSplit(v / 2, a, b - 1);
      assert Bits(v, a + b) == Bits(v / 2, a + (b - 1)) + [v % 2 == 1];
    }
  }

  // ---------------------------------------------------------------------------------------------
  // Bytes: stuffing, and the bits they stand for
  // ---------------------------------------------------------------------------------------------

  function BytesToBits(s: seq<Byte>): (r: seq<bool>)
    ensures |r| == 8 * |s|
  {
    if s == [] then [] else Bits(s[0], 8) + BytesToBits(s[1..])
  }

  lemma FirstByte(u: seq<Byte>)
    requires u != []
    ensures BytesToBits(u) == Bits(u[0], 8) + BytesToBits(u[1..])
  {}

  lemma {:induction false} BytesConcat(a: seq<Byte>, b: seq<Byte>)
    ensures BytesToBits(a + b) == BytesToBits(a) + BytesToBits(b)
  {
    hide Bits;
    if a == [] {
      assert a + b == b;
    } else {
      BytesConcat(a[1..], b);
      assert (a + b)[1..] == a[1..] + b;
    }
  }

  /** The bytes up to the first marker or the end, without the zero after each 0xFF. */
  function Unstuff(d: seq<Byte>): seq<Byte> {
    if d == [] then []
    else if d[0] != 0xff then [d[0]] + Unstuff(d[1..])
    else if |d| >= 2 && d[1] == 0 then [0xff] + Unstuff(d[2..])
    else []
  }

  /** What an encoder writes: a zero byte after each 0xFF (section F.1.2.3 of ITU-T T.81). */
  function Stuff(s: seq<Byte>): seq<Byte> {
    if s == [] then [] else StuffOne(s[0]) + Stuff(s[1..])
  }

  function StuffOne(b: Byte): seq<Byte> {
    if b == 0xff then [0xff, 0] else [b]
  }

  lemma {:induction false} UnstuffUndoesStuff(s: seq<Byte>, tail: seq<Byte>)
    ensures Unstuff(Stuff(s) + tail) == s + Unstuff(tail)
  {
    hide Stuff, Unstuff, StuffOne;
    StuffStep(s, tail);
    if s != [] {
      UnstuffUndoesStuff(s[1..], tail);
      UnstuffOne(s[0], Stuff(s[1..]) + tail);
      Assoc(StuffOne(s[0]), Stuff(s[1..]), tail);
      Assoc([s[0]], s[1..], Unstuff(tail));
    }
  }

  lemma StuffStep(s: seq<Byte>, tail: seq<Byte>)
    ensures s == [] ==> Stuff(s) + tail == tail && s + Unstuff(tail) == Unstuff(tail)
    ensures s != [] ==> Stuff(s) == StuffOne(s[0]) + Stuff(s[1..]) && s == [s[0]] + s[1..]
  {
    hide Unstuff, StuffOne;
  }

  lemma Assoc<T>(a: seq<T>, b: seq<T>, c: seq<T>)
    ensures a + b + c == a + (b + c)
  {}

  lemma UnstuffOne(b: Byte, rest: seq<Byte>)
    ensures Unstuff(StuffOne(b) + rest) == [b] + Unstuff(rest)
  {
    var d := StuffOne(b) + rest;
    if b == 0xff {
      assert d[2..] == rest;
    } else {
      assert d[1..] == rest;
    }
  }

  /** Padding with 1-bits to a whole number of bytes. */
  function Pad(bits: seq<bool>): (r: seq<bool>)
    ensures |r| % 8 == 0 && bits <= r
    decreases (8 - |bits| % 8) % 8
  {
    if |bits| % 8 == 0 then bits
    else
      PadStep(|bits|);
      var r := Pad(bits + [true]);
      assert bits == (bits + [true])[..|bits|];
      r
  }

  lemma PadStep(n: nat)
    requires n % 8 != 0
    ensures (8 - (n + 1) % 8) % 8 < (8 - n % 8) % 8
  {}

  function Pack(bits: seq<bool>): seq<Byte>
    requires |bits| % 8 == 0
  {
    if bits == [] then []
    else
      ValueBelow(bits[..8]);
      assert Pow2(8) == 256;
      [Value(bits[..8])] + Pack(bits[8..])
  }

  lemma {:induction false} BitsOfPack(bits: seq<bool>)
    requires |bits| % 8 == 0
    ensures BytesToBits(Pack(bits)) == bits
  {
    if bits != [] {
      BitsOfPack(bits[8..]);
      BitsOfValue(bits[..8]);
      ValueBelow(bits[..8]);
      assert Pow2(8) == 256;
      var p := Pack(bits);
      assert p[0] == Value(bits[..8]) && p[1..] == Pack(bits[8..]);
    }
  }

  /** The bytes of an entropy-coded segment. */
  function Segment(bits: seq<bool>): seq<Byte> {
    Stuff(Pack(Pad(bits)))
  }

  /** A reader that starts at a segment sees its bits first, whatever follows it. */
  lemma SegmentBits(bits: seq<bool>, tail: seq<Byte>)
    ensures bits <= BytesToBits(Unstuff(Segment(bits) + tail))
  {
    UnstuffUndoesStuff(Pack(Pad(bits)), tail);
    BytesConcat(Pack(Pad(bits)), Unstuff(tail));
    BitsOfPack(Pad(bits));
  }

  // ---------------------------------------------------------------------------------------------
  // The reader
  // ---------------------------------------------------------------------------------------------

  /** buf << 8 | byte on 32 bits keeps the nbits low bits of buf and appends the byte's. */
  lemma ShiftIn(buf: nat, nbits: nat, b: Byte)
    requires nbits <= 24
    ensures Bits((buf * 256 + b) % 0x1_0000_0000, nbits + 8) == Bits(buf, nbits) + Bits(b, 8)
  {
    hide Pow2, Bits;
    PowersOfBytes();
    LowBits(buf * 256 + b, nbits + 8, 32);
    Join(buf, nbits, b, 8);
  }

  /** Shifting a byte in keeps what is unread, for every buffer with that many unread bits. */
  ghost predicate KeepsUnread(nbits: nat) {
    forall buf: nat, b: Byte :: buf < 0x1_0000_0000 ==>
      Bits((buf * 256 + b) % 0x1_0000_0000, nbits + 8) == Bits(buf, nbits) + Bits(b, 8)
  }

  /** A buffer of 32 bits takes another byte exactly while at most 24 bits are unread. */
  lemma ShiftInWhen(nbits: nat)
    requires nbits <= 32
    ensures KeepsUnread(nbits) <==> nbits <= 24
  {
    hide Bits;
    if nbits <= 24 {
      forall buf: nat, b: Byte | buf < 0x1_0000_0000
        ensures Bits((buf * 256 + b) % 0x1_0000_0000, nbits + 8) == Bits(buf, nbits) + Bits(b, 8)
      {
        ShiftIn(buf, nbits, b);
      }
    } else {
      var buf := Pow2(nbits - 1);
      ShiftedOut(nbits);
      hide Pow2;
      TopOfPower(nbits);
      TopOfZero(nbits + 8);
      var b: Byte := 0;
      assert Bits((buf * 256 + b) % 0x1_0000_0000, nbits + 8)[0] != (Bits(buf, nbits) + Bits(b, 8))[0];
    }
  }

  lemma ShiftedOut(nbits: nat)
    requires 25 <= nbits <= 32
    ensures Pow2(nbits - 1) < 0x1_0000_0000 && (Pow2(nbits - 1) * 256) % 0x1_0000_0000 == 0
  {
    hide Pow2;
    PowersOfBytes();
    Pow2Add(24, nbits - 25);
    Pow2Add(nbits - 1, 33 - nbits);
    Pow2More(33 - nbits);
    FitsAndMultiple(Pow2(nbits - 1), Pow2(nbits - 25), Pow2(33 - nbits));
  }

  lemma PowersOfBytes()
    ensures Pow2(8) == 256 && Pow2(24) == 0x100_0000 && Pow2(32) == 0x1_0000_0000
  {
    assert Pow2(8) == 256;
    hide Pow2;
    Pow2Add(8, 8);
    Pow2Add(16, 8);
    Pow2Add(16, 16);
  }

  lemma Pow2More(n: nat)
    requires n > 0
    ensures Pow2(n) >= 2
  {}

  lemma FitsAndMultiple(p: nat, q: nat, r: nat)
    requires p == 0x100_0000 * q && p * r == 0x1_0000_0000 && r >= 2 && q > 0
    ensures p < 0x1_0000_0000 && (p * 256) % 0x1_0000_0000 == 0
  {
    assert p * 2 <= p * r;
    assert p * 256 == q * 0x1_0000_0000;
  }

  lemma {:induction false} TopOfPower(n: nat)
    requires n > 0
    ensures Bits(Pow2(n - 1), n)[0]
  {
    if n > 1 {
      TopOfPower(n - 1);
      assert Bits(Pow2(n - 1), n) == Bits(Pow2(n - 2), n - 1) + [Pow2(n - 1) % 2 == 1];
    }
  }

  lemma {:induction false} TopOfZero(n: nat)
    requires n > 0
    ensures !Bits(0, n)[0]
  {
    if n > 1 {
      TopOfZero(n - 1);
      assert Bits(0, n) == Bits(0, n - 1) + [false];
    }
  }

  lemma {:induction false} Join(hi: nat, n: nat, lo: nat, k: nat)
    requires lo < Pow2(k)
    ensures Bits(hi * Pow2(k) + lo, n + k) == Bits(hi, n) + Bits(lo, k)
  {
    if k > 0 {
      Join(hi, n, lo / 2, k - 1);
      Halves(hi, Pow2(k - 1), lo);
      assert Pow2(k) == 2 * Pow2(k - 1);
      hide Pow2;
    }
  }

  lemma Halves(hi: nat, p: nat, lo: nat)
    ensures (hi * (2 * p) + lo) / 2 == hi * p + lo / 2 && (hi * (2 * p) + lo) % 2 == lo % 2
  {
    assert hi * (2 * p) == 2 * (hi * p);
  }

  /** The low n bits do not depend on the bits from w on. */
  lemma {:induction false} LowBits(v: nat, n: nat, w: nat)
    requires n <= w
    ensures Bits(v % Pow2(w), n) == Bits(v, n)
  {
    if n > 0 {
      LowBits(v / 2, n - 1, w - 1);
      ModHalf(v, Pow2(w - 1));
    }
  }

  lemma TopBits(v: nat, n: nat, k: nat)
    ensures Bits(v, n + k)[n..] == Bits(v, k) && Value(Bits(v, n + k)[..n]) == Shr(v, k) % Pow2(n)
  {
    hide Shr, Pow2, Value, Bits;
    BitsSplit(v, n, k);
    ValueOfBits(Shr(v, k), n);
  }

  class BitReader {
    const data: seq<Byte>
    var p: nat
    var buf: nat
    var nbits: nat
    var err: bool

    ghost predicate Valid()
      reads this
    {
      p <= |data| && buf < 0x1_0000_0000 && nbits <= 38 && (!err ==> nbits <= 7)
    }

    /** The bits that are still to be read. */
    ghost function Rest(): seq<bool>
      reads this
      requires p <= |data|
    {
      Bits(buf, nbits) + BytesToBits(Unstuff(data[p..]))
    }

    constructor (data: seq<Byte>)
      ensures Valid() && fresh(this) && !err && nbits == 0 && this.data == data && Rest() == BytesToBits(Unstuff(data))
    {
      this.data, p, buf, nbits, err := data, 0, 0, 0, false;
      new;
      assert data[0..] == data;
    }

    /** The next byte of the segment; at a marker or the end an error. */
    method NextByte() returns (b: Byte)
      requires p <= |data|
      modifies this`p, this`err
      ensures p <= |data| && (old(err) ==> err)
      ensures var u := Unstuff(old(data[p..]));
              if u == [] then err && b == 0 else b == u[0] && Unstuff(data[p..]) == u[1..] && err == old(err)
    {
      if p >= |data| {
        err := true;
        return 0;
      }
      ghost var d := data[p..];
      b := data[p];
      p := p + 1;
      assert data[p..] == d[1..];
      if b == 0xff {
        if p >= |data| {
          err := true;
          return 0;
        }
        var n := data[p];
        if n == 0 {
          p := p + 1;
          assert data[p..] == d[2..];
          return 0xff;
        }
        err := true;
        return 0;
      }
    }

    /**
     Reads n bits, most significant first, or fails when fewer are left. Up to 25 bits arrive completely,
     see ReceivedWhen; a wider shift than 31 is undefined.
     */
    method Get(n: nat) returns (r: nat)
      requires Valid() && n <= 31
      modifies this`p, this`buf, this`nbits, this`err
      ensures Valid() && (old(err) ==> err)
      ensures !old(err) ==> (err <==> n > |old(Rest())|)
      ensures err && !old(err) ==> r == 0
      ensures !err ==> n <= |old(Rest())| && r == Received(old(Rest()), n) && Rest() == old(Rest())[n..]
    {
      hide Bits, BytesToBits, Unstuff, Pow2, Shr, Value, Holding, Received, BitReader.Rest;
      ghost var s := Rest();
      var ok;
      ghost var unread;
      ok, unread := Fetch(n);
      if !ok {
        return 0;
      }
      nbits := nbits - n;
      r := Shr(buf, nbits) % Pow2(n);
      if !err {
        TakenOut(buf, n, nbits, unread);
        Delivered(s, n, nbits, unread, Unstuff(data[p..]), r);
        RestIs();
      }
    }

    lemma RestIs()
      requires p <= |data|
      ensures Rest() == Bits(buf, nbits) + BytesToBits(Unstuff(data[p..]))
    {}

    /** Reads bytes until n bits are unread, or fails. */
    method Fetch(n: nat) returns (ok: bool, ghost unread: seq<bool>)
      requires Valid() && n <= 31
      modifies this`p, this`buf, this`nbits, this`err
      ensures p <= |data| && buf < 0x1_0000_0000 && nbits <= 38
      ensures if ok then err == old(err) && nbits >= n && (nbits == old(nbits) || nbits < n + 8)
              else err && (old(err) || n > |old(Rest())|)
      ensures ok ==> Holding(buf, nbits, unread) && |unread| == nbits &&
                     old(Rest()) == unread + BytesToBits(Unstuff(data[p..]))
    {
      hide Bits, BytesToBits, Unstuff, Holding;
      ghost var s := Rest();
      unread := Bits(buf, nbits);
      HoldsAtFirst(buf, nbits);
      while nbits < n
        invariant p <= |data| && buf < 0x1_0000_0000 && nbits <= 38 && err == old(err)
        invariant nbits == old(nbits) || nbits < n + 8
        invariant Holding(buf, nbits, unread) && |unread| == nbits && s == unread + BytesToBits(Unstuff(data[p..]))
      {
        ghost var u, buf0, nbits0 := Unstuff(data[p..]), buf, nbits;
        var b := NextByte();
        buf := (buf * 256 + b) % 0x1_0000_0000;
        nbits := nbits + 8;
        if err {
          return false, unread;
        }
        HoldsOneMore(buf0, nbits0, unread, b);
        FirstByte(u);
        assert unread + (Bits(b, 8) + BytesToBits(u[1..])) == unread + Bits(b, 8) + BytesToBits(u[1..]);
        unread := unread + Bits(b, 8);
      }
      ok := true;
    }
  }

  /** The bits taken out, and those left, in terms of the whole rest. */
  lemma Delivered(s: seq<bool>, n: nat, k: nat, unread: seq<bool>, u: seq<Byte>, r: nat)
    requires s == unread + BytesToBits(u) && |unread| == n + k && k <= 7 && n <= 31
    requires r == Value(unread[Lost(n, k)..n])
    ensures n <= |s| && r == Received(s, n) && s[n..] == unread[n..] + BytesToBits(u)
  {
    hide Value, BytesToBits;
    WholeBytesLeft(|s| - n, k, |u|);
    assert s[Lost(n, k)..n] == unread[Lost(n, k)..n];
  }

  lemma WholeBytesLeft(left: int, k: nat, bytes: nat)
    requires left == k + 8 * bytes && k <= 7
    ensures left % 8 == k
  {}

  // ---------------------------------------------------------------------------------------------
  // Bits that a 32-bit buffer loses
  // ---------------------------------------------------------------------------------------------

  /** How many of the first n bits have left the buffer when k bits stay unread behind them. */
  function Lost(n: nat, k: nat): nat {
    if n + k > 32 then n + k - 32 else 0
  }

  /** What a request for n bits delivers: the bits left after it fill the last byte. */
  function Received(s: seq<bool>, n: nat): nat
    requires n <= |s| && n <= 31
  {
    Value(s[Lost(n, (|s| - n) % 8)..n])
  }

  /** All bits arrive up to 25 of them; beyond that exactly when the lost ones are zero. */
  lemma ReceivedWhen(s: seq<bool>, n: nat)
    requires n <= |s| && n <= 31
    ensures Received(s, n) == Value(s[..n]) <==> true !in s[..Lost(n, (|s| - n) % 8)]
    ensures n <= 25 ==> Received(s, n) == Value(s[..n])
  {
    var lost := Lost(n, (|s| - n) % 8);
    assert s[..n] == s[..lost] + s[lost..n];
    LeadingBits(s[..lost], s[lost..n]);
    if n <= 25 {
      assert s[..lost] == [];
    }
  }

  lemma LeadingBits(a: seq<bool>, b: seq<bool>)
    ensures Value(a + b) == Value(b) <==> true !in a
  {
    ValueConcat(a, b);
    ZeroBits(a);
    ShlPositive(Value(a), |b|);
  }

  lemma {:induction false} ZeroBits(a: seq<bool>)
    ensures Value(a) == 0 <==> true !in a
  {
    if a != [] {
      ZeroBits(a[..|a| - 1]);
      assert a == a[..|a| - 1] + [a[|a| - 1]];
    }
  }

  lemma {:induction false} ShlPositive(v: nat, n: nat)
    ensures Shl(v, n) == 0 <==> v == 0
  {
    if n > 0 {
      ShlPositive(v, n - 1);
    }
  }

  function Fitting(n: nat): nat {
    if n < 32 then n else 32
  }

  /** The buffer holds the unread bits, or the last 32 of them. */
  predicate Holding(buf: nat, nbits: nat, unread: seq<bool>) {
    |unread| == nbits && Bits(buf, Fitting(nbits)) == unread[nbits - Fitting(nbits)..]
  }

  lemma HoldsAtFirst(buf: nat, nbits: nat)
    ensures Holding(buf, nbits, Bits(buf, nbits))
  {
    hide Bits, Shr;
    if nbits > 32 {
      BitsSplit(buf, nbits - 32, 32);
    }
  }

  lemma HoldsOneMore(buf: nat, nbits: nat, unread: seq<bool>, b: Byte)
    requires Holding(buf, nbits, unread) && nbits < 32
    ensures Holding((buf * 256 + b) % 0x1_0000_0000, nbits + 8, unread + Bits(b, 8))
  {
    hide Bits, Shr, Pow2;
    if nbits <= 24 {
      ShiftIn(buf, nbits, b);
    } else {
      PowersOfBytes();
      LowBits(buf * 256 + b, 32, 32);
      Join(buf, 24, b, 8);
      BitsSplit(buf, nbits - 24, 24);
      assert Bits(buf, 24) == unread[nbits - 24..];
      assert (unread + Bits(b, 8))[nbits - 24..] == unread[nbits - 24..] + Bits(b, 8);
    }
  }

  /** Taking n bits out of the buffer, with k left. */
  lemma TakenOut(buf: nat, n: nat, k: nat, unread: seq<bool>)
    requires buf < 0x1_0000_0000 && Holding(buf, n + k, unread) && k <= 7 && n <= 31
    ensures Shr(buf, k) % Pow2(n) == Value(unread[Lost(n, k)..n]) && Bits(buf, k) == unread[n..]
  {
    hide Bits, Shr, Pow2, Value;
    if n + k <= 32 {
      TopBits(buf, n, k);
      assert unread[0..n] == Bits(buf, n + k)[..n];
    } else {
      var m := 32 - k;
      TopBits(buf, m, k);
      HighBits(buf, m, k, n);
      assert Bits(buf, 32) == unread[Lost(n, k)..];
      assert unread[Lost(n, k)..][..m] == unread[Lost(n, k)..n];
      assert unread[Lost(n, k)..][m..] == unread[n..];
    }
  }

  /** What a 32-bit number has above its low k bits. */
  lemma HighBits(buf: nat, m: nat, k: nat, n: nat)
    requires buf < 0x1_0000_0000 && m + k == 32 && m <= n
    ensures Shr(buf, k) % Pow2(n) == Shr(buf, k) % Pow2(m)
  {
    hide Shr;
    PowersOfBytes();
    ShrBelow(buf, k, m);
    PowGrows(m, n);
    hide Pow2;
    QuotientIs(Pow2(n), Shr(buf, k), 0, Shr(buf, k));
    QuotientIs(Pow2(m), Shr(buf, k), 0, Shr(buf, k));
  }

  lemma {:induction false} ShrBelow(v: nat, k: nat, m: nat)
    requires v < Pow2(m + k)
    ensures Shr(v, k) < Pow2(m)
  {
    if k > 0 {
      ShrBelow(v / 2, k - 1, m);
    }
  }

  lemma {:induction false} PowGrows(m: nat, n: nat)
    requires m <= n
    ensures Pow2(m) <= Pow2(n)
  {
    if m < n {
      PowGrows(m, n - 1);
    }
  }
}
