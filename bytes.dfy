/** Fixed-width big-endian integers, as written by Python's `int.to_bytes` and
    Go's `binary.Write(..., binary.BigEndian, ...)` and read back by
    `int.from_bytes`. */
module Bytes {

  type byte = x: int | 0 <= x < 256

  /** 256^w: the number of distinct values of a w-byte field. */
  function Pow256(w: nat): (r: int)
    ensures r > 0
  {
    if w == 0 then 1 else 256 * Pow256(w - 1)
  }

  /** The w low-order bytes of the two's-complement form of x, most significant
      first. For 0 <= x < 256^w this is the unsigned encoding; for a negative x
      it is the signed one; for any other x it is Go's truncating conversion. */
  function ToBE(x: int, w: nat): (r: seq<byte>)
    ensures |r| == w
    decreases w
  {
    if w == 0 then [] else ToBE(x / 256, w - 1) + [x % 256]
  }

  /** Unsigned big-endian value of a byte string (`int.from_bytes(s, "big")`);
      the empty string reads as 0. */
  function FromBE(s: seq<byte>): (r: nat)
    ensures r < Pow256(|s|)
  {
    if s == [] then 0
    else
      var hi := FromBE(s[..|s| - 1]);
      assert hi * 256 <= (Pow256(|s| - 1) - 1) * 256;
      hi * 256 + s[|s| - 1]
  }

  /** Signed (two's-complement) big-endian value
      (`int.from_bytes(s, "big", signed=True)`); the empty string reads as 0. */
  function FromBESigned(s: seq<byte>): (r: int)
    ensures s != [] ==> -Pow256(|s|) / 2 <= r < Pow256(|s|) / 2
  {
    var v := FromBE(s);
    if s != [] && v >= Pow256(|s|) / 2 then v - Pow256(|s|) else v
  }

  /** Python's `s[lo:hi]` for non-negative bounds: clipped to the string and
      empty when the bounds cross, never an error. */
  function PySlice(s: seq<byte>, lo: nat, hi: nat): (r: seq<byte>)
    ensures |r| <= |s|
    ensures lo <= hi <= |s| ==> r == s[lo..hi]
    ensures |r| == if lo <= hi && hi <= |s| then hi - lo else if lo < |s| && lo <= hi then |s| - lo else 0
  {
    var h := if hi <= |s| then hi else |s|;
    if lo >= h then [] else s[lo..h]
  }

  /** A wider field holds at least as many values. */
  lemma {:induction false} Pow256Mono(a: nat, b: nat)
    requires a <= b
    ensures Pow256(a) <= Pow256(b)
    decreases b
  {
    if a < b {
      Pow256Mono(a, b - 1);
    }
  }

  /** `int.from_bytes(s[offset:offset + w], "big")`: an unsigned w-byte field
      read at offset; a field cut short by the end of s reads as what is there. */
  function ReadUInt(s: seq<byte>, offset: nat, w: nat): (r: nat)
    ensures r < Pow256(w)
    ensures offset + w <= |s| ==> r == FromBE(s[offset..offset + w])
  {
    var f := PySlice(s, offset, offset + w);
    Pow256Mono(|f|, w);
    FromBE(f)
  }

  /** `int.from_bytes(s[offset:offset + w], "big", signed=True)`. */
  function ReadInt(s: seq<byte>, offset: nat, w: nat): (r: int)
    ensures offset + w <= |s| ==> r == FromBESigned(s[offset..offset + w])
    ensures w > 0 ==> -Pow256(w) / 2 <= r < Pow256(w) / 2
  {
    var f := PySlice(s, offset, offset + w);
    Pow256Mono(|f|, w);
    assert w > 0 ==> Pow256(w) >= 256 by {
      if w > 0 { Pow256Mono(1, w); }
    }
    FromBESigned(f)
  }

  /** A value x equal to m * a + b with 0 <= b < m leaves remainder b. */
  lemma ModUnique(x: int, m: int, a: int, b: int)
    requires m > 0 && 0 <= b < m && x == m * a + b
    ensures x % m == b && x / m == a
  {
    var q, r := x / m, x % m;
    var k := a - q;
    assert m * k == r - b by {
      assert x == m * q + r;
      assert m * a - m * q == m * (a - q);
    }
    if k > 0 {
      MulAtLeast(m, k);
    } else if k < 0 {
      MulAtLeast(m, -k);
    }
  }

  lemma {:induction false} MulAtLeast(m: int, k: int)
    requires m > 0 && k > 0
    ensures m * k >= m
    decreases k
  {
    if k > 1 {
      MulAtLeast(m, k - 1);
      assert m * k == m * (k - 1) + m;
    }
  }

  /** x = 256q + r with q = p*a + lo regroups as (256p)*a + (256lo + r). */
  lemma Regroup(x: int, q: int, r: int, p: int, a: int, lo: int)
    requires x == 256 * q + r && q == p * a + lo
    ensures x == (256 * p) * a + (256 * lo + r)
  {
  }

  /** Euclidean division splits q into p * (q / p) + q % p. */
  lemma DivMod(q: int, p: int)
    requires p > 0
    ensures q == p * (q / p) + q % p
  {
  }

  /** A digit r below 256 after lo < p full digits stays below 256p. */
  lemma DigitBound(lo: int, r: int, p: int)
    requires 0 <= lo < p && 0 <= r < 256
    ensures 0 <= 256 * lo + r < 256 * p
  {
  }

  lemma {:induction false} FromBEToBE(x: int, w: nat)
    ensures FromBE(ToBE(x, w)) == x % Pow256(w)
    decreases w
  {
    if w == 0 {
      assert x % 1 == 0;
    } else {
      var q, r := x / 256, x % 256;
      assert x == 256 * q + r;
      var p := Pow256(w - 1);
      assert Pow256(w) == 256 * p;
      var s := ToBE(x, w);
      assert s == ToBE(q, w - 1) + [r];
      assert s[..|s| - 1] == ToBE(q, w - 1);
      FromBEToBE(q, w - 1);
      var lo, a := q % p, q / p;
      DivMod(q, p);
      assert FromBE(s) == lo * 256 + r;
      Regroup(x, q, r, p, a, lo);
      DigitBound(lo, r, p);
      ModUnique(x, 256 * p, a, 256 * lo + r);
    }
  }

  /** Unsigned round trip: a value that fits in w bytes comes back unchanged. */
  lemma UnsignedRoundTrip(x: int, w: nat)
    requires 0 <= x < Pow256(w)
    ensures FromBE(ToBE(x, w)) == x
  {
    FromBEToBE(x, w);
    ModUnique(x, Pow256(w), 0, x);
  }

  /** Go's `uint32(x)` conversion, written through the same encoder: the
      encoded field reads back as x modulo 256^w. */
  lemma TruncatedRoundTrip(x: int, w: nat)
    ensures FromBE(ToBE(x, w)) == x % Pow256(w)
  {
    FromBEToBE(x, w);
  }

  /** Signed round trip: a value in the w-byte two's-complement range comes back
      unchanged. */
  lemma SignedRoundTrip(x: int, w: nat)
    requires w > 0
    requires -Pow256(w) / 2 <= x < Pow256(w) / 2
    ensures FromBESigned(ToBE(x, w)) == x
  {
    var p := Pow256(w);
    FromBEToBE(x, w);
    if x >= 0 {
      ModUnique(x, p, 0, x);
    } else {
      ModUnique(x, p, -1, x + p);
    }
  }

  /** `(a + f + c)[|a|..|a| + |f|]` is f. */
  lemma FieldAt(a: seq<byte>, f: seq<byte>, c: seq<byte>)
    ensures (a + f + c)[|a|..|a| + |f|] == f
  {
  }

  /** Where the seven fields of a bet record (name length, name, surname length,
      surname, dni, birthdate, number) sit when they follow a k-byte prefix. */
  lemma BetFieldsAt(k: nat, b: seq<byte>, h: seq<byte>, nameLen: seq<byte>, name: seq<byte>,
                    surnameLen: seq<byte>, surname: seq<byte>, dni: seq<byte>,
                    birth: seq<byte>, number: seq<byte>)
    requires |nameLen| == 4 && |surnameLen| == 4 && |dni| == 4 && |birth| == 8 && |number| == 4
    requires |h| == k
    requires b == h + nameLen + name + surnameLen + surname + dni + birth + number
    ensures var n, s := |name|, |surname|;
            && |b| == k + 24 + n + s
            && b[k..k + 4] == nameLen && b[k + 4..k + 4 + n] == name
            && b[k + 4 + n..k + 8 + n] == surnameLen && b[k + 8 + n..k + 8 + n + s] == surname
            && b[k + 8 + n + s..k + 12 + n + s] == dni
            && b[k + 12 + n + s..k + 20 + n + s] == birth
            && b[k + 20 + n + s..k + 24 + n + s] == number
  {
    FieldAt(h, nameLen, name + surnameLen + surname + dni + birth + number);
    FieldAt(h + nameLen, name, surnameLen + surname + dni + birth + number);
    FieldAt(h + nameLen + name, surnameLen, surname + dni + birth + number);
    FieldAt(h + nameLen + name + surnameLen, surname, dni + birth + number);
    FieldAt(h + nameLen + name + surnameLen + surname, dni, birth + number);
    FieldAt(h + nameLen + name + surnameLen + surname + dni, birth, number);
    FieldAt(h + nameLen + name + surnameLen + surname + dni + birth, number, []);
  }

  /** Re-encoding what was read gives the same bytes back. */
  lemma {:induction false} ToBEFromBE(s: seq<byte>)
    ensures ToBE(FromBE(s), |s|) == s
    decreases |s|
  {
    if s != [] {
      var init, last := s[..|s| - 1], s[|s| - 1];
      var x := FromBE(s);
      assert x == FromBE(init) * 256 + last;
      ModUnique(x, 256, FromBE(init), last);
      ToBEFromBE(init);
      assert s == init + [last];
    }
  }

  /** (A*P + C)*256 + l regroups as A*(P*256) + (C*256 + l). */
  lemma Distribute(A: int, P: int, C: int, l: int)
    ensures (A * P + C) * 256 + l == A * (P * 256) + (C * 256 + l)
  {
  }

  /** Reading a split field: the high part scaled by the width of the low part,
      plus the low part. */
  lemma {:induction false} FromBEAppend(a: seq<byte>, c: seq<byte>)
    ensures FromBE(a + c) == FromBE(a) * Pow256(|c|) + FromBE(c)
    decreases |c|
  {
    if c == [] {
      assert a + c == a;
    } else {
      var c0, last := c[..|c| - 1], c[|c| - 1];
      var ac := a + c;
      assert ac[..|ac| - 1] == a + c0 && ac[|ac| - 1] == last;
      assert FromBE(ac) == FromBE(a + c0) * 256 + last;
      FromBEAppend(a, c0);
      assert FromBE(c) == FromBE(c0) * 256 + last;
      assert Pow256(|c|) == Pow256(|c0|) * 256;
      Distribute(FromBE(a), Pow256(|c0|), FromBE(c0), last);
    }
  }
}
