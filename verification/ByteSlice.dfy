// Conversions between numbers and byte slices (main/entity/utils/byteslice.go).
module ByteSlice {
  import opened Entity

  function Power256(n: nat): (p: nat)
    ensures 0 < p
  {
    if n == 0 then 1 else 256 * Power256(n - 1)
  }

  // The `width` low-order base-256 digits of u, most significant first.
  function BigEndian(u: nat, width: nat): (b: Bytes)
    ensures |b| == width
  {
    if width == 0 then [] else BigEndian(u / 256, width - 1) + [u % 256]
  }

  function FromBigEndian(b: Bytes): nat {
    if |b| == 0 then 0 else 256 * FromBigEndian(b[..|b| - 1]) + b[|b| - 1]
  }

  lemma {:induction false} BigEndianDecodes(u: nat, width: nat)
    requires u < Power256(width)
    ensures FromBigEndian(BigEndian(u, width)) == u
  {
    if width == 0 {
    } else {
      BigEndianDecodes(u / 256, width - 1);
      var b := BigEndian(u, width);
      assert b[..|b| - 1] == BigEndian(u / 256, width - 1);
    }
  }

  lemma {:induction false} BigEndianEncodes(b: Bytes)
    ensures FromBigEndian(b) < Power256(|b|)
    ensures BigEndian(FromBigEndian(b), |b|) == b
  {
    if |b| == 0 {
    } else {
      var front, last := b[..|b| - 1], b[|b| - 1];
      BigEndianEncodes(front);
      assert (256 * FromBigEndian(front) + last) / 256 == FromBigEndian(front);
      assert b == front + [last];
    }
  }

  lemma Power256Of8()
    ensures Power256(8) == TWO_64
  {
  }

  // Reinterpretation of an int64 as a uint64 and back.
  function ToUint64(v: Int64): nat {
    if v < 0 then v + TWO_64 else v
  }

  function ToInt64(u: nat): Int64
    requires u < TWO_64
  {
    if u < TWO_63 then u else u - TWO_64
  }

  // What an int64 looks like on the wire and in the store.
  function Int64Bytes(v: Int64): (b: Bytes)
    ensures |b| == 8
  {
    BigEndian(ToUint64(v), 8)
  }

  lemma DivideTwice(u: nat, p: nat)
    requires 0 < p
    ensures u / 256 / p == u / (256 * p)
  {
    var a := u / 256;
    var c, d := a / p, a % p;
    assert u == 256 * (p * c + d) + u % 256;
    assert u == (256 * p) * c + (256 * d + u % 256);
    assert 256 * d + u % 256 < 256 * p;
    QuotientIs(u, 256 * p, c, 256 * d + u % 256);
  }

  lemma QuotientIs(u: nat, p: nat, c: nat, rest: nat)
    requires 0 < p && u == p * c + rest && rest < p
    ensures u / p == c
  {
    var q := u / p;
    assert u == p * q + u % p;
    if q < c {
      TimesGrows(p, q + 1, c);
    } else if c < q {
      TimesGrows(p, c + 1, q);
    }
  }

  lemma TimesGrows(p: nat, a: nat, b: nat)
    requires a <= b
    ensures p * a <= p * b
  {
  }

  // The base-256 digit of this weight in the two's complement of a number.
  function Digit(v: Int64, weight: nat): nat {
    (if v < 0 then v + 0x1_0000_0000_0000_0000 else v) / Power256(weight) % 256
  }

  lemma {:induction false} BigEndianDigits(u: nat, width: nat, k: nat)
    requires k < width
    ensures BigEndian(u, width)[k] == u / Power256(width - 1 - k) % 256
  {
    if k < width - 1 {
      BigEndianDigits(u / 256, width - 1, k);
      DivideTwice(u, Power256(width - 2 - k));
    }
  }

  // The most significant byte comes first.
  lemma Int64Digits(v: Int64, k: nat)
    requires k < 8
    ensures Int64Bytes(v)[k] == Digit(v, 7 - k)
  {
    BigEndianDigits(ToUint64(v), 8, k);
  }

  // An empty slice reads as zero and anything after the eighth byte is ignored. Go panics on
  // one to seven bytes.
  function BytesInt64(data: Bytes): Int64
    requires |data| == 0 || 8 <= |data|
  {
    if |data| == 0 then 0
    else
      Power256Of8(); BigEndianEncodes(data[..8]);
      ToInt64(FromBigEndian(data[..8]))
  }

  lemma Int64RoundTrip(v: Int64)
    ensures BytesInt64(Int64Bytes(v)) == v
  {
    Power256Of8();
    BigEndianDecodes(ToUint64(v), 8);
    assert Int64Bytes(v)[..8] == Int64Bytes(v);
  }

  lemma BytesRoundTrip(data: Bytes)
    requires |data| == 8
    ensures Int64Bytes(BytesInt64(data)) == data
  {
    Power256Of8();
    BigEndianEncodes(data);
    assert data[..8] == data;
  }

  method Int64ToBytes(value: Int64) returns (data: array<Byte>)
    ensures fresh(data)
    ensures data[..] == Int64Bytes(value)
  {
    data := new Byte[8](_ => 0);
    var rest := ToUint64(value);
    ghost var whole := rest;
    for i := 8 downto 0
      invariant BigEndian(whole, 8) == BigEndian(rest, i) + data[i..]
    {
      data[i] := rest % 256;
      rest := rest / 256;
      assert data[i..] == [data[i]] + data[i + 1..];
    }
  }

  method BytesToInt64(data: Bytes) returns (value: Int64)
    requires |data| == 0 || 8 <= |data|
    ensures value == BytesInt64(data)
    ensures |data| == 8 ==> Int64Bytes(value) == data
  {
    if |data| == 0 {
      return 0;
    }
    Power256Of8();
    BigEndianEncodes(data[..8]);
    var word: nat := 0;
    for i := 0 to 8
      invariant word == FromBigEndian(data[..i])
    {
      assert data[..i + 1][..i] == data[..i];
      word := 256 * word + data[i];
    }
    value := ToInt64(word);
    if |data| == 8 {
      BytesRoundTrip(data);
    }
  }
}
