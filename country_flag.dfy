/** `CountryFlagService`: the IPv4 number to dotted-quad conversion used
    before the geo-IP lookup, and the flag image URL. */
module CountryFlag {
  import opened Wrappers
  import opened Text

  /** `Number((BigInt(n) >> k) & 255n)` for k = 24, 16, 8 and 0, with the
      divisors written out. A BigInt shift floors and `& 255n` keeps the low
      eight bits of the two's complement value: that is Dafny's Euclidean
      `/` and `%` by a positive divisor, negative numbers included. */
  function Octets(n: int): (os: seq<int>)
    ensures |os| == 4 && forall k :: 0 <= k < 4 ==> 0 <= os[k] < 256
  {
    [(n / 0x100_0000) % 256, (n / 0x1_0000) % 256, (n / 0x100) % 256, n % 256]
  }

  /** `longToIp(n)`: the four octets, most significant first, joined by '.'. */
  function LongToIp(n: int): string
  {
    var os := Octets(n);
    Join([IntToDecimal(os[0]), IntToDecimal(os[1]), IntToDecimal(os[2]), IntToDecimal(os[3])], ".")
  }

  const FlagPrefix := "https://flagsapi.com/"
  const FlagSuffix := "/flat/64.png"

  /** `getCountryFlagByCountryCode`: the flag image for a country code. */
  function FlagUrl(countryCode: string): (url: string)
    ensures |url| == |FlagPrefix| + |countryCode| + |FlagSuffix|
    ensures url[..|FlagPrefix|] == FlagPrefix && url[|url| - |FlagSuffix|..] == FlagSuffix
  {
    FlagPrefix + countryCode + FlagSuffix
  }

  /** The code sits between the fixed prefix and suffix, so it reads back
      from the URL and different codes get different images. */
  lemma FlagUrlCode(a: string, b: string)
    ensures FlagUrl(a)[|FlagPrefix|..|FlagUrl(a)| - |FlagSuffix|] == a
    ensures FlagUrl(a) == FlagUrl(b) <==> a == b
  {
    var ua, ub := FlagUrl(a), FlagUrl(b);
    assert ua[|FlagPrefix|..|ua| - |FlagSuffix|] == a;
    assert ub[|FlagPrefix|..|ub| - |FlagSuffix|] == b;
  }

  /** The reverse conversion: a dotted quad of four decimal octets back to
      its number. */
  function IpToLong(s: string): Option<int>
  {
    var parts := Split(s, '.');
    if |parts| != 4 then None
    else
      match (ParseDecimal(parts[0]), ParseDecimal(parts[1]), ParseDecimal(parts[2]), ParseDecimal(parts[3]))
      case (Some(a), Some(b), Some(c), Some(d)) =>
        if 0 <= a < 256 && 0 <= b < 256 && 0 <= c < 256 && 0 <= d < 256
        then Some(a * 0x100_0000 + b * 0x1_0000 + c * 0x100 + d)
        else None
      case _ => None
  }

  // ----------------------------------------------------------------- lemmas

  /** The dotted quad depends only on `n mod 2^32`: higher bits are masked off. */
  lemma LongToIpLow32(n: int)
    ensures LongToIp(n) == LongToIp(n % 0x1_0000_0000)
  {
    var r := n % 0x1_0000_0000;
    OctetLow32(n, 0x100_0000, 0x100);
    OctetLow32(n, 0x1_0000, 0x1_0000);
    OctetLow32(n, 0x100, 0x100_0000);
    OctetLow32(n, 1, 0x1_0000_0000);
    assert Octets(n) == Octets(r);
  }

  /** The octet at divisor d ignores multiples of 2^32 = d * m, when 256
      divides m. */
  lemma OctetLow32(n: int, d: int, m: int)
    requires d > 0 && m > 0 && d * m == 0x1_0000_0000 && m % 256 == 0
    ensures (n / d) % 256 == ((n % 0x1_0000_0000) / d) % 256
  {
    var q, r := n / 0x1_0000_0000, n % 0x1_0000_0000;
    assert n == (q * m) * d + r;
    DivAddMultiple(q * m, r, d);
    assert n / d == q * m + r / d;
    ModAddMultiple(q * (m / 256), r / d);
    assert q * m == q * (m / 256) * 256;
  }

  lemma DivAddMultiple(a: int, r: int, d: int)
    requires d > 0
    ensures (a * d + r) / d == a + r / d
  {
    var n := a * d + r;
    var t, u := n / d, n % d;
    var t', u' := r / d, r % d;
    assert (t - a - t') * d == u' - u by {
      assert n == t * d + u && r == t' * d + u';
      assert (t - a - t') * d == t * d - a * d - t' * d;
    }
    MultipleBounds(t - a - t', d);
  }

  /** A nonzero multiple of d is at least d away from 0. */
  lemma MultipleBounds(k: int, d: int)
    requires d > 0
    ensures k >= 1 ==> k * d >= d
    ensures k <= -1 ==> k * d <= -d
  {
    if k >= 1 {
      assert k * d == (k - 1) * d + d;
    } else if k <= -1 {
      assert k * d == (k + 1) * d - d;
    }
  }

  lemma ModAddMultiple(a: int, x: int)
    ensures (a * 256 + x) % 256 == x % 256
  {
  }

  /** For a 32-bit unsigned number the octets are its base-256 digits. */
  lemma OctetsRecompose(n: int)
    requires 0 <= n < 0x1_0000_0000
    ensures var os := Octets(n);
            os[0] * 0x100_0000 + os[1] * 0x1_0000 + os[2] * 0x100 + os[3] == n
  {
    var n1, d0 := n / 0x100, n % 0x100;
    var n2, d1 := n1 / 0x100, n1 % 0x100;
    var n3, d2 := n2 / 0x100, n2 % 0x100;
    assert n == n2 * 0x1_0000 + (d1 * 0x100 + d0);
    DivAddMultiple(n2, d1 * 0x100 + d0, 0x1_0000);
    assert n / 0x1_0000 == n2;
    assert n == n3 * 0x100_0000 + (d2 * 0x1_0000 + d1 * 0x100 + d0);
    DivAddMultiple(n3, d2 * 0x1_0000 + d1 * 0x100 + d0, 0x100_0000);
    assert n / 0x100_0000 == n3 && n3 < 256;
  }

  /** Four decimal octets joined by '.' read back as their base-256 value. */
  lemma QuadRoundTrip(os: seq<int>)
    requires |os| == 4 && forall k :: 0 <= k < 4 ==> 0 <= os[k] < 256
    ensures IpToLong(Join([IntToDecimal(os[0]), IntToDecimal(os[1]), IntToDecimal(os[2]), IntToDecimal(os[3])], "."))
            == Some(os[0] * 0x100_0000 + os[1] * 0x1_0000 + os[2] * 0x100 + os[3])
  {
    var parts := [IntToDecimal(os[0]), IntToDecimal(os[1]), IntToDecimal(os[2]), IntToDecimal(os[3])];
    forall k | 0 <= k < 4 ensures '.' !in parts[k] && ParseDecimal(parts[k]) == Some(os[k]) {
      DecimalAvoids(os[k], '.');
      IntDecimalRoundTrip(os[k]);
    }
    JoinSplit(parts, '.');
    IpToLongOfParts(Join(parts, "."), os);
  }

  /** A string that splits into four decimal octets reads as their value. */
  lemma IpToLongOfParts(s: string, os: seq<int>)
    requires |os| == 4 && forall k :: 0 <= k < 4 ==> 0 <= os[k] < 256
    requires |Split(s, '.')| == 4
    requires forall k :: 0 <= k < 4 ==> ParseDecimal(Split(s, '.')[k]) == Some(os[k])
    ensures IpToLong(s) == Some(os[0] * 0x100_0000 + os[1] * 0x1_0000 + os[2] * 0x100 + os[3])
  {
    var parts := Split(s, '.');
    assert ParseDecimal(parts[0]) == Some(os[0]) && ParseDecimal(parts[1]) == Some(os[1]);
    assert ParseDecimal(parts[2]) == Some(os[2]) && ParseDecimal(parts[3]) == Some(os[3]);
  }

  /** The dotted quad reads back as the number it was made from. */
  lemma LongToIpRoundTrip(n: int)
    requires 0 <= n < 0x1_0000_0000
    ensures IpToLong(LongToIp(n)) == Some(n)
  {
    QuadRoundTrip(Octets(n));
    OctetsRecompose(n);
  }

  /** The output always has exactly four '.'-separated decimal components,
      each in [0, 255]. */
  lemma {:induction false} LongToIpShape(n: int)
    ensures var parts := Split(LongToIp(n), '.');
            && |parts| == 4
            && forall k :: 0 <= k < 4 ==> ParseDecimal(parts[k]).Some? && 0 <= ParseDecimal(parts[k]).value < 256
  {
    var os := Octets(n);
    var parts := [IntToDecimal(os[0]), IntToDecimal(os[1]), IntToDecimal(os[2]), IntToDecimal(os[3])];
    forall k | 0 <= k < 4 ensures '.' !in parts[k] && ParseDecimal(parts[k]) == Some(os[k]) {
      DecimalAvoids(os[k], '.');
      IntDecimalRoundTrip(os[k]);
    }
    JoinSplit(parts, '.');
  }
}
