/** IPv4 prefixes: parsing, canonical form, overlap and counting (cidr.ts and the shared-CIDR rules of config.ts). */
module Cidr {
  import opened Text

  // ---------------------------------------------------------------- text

  /** The characters JavaScript's trim removes. */
  predicate IsSpace(c: char) {
    || '\t' <= c <= '\r' || c == ' ' || c == '\U{a0}' || c == '\U{1680}' || '\U{2000}' <= c <= '\U{200a}'
    || c == '\U{2028}' || c == '\U{2029}' || c == '\U{202f}' || c == '\U{205f}' || c == '\U{3000}' || c == '\U{feff}'
  }

  function TrimStart(s: string): string {
    if s != "" && IsSpace(s[0]) then TrimStart(s[1..]) else s
  }

  function TrimEnd(s: string): string {
    if s != "" && IsSpace(s[|s| - 1]) then TrimEnd(s[..|s| - 1]) else s
  }

  function Trim(s: string): string {
    TrimEnd(TrimStart(s))
  }

  predicate IsDigit(c: char) {
    '0' <= c <= '9'
  }

  predicate AllDigits(s: string) {
    forall i :: 0 <= i < |s| ==> IsDigit(s[i])
  }

  function Number(s: string): nat
    requires AllDigits(s)
  {
    if s == "" then 0 else Number(s[..|s| - 1]) * 10 + (s[|s| - 1] - '0') as nat
  }

  function Decimal(n: nat): string {
    if n < 10 then ['0' + n as char] else Decimal(n / 10) + ['0' + (n % 10) as char]
  }

  lemma {:induction false} DecimalRoundTrip(n: nat)
    ensures AllDigits(Decimal(n)) && Number(Decimal(n)) == n && Decimal(n) != ""
  {
    if n >= 10 {
      DecimalRoundTrip(n / 10);
      assert Decimal(n)[..|Decimal(n)| - 1] == Decimal(n / 10);
    } else {
      assert Decimal(n)[..0] == "";
    }
  }

  lemma DecimalLength(n: nat)
    ensures n < 100 ==> 1 <= |Decimal(n)| <= 2
    ensures n < 1000 ==> 1 <= |Decimal(n)| <= 3
  {
    if 10 <= n < 1000 {
      assert |Decimal(n)| == |Decimal(n / 10)| + 1;
      if n >= 100 { assert |Decimal(n / 10)| == |Decimal(n / 10 / 10)| + 1; }
    }
  }

  // ---------------------------------------------------------------- addresses

  const ADDRESSES := 0x1_0000_0000

  function Octet(part: string): Option<nat> {
    if 1 <= |part| <= 3 && AllDigits(part) && Number(part) <= 255 then Some(Number(part)) else None
  }

  /** The first k parts read as base-256 digits. */
  function Octets(parts: seq<string>, k: nat): Option<nat>
    requires k <= |parts|
  {
    if k == 0 then Some(0)
    else
      var before, octet := Octets(parts, k - 1), Octet(parts[k - 1]);
      if before.None? || octet.None? then None else Some(before.value * 256 + octet.value)
  }

  function Ipv4(value: string): Option<nat> {
    var parts := Split(Trim(value), '.');
    if |parts| != 4 then None else Octets(parts, 4)
  }

  /** parseIpv4's loop. */
  method ParseIpv4(value: string) returns (r: Option<nat>)
    ensures r == Ipv4(value)
    ensures r.Some? ==> r.value < ADDRESSES
  {
    var parts := Split(Trim(value), '.');
    if |parts| != 4 { return None; }
    var result: nat := 0;
    for i := 0 to 4
      invariant Octets(parts, i) == Some(result)
      invariant result < (if i == 0 then 1 else if i == 1 then 0x100 else if i == 2 then 0x1_0000 else if i == 3 then 0x100_0000 else ADDRESSES)
    {
      var octet := Octet(parts[i]);
      if octet.None? {
        OctetsFail(parts, i);
        return None;
      }
      result := result * 256 + octet.value;
    }
    r := Some(result);
  }

  /** One bad part makes the whole address unreadable. */
  lemma OctetsFail(parts: seq<string>, i: nat)
    requires |parts| == 4 && i < 4 && Octet(parts[i]).None?
    ensures Octets(parts, 4) == None
  {
    assert Octets(parts, i + 1) == None;
    if i < 3 { assert Octets(parts, i + 2) == None; }
    if i < 2 { assert Octets(parts, i + 3) == None; }
  }

  function OctetAt(n: nat, divisor: nat): (octet: nat)
    requires divisor > 0
    ensures octet < 256
  {
    n / divisor % 256
  }

  function Dotted(a: nat, b: nat, c: nat, d: nat): string {
    Join([Decimal(a), Decimal(b), Decimal(c), Decimal(d)], '.')
  }

  function FormatIpv4(n: nat): string {
    Dotted(OctetAt(n, 0x100_0000), OctetAt(n, 0x1_0000), OctetAt(n, 0x100), OctetAt(n, 1))
  }

  predicate Plain(s: string) {
    forall i :: 0 <= i < |s| ==> IsDigit(s[i]) || s[i] == '.' || s[i] == '/'
  }

  lemma TrimPlain(s: string)
    requires Plain(s)
    ensures Trim(s) == s
  {}

  lemma {:induction false} JoinPlain(parts: seq<string>, sep: char)
    requires (sep == '.' || sep == '/') && forall i :: 0 <= i < |parts| ==> Plain(parts[i])
    ensures Plain(Join(parts, sep))
  {
    if |parts| > 1 { JoinPlain(parts[1..], sep); }
  }

  lemma OctetRoundTrip(n: nat)
    requires n < 256
    ensures Octet(Decimal(n)) == Some(n) && Plain(Decimal(n)) && '.' !in Decimal(n) && '/' !in Decimal(n)
  {
    DecimalRoundTrip(n);
    DecimalLength(n);
  }

  lemma JoinedOctets(parts: seq<string>)
    requires |parts| == 4 && forall i :: 0 <= i < 4 ==> Plain(parts[i]) && '.' !in parts[i] && '/' !in parts[i]
    ensures var s := Join(parts, '.'); Split(Trim(s), '.') == parts && Plain(s) && '/' !in s
  {
    SplitJoin(parts, '.');
    JoinPlain(parts, '.');
    TrimPlain(Join(parts, '.'));
    if '/' in Join(parts, '.') { JoinCharacters(parts, '.', '/'); }
  }

  function FromOctets(a: nat, b: nat, c: nat, d: nat): nat {
    ((a * 256 + b) * 256 + c) * 256 + d
  }

  lemma DottedReads(a: nat, b: nat, c: nat, d: nat)
    requires a < 256 && b < 256 && c < 256 && d < 256
    ensures Ipv4(Dotted(a, b, c, d)) == Some(FromOctets(a, b, c, d))
    ensures Plain(Dotted(a, b, c, d)) && '/' !in Dotted(a, b, c, d)
  {
    OctetRoundTrip(a);
    OctetRoundTrip(b);
    OctetRoundTrip(c);
    OctetRoundTrip(d);
    var parts := [Decimal(a), Decimal(b), Decimal(c), Decimal(d)];
    JoinedOctets(parts);
    FourOctets(parts, a, b, c, d);
  }

  /** Formatting an address and reading it back gives the address. */
  lemma AddressRoundTrip(n: nat)
    requires n < ADDRESSES
    ensures Ipv4(FormatIpv4(n)) == Some(n) && Plain(FormatIpv4(n)) && '/' !in FormatIpv4(n)
  {
    DottedReads(OctetAt(n, 0x100_0000), OctetAt(n, 0x1_0000), OctetAt(n, 0x100), OctetAt(n, 1));
    OctetsCompose(n);
  }

  lemma OctetsCompose(n: nat)
    requires n < ADDRESSES
    ensures FromOctets(OctetAt(n, 0x100_0000), OctetAt(n, 0x1_0000), OctetAt(n, 0x100), OctetAt(n, 1)) == n
  {
    assert n / 0x1_0000 == n / 0x100 / 256 && n / 0x100_0000 == n / 0x100 / 256 / 256;
  }

  lemma FourOctets(parts: seq<string>, a: nat, b: nat, c: nat, d: nat)
    requires |parts| == 4 && Octet(parts[0]) == Some(a) && Octet(parts[1]) == Some(b)
    requires Octet(parts[2]) == Some(c) && Octet(parts[3]) == Some(d)
    ensures Octets(parts, 4) == Some(FromOctets(a, b, c, d))
  {
    assert Octets(parts, 1) == Some(a);
    assert Octets(parts, 2) == Some(a * 256 + b);
    assert Octets(parts, 3) == Some((a * 256 + b) * 256 + c);
  }

  // ---------------------------------------------------------------- masks

  function Pow2(k: nat): nat {
    if k == 0 then 1 else 2 * Pow2(k - 1)
  }

  /** Bitwise and of two non-negative numbers. */
  function And(a: nat, b: nat): nat
    decreases a
  {
    if a == 0 || b == 0 then 0 else 2 * And(a / 2, b / 2) + (if a % 2 == 1 && b % 2 == 1 then 1 else 0)
  }

  /** (0xFFFFFFFF << (32 - p)) >>> 0, with the shift by 32 taken apart as the source does. */
  function Mask(p: nat): nat
    requires p <= 32
  {
    if p == 0 then 0 else (0xFFFF_FFFF * Pow2(32 - p)) % ADDRESSES
  }

  lemma {:induction false} Pow2Positive(k: nat)
    ensures Pow2(k) > 0
  {
    if k > 0 { Pow2Positive(k - 1); }
  }

  lemma {:induction false} Pow2Monotone(j: nat, k: nat)
    requires j <= k
    ensures Pow2(j) <= Pow2(k)
  {
    Pow2Positive(k);
    if j < k { Pow2Monotone(j, k - 1); Pow2Positive(k - 1); }
  }

  lemma Pow32()
    ensures Pow2(32) == ADDRESSES
  {
    assert Pow2(8) == 256;
    assert Pow2(16) == 0x1_0000;
    assert Pow2(24) == 0x100_0000;
  }

  /** Shifting 32 ones left and keeping 32 bits leaves the ones above. */
  lemma ShiftedOnes(m: nat)
    requires 0 < m <= ADDRESSES
    ensures (0xFFFF_FFFF * m) % ADDRESSES == ADDRESSES - m
  {
    QuotientUnique(0xFFFF_FFFF * m, ADDRESSES, m - 1, ADDRESSES - m);
  }

  lemma MaskValue(p: nat)
    requires 0 < p <= 32
    ensures Mask(p) == ADDRESSES - Pow2(32 - p)
  {
    Pow2Positive(32 - p);
    Pow32();
    Pow2Monotone(32 - p, 32);
    ShiftedOnes(Pow2(32 - p));
  }

  /** An even mask drops the lowest bit and masks the rest. */
  lemma AndEven(a: nat, mask: nat, m: nat)
    requires mask == 2 * m
    ensures And(a, mask) == 2 * And(a / 2, m)
  {}

  /** Rounding half the number down to a multiple of q, and doubling, rounds the number down to one of 2q. */
  lemma RoundStep(a: nat, q: nat)
    requires q > 0
    ensures 2 * (a / 2 - (a / 2) % q) == a - a % (2 * q)
  {
    HalveRemainder(a, q);
  }

  lemma HalvePowers(n: nat, k: nat)
    requires 0 < k <= n
    ensures Pow2(n) == 2 * Pow2(n - 1) && Pow2(k) == 2 * Pow2(k - 1) && 0 < Pow2(k - 1) <= Pow2(n - 1)
  {
    Pow2Positive(k - 1);
    Pow2Monotone(k - 1, n - 1);
  }

  /** Masking away the low k of n bits rounds down to a multiple of 2^k. */
  lemma {:induction false} AndRoundsDown(a: nat, n: nat, k: nat)
    requires k <= n && a < Pow2(n)
    ensures 0 < Pow2(k) <= Pow2(n)
    ensures And(a, Pow2(n) - Pow2(k)) == a - a % Pow2(k)
    decreases n
  {
    if k == 0 {
      AndOnes(a, n);
    } else {
      HalvePowers(n, k);
      AndRoundsDown(a / 2, n - 1, k - 1);
      AndRoundsStep(a, Pow2(n) - Pow2(k), Pow2(n - 1) - Pow2(k - 1), Pow2(k - 1), Pow2(k));
    }
  }

  lemma AndRoundsStep(a: nat, mask: nat, m: nat, q: nat, twice: nat)
    requires mask == 2 * m && twice == 2 * q && q > 0 && And(a / 2, m) == a / 2 - (a / 2) % q
    ensures And(a, mask) == a - a % twice
  {
    AndEven(a, mask, m);
    RoundStep(a, q);
  }

  lemma {:induction false} AndOnes(a: nat, n: nat)
    requires a < Pow2(n)
    ensures Pow2(n) > 0 && And(a, Pow2(n) - 1) == a
    decreases n
  {
    Pow2Positive(n);
    if n > 0 && a > 0 {
      AndOnes(a / 2, n - 1);
      assert (Pow2(n) - 1) / 2 == Pow2(n - 1) - 1 && (Pow2(n) - 1) % 2 == 1;
    }
  }

  lemma {:induction false} Multiples(m: nat, x: nat, y: nat)
    requires m > 0 && x < y
    ensures m * x + m <= m * y
  {
    if x + 1 < y { Multiples(m, x, y - 1); }
    assert m * y == m * (y - 1) + m;
  }

  lemma Division(a: nat, m: nat)
    requires m > 0
    ensures a == m * (a / m) + a % m && 0 <= a % m < m
  {}

  lemma QuotientUnique(a: nat, m: nat, q: nat, r: nat)
    requires m > 0 && r < m && a == m * q + r
    ensures a / m == q && a % m == r
  {
    Division(a, m);
    if a / m < q { Multiples(m, a / m, q); } else if a / m > q { Multiples(m, q, a / m); }
  }

  lemma HalveRemainder(a: nat, m: nat)
    requires m > 0
    ensures a % (2 * m) == 2 * ((a / 2) % m) + a % 2
  {
    var q, r := (a / 2) / m, (a / 2) % m;
    Division(a / 2, m);
    assert (2 * m) * q == 2 * (m * q);
    QuotientUnique(a, 2 * m, q, 2 * r + a % 2);
  }

  // ---------------------------------------------------------------- prefixes

  datatype Prefix = Prefix(network: nat, length: nat)

  function Size(c: Prefix): nat
    requires c.length <= 32
  {
    Pow2(32 - c.length)
  }

  predicate Canonical(c: Prefix) {
    c.length <= 32 && c.network < ADDRESSES && Size(c) > 0 && c.network % Size(c) == 0
  }

  function CanonicalText(c: Prefix): string {
    FormatIpv4(c.network) + ['/'] + Decimal(c.length)
  }

  /** parseIpv4Cidr; anything after a second slash is ignored, as in the source. */
  function ParseCidr(value: string): Option<Prefix> {
    var parts := Split(Trim(value), '/');
    if |parts| < 2 || parts[0] == "" then None
    else if !(1 <= |parts[1]| <= 2 && AllDigits(parts[1])) then None
    else
      var length := Number(parts[1]);
      var ip := Ipv4(parts[0]);
      if length > 32 || ip.None? then None else Some(Prefix(And(ip.value, Mask(length)), length))
  }

  /** Whether an address belongs to a prefix: the masked comparison of ipv4InCidr. */
  predicate Matches(address: nat, c: Prefix)
    requires c.length <= 32
  {
    And(address, Mask(c.length)) == c.network
  }

  predicate TextMatches(ip: string, c: Prefix)
    requires c.length <= 32
  {
    Ipv4(ip).Some? && Matches(Ipv4(ip).value, c)
  }

  function Narrower(left: Prefix, right: Prefix): Prefix {
    if left.length >= right.length then left else right
  }

  function Broader(left: Prefix, right: Prefix): Prefix {
    if left.length >= right.length then right else left
  }

  /** ipv4CidrsOverlap, through the text of the narrower network address. */
  predicate Overlap(left: Prefix, right: Prefix)
    requires left.length <= 32 && right.length <= 32
  {
    TextMatches(FormatIpv4(Narrower(left, right).network), Broader(left, right))
  }

  lemma MaskedAddress(address: nat, length: nat)
    requires address < ADDRESSES && length <= 32
    ensures Pow2(32 - length) > 0
    ensures And(address, Mask(length)) == address - address % Pow2(32 - length)
  {
    Pow32();
    AndRoundsDown(address, 32, 32 - length);
    if length > 0 { MaskValue(length); }
  }

  /** A canonical prefix matches exactly the addresses of its block. */
  lemma MatchesIsBlock(address: nat, c: Prefix)
    requires Canonical(c) && address < ADDRESSES
    ensures Matches(address, c) <==> c.network <= address < c.network + Size(c)
  {
    MaskedAddress(address, c.length);
    RoundedDown(address, c.network, Size(c));
  }

  lemma RoundedDown(x: nat, base: nat, m: nat)
    requires m > 0 && base % m == 0
    ensures x - x % m == base <==> base <= x < base + m
  {
    Division(base, m);
    Division(x, m);
    if base <= x < base + m { QuotientUnique(x, m, base / m, x - base); }
  }

  lemma {:induction false} Pow2Divides(j: nat, k: nat) returns (t: nat)
    requires j <= k
    ensures Pow2(k) == Pow2(j) * t && t > 0
  {
    if j == k {
      t := 1;
    } else {
      var half := Pow2Divides(j, k - 1);
      t := 2 * half;
    }
  }

  lemma NearestMultiple(m: nat, a: nat, s: nat, x: nat)
    requires m > 0 && x < m * a + m && m * s <= x
    ensures m * s <= m * a
  {
    if a < s { Multiples(m, a, s); } else if s < a { Multiples(m, s, a); }
  }

  /** Blocks of powers of two nest or are apart. */
  lemma BlocksNest(narrow: Prefix, broad: Prefix, address: nat)
    requires Canonical(narrow) && Canonical(broad) && narrow.length >= broad.length
    requires narrow.network <= address < narrow.network + Size(narrow)
    requires broad.network <= address < broad.network + Size(broad)
    ensures broad.network <= narrow.network < broad.network + Size(broad)
  {
    var t := Pow2Divides(32 - narrow.length, 32 - broad.length);
    var a := QuotientOf(narrow.network, Size(narrow));
    var s := SmallerDivides(broad.network, Size(broad), Size(narrow), t);
    NearestMultiple(Size(narrow), a, s, address);
  }

  lemma QuotientOf(x: nat, m: nat) returns (q: nat)
    requires m > 0 && x % m == 0
    ensures x == m * q
  {
    Division(x, m);
    q := x / m;
  }

  /** A multiple of m * t is a multiple of m. */
  lemma SmallerDivides(x: nat, big: nat, m: nat, t: nat) returns (q: nat)
    requires m > 0 && big > 0 && big == m * t && x % big == 0
    ensures x == m * q
  {
    var b := QuotientOf(x, big);
    q := t * b;
    Regroup(m, t, b);
  }

  lemma Regroup(m: nat, t: nat, b: nat)
    ensures (m * t) * b == m * (t * b)
  {}

  lemma SharedHitsNarrower(narrow: Prefix, broad: Prefix, x: nat)
    requires Canonical(narrow) && Canonical(broad) && narrow.length >= broad.length
    requires x < ADDRESSES && Matches(x, narrow) && Matches(x, broad)
    ensures Matches(narrow.network, broad)
  {
    MatchesIsBlock(x, narrow);
    MatchesIsBlock(x, broad);
    BlocksNest(narrow, broad, x);
    MatchesIsBlock(narrow.network, broad);
  }

  lemma OwnNetwork(c: Prefix)
    requires Canonical(c)
    ensures Matches(c.network, c)
  {
    MatchesIsBlock(c.network, c);
  }

  /** The overlap test, by way of text, compares the narrower network address with the broader prefix. */
  lemma OverlapByNetwork(left: Prefix, right: Prefix)
    requires Canonical(left) && Canonical(right)
    ensures Overlap(left, right) <==> Matches(Narrower(left, right).network, Broader(left, right))
  {
    AddressRoundTrip(Narrower(left, right).network);
  }

  /** The overlap test holds exactly when some address lies in both prefixes. */
  lemma OverlapIsSharedAddress(left: Prefix, right: Prefix)
    requires Canonical(left) && Canonical(right)
    ensures Overlap(left, right) <==> exists x: nat :: x < ADDRESSES && Matches(x, left) && Matches(x, right)
  {
    var narrow, broad := Narrower(left, right), Broader(left, right);
    OverlapByNetwork(left, right);
    OwnNetwork(narrow);
    forall x: nat | x < ADDRESSES && Matches(x, left) && Matches(x, right) ensures Matches(narrow.network, broad) {
      SharedHitsNarrower(narrow, broad, x);
    }
    if Matches(narrow.network, broad) {
      var x := narrow.network;
      assert x < ADDRESSES && Matches(x, left) && Matches(x, right);
    }
  }

  lemma {:induction false} OctetsBound(parts: seq<string>, k: nat)
    requires k <= |parts| && Octets(parts, k).Some?
    ensures Octets(parts, k).value < Pow2(8 * k)
  {
    if k > 0 {
      OctetsBound(parts, k - 1);
      ByteShift(8 * (k - 1));
    }
  }

  lemma ByteShift(n: nat)
    ensures Pow2(n + 8) == 256 * Pow2(n)
  {
    assert Pow2(n + 4) == 16 * Pow2(n) by { assert Pow2(n + 2) == 4 * Pow2(n); }
    assert Pow2(n + 6) == 4 * Pow2(n + 4);
  }

  /** Everything parsed is canonical. */
  lemma ParsedIsCanonical(value: string)
    requires ParseCidr(value).Some?
    ensures Canonical(ParseCidr(value).value)
  {
    var c := ParseCidr(value).value;
    var text := Split(Trim(value), '/')[0];
    var ip := Ipv4(text).value;
    OctetsBound(Split(Trim(text), '.'), 4);
    Pow32();
    MaskedIsCanonical(ip, c.length);
  }

  lemma MaskedIsCanonical(ip: nat, length: nat)
    requires ip < ADDRESSES && length <= 32
    ensures Canonical(Prefix(And(ip, Mask(length)), length))
  {
    MaskedAddress(ip, length);
    RoundedIsMultiple(ip, Pow2(32 - length));
  }

  lemma RoundedIsMultiple(x: nat, m: nat)
    requires m > 0
    ensures 0 <= x - x % m <= x && (x - x % m) % m == 0
  {
    Division(x, m);
    QuotientUnique(x - x % m, m, x / m, 0);
  }

  lemma TextParts(ip: string, digits: string)
    requires Plain(ip) && '/' !in ip && Plain(digits) && '/' !in digits
    ensures Split(Trim(ip + ['/'] + digits), '/') == [ip, digits]
  {
    TrimPlain(ip + ['/'] + digits);
    SplitHead(ip, digits, '/');
    SplitAtom(digits, '/');
  }

  lemma CanonicalMask(c: Prefix)
    requires Canonical(c)
    ensures And(c.network, Mask(c.length)) == c.network
  {
    MaskedAddress(c.network, c.length);
  }

  lemma LengthDigits(n: nat)
    requires n <= 32
    ensures var s := Decimal(n); 1 <= |s| <= 2 && AllDigits(s) && Number(s) == n && Plain(s) && '/' !in s
  {
    DecimalRoundTrip(n);
    DecimalLength(n);
  }

  /** The canonical text of a prefix parses to the prefix. */
  lemma PrefixRoundTrip(c: Prefix)
    requires Canonical(c)
    ensures ParseCidr(CanonicalText(c)) == Some(c)
  {
    var ip := FormatIpv4(c.network);
    AddressRoundTrip(c.network);
    LengthDigits(c.length);
    TextParts(ip, Decimal(c.length));
    CanonicalMask(c);
    assert ip != "" by {
      if ip == "" { SplitAtom("", '.'); }
    }
  }

  // ---------------------------------------------------------------- what is readable

  /** One to three digits worth at most 255. */
  predicate OctetText(part: string) {
    1 <= |part| <= 3 && (forall i :: 0 <= i < |part| ==> '0' <= part[i] <= '9') && Number(part) < 256
  }

  /** An address is read exactly from four dot-separated octets, the most significant first. */
  lemma ReadableAddress(value: string)
    ensures var p := Split(Trim(value), '.');
            && (Ipv4(value).Some? <==> |p| == 4 && OctetText(p[0]) && OctetText(p[1]) && OctetText(p[2]) && OctetText(p[3]))
            && (Ipv4(value).Some? ==>
                  Ipv4(value).value == Number(p[0]) * 0x100_0000 + Number(p[1]) * 0x1_0000 + Number(p[2]) * 0x100 + Number(p[3]))
  {
    var p := Split(Trim(value), '.');
    if |p| == 4 {
      forall i | 0 <= i < 4 && !OctetText(p[i]) ensures Octets(p, 4).None? { OctetsFail(p, i); }
      if OctetText(p[0]) && OctetText(p[1]) && OctetText(p[2]) && OctetText(p[3]) {
        FourOctets(p, Number(p[0]), Number(p[1]), Number(p[2]), Number(p[3]));
      }
    }
  }

  /**
   * A prefix is read exactly from an address, a slash and a length of at most 32 in one or two digits,
   * whatever follows a second slash; its network is the address rounded down to its block.
   */
  lemma ReadablePrefix(value: string)
    ensures var p := Split(Trim(value), '/');
            && (ParseCidr(value).Some? <==>
                  |p| >= 2 && Ipv4(p[0]).Some? && 1 <= |p[1]| <= 2 && AllDigits(p[1]) && Number(p[1]) <= 32)
            && (ParseCidr(value).Some? ==>
                  var ip, c := Ipv4(p[0]).value, ParseCidr(value).value;
                  c.length == Number(p[1]) && Pow2(32 - c.length) > 0 && c.network == ip - ip % Pow2(32 - c.length))
  {
    var p := Split(Trim(value), '/');
    if |p| >= 2 && Ipv4(p[0]).Some? {
      EmptyIsNoAddress();
      ReadableAddress(p[0]);
      if 1 <= |p[1]| <= 2 && AllDigits(p[1]) && Number(p[1]) <= 32 {
        MaskedAddress(Ipv4(p[0]).value, Number(p[1]));
      }
    }
  }

  lemma EmptyIsNoAddress()
    ensures Ipv4("").None?
  {
    assert Trim("") == "";
    assert |Split("", '.')| != 4;
  }
}
