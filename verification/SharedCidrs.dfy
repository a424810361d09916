/** The shared-CIDR list of the orchestrator's configuration (config.ts). */
module SharedCidrs {
  import opened Text
  import opened Cidr

  const WIDEST := 24
  const MAX_SANDBOX_COUNT := 10_000

  predicate AllCanonical(list: seq<Prefix>) {
    forall i :: 0 <= i < |list| ==> Canonical(list[i])
  }

  predicate LengthsInRange(list: seq<Prefix>) {
    forall i :: 0 <= i < |list| ==> list[i].length <= 32
  }

  predicate ApartAt(list: seq<Prefix>, i: nat, j: nat)
    requires LengthsInRange(list) && i < |list| && j < |list|
  {
    !Overlap(list[i], list[j])
  }

  predicate ApartFrom(list: seq<Prefix>, i: nat)
    requires LengthsInRange(list) && i < |list|
  {
    forall j :: i < j < |list| ==> ApartAt(list, i, j)
  }

  /** No two prefixes of the list overlap. */
  predicate Apart(list: seq<Prefix>)
    requires LengthsInRange(list)
  {
    forall i :: 0 <= i < |list| ==> ApartFrom(list, i)
  }

  method CheckAfter(list: seq<Prefix>, left: nat) returns (ok: bool)
    requires LengthsInRange(list) && left < |list|
    ensures ok <==> ApartFrom(list, left)
  {
    for right := left + 1 to |list|
      invariant forall j :: left < j < right ==> ApartAt(list, left, j)
    {
      if !ApartAt(list, left, right) { return false; }
    }
    ok := true;
  }

  predicate NoneTooWide(list: seq<Prefix>) {
    forall i :: 0 <= i < |list| ==> list[i].length >= WIDEST
  }

  method CheckWidths(list: seq<Prefix>) returns (ok: bool)
    ensures ok <==> NoneTooWide(list)
  {
    for i := 0 to |list|
      invariant forall k :: 0 <= k < i ==> list[k].length >= WIDEST
    {
      if list[i].length < WIDEST { return false; }
    }
    ok := true;
  }

  /** The width check and the nested overlap loop of loadConfigFromEnv over parsed prefixes. */
  method CheckSharedCidrs(list: seq<Prefix>) returns (ok: bool)
    requires LengthsInRange(list)
    ensures ok <==> NoneTooWide(list) && Apart(list)
    ensures ok ==> forall i :: 0 <= i < |list| ==> list[i].length >= 24
    ensures !ok && Apart(list) ==> exists i :: 0 <= i < |list| && list[i].length < 24
  {
    ok := CheckWidths(list);
    if !ok { return; }
    for left := 0 to |list|
      invariant forall i :: 0 <= i < left ==> ApartFrom(list, i)
    {
      ok := CheckAfter(list, left);
      if !ok { return; }
    }
    ok := true;
  }

  /** An address belongs to at most one prefix of a list that passed the check. */
  lemma AtMostOnePrefix(list: seq<Prefix>, x: nat, i: nat, j: nat)
    requires AllCanonical(list) && Apart(list) && x < ADDRESSES && i < |list| && j < |list|
    requires Matches(x, list[i]) && Matches(x, list[j])
    ensures i == j
  {
    if i < j {
      assert ApartFrom(list, i) && ApartAt(list, i, j);
      OverlapIsSharedAddress(list[i], list[j]);
    } else if j < i {
      assert ApartFrom(list, j) && ApartAt(list, j, i);
      OverlapIsSharedAddress(list[j], list[i]);
    }
  }

  // ---------------------------------------------------------------- counting

  ghost function Interval(low: nat, n: nat): (r: set<nat>)
    ensures forall x :: x in r <==> low <= x < low + n
    ensures |r| == n
  {
    if n == 0 then {} else Interval(low, n - 1) + {low + n - 1}
  }

  ghost function Block(c: Prefix): set<nat>
    requires c.length <= 32
  {
    Interval(c.network, Size(c))
  }

  /** The block is the set of addresses the prefix matches. */
  lemma BlockIsMatches(c: Prefix, x: nat)
    requires Canonical(c)
    ensures x in Block(c) <==> x < ADDRESSES && Matches(x, c)
  {
    BlockFits(c);
    if x < ADDRESSES { MatchesIsBlock(x, c); }
  }

  lemma BlockFits(c: Prefix)
    requires Canonical(c)
    ensures c.network + Size(c) <= ADDRESSES
  {
    Pow32();
    var t := Pow2Divides(32 - c.length, 32);
    var a := c.network / Size(c);
    Division(c.network, Size(c));
    if a < t { Multiples(Size(c), a, t); } else if a > t { Multiples(Size(c), t, a); }
  }

  /** All addresses some prefix matches. */
  ghost function Covered(list: seq<Prefix>): set<nat>
    requires AllCanonical(list)
  {
    if list == [] then {} else Covered(list[..|list| - 1]) + Block(list[|list| - 1])
  }

  predicate SomeMatches(list: seq<Prefix>, x: nat)
    requires AllCanonical(list)
  {
    exists i :: 0 <= i < |list| && Matches(x, list[i])
  }

  lemma LastMatches(list: seq<Prefix>, x: nat)
    requires AllCanonical(list) && list != []
    ensures SomeMatches(list, x) <==> SomeMatches(list[..|list| - 1], x) || Matches(x, list[|list| - 1])
  {
    var n := |list| - 1;
    if SomeMatches(list[..n], x) {
      var i :| 0 <= i < n && Matches(x, list[..n][i]);
      assert Matches(x, list[i]);
    }
    if SomeMatches(list, x) && !Matches(x, list[n]) {
      var i :| 0 <= i <= n && Matches(x, list[i]);
      assert Matches(x, list[..n][i]);
    }
  }

  lemma {:induction false} CoveredIsMatches(list: seq<Prefix>, x: nat)
    requires AllCanonical(list)
    ensures x in Covered(list) <==> x < ADDRESSES && SomeMatches(list, x)
  {
    if list != [] {
      var n := |list| - 1;
      CoveredIsMatches(list[..n], x);
      BlockIsMatches(list[n], x);
      LastMatches(list, x);
    }
  }

  /** The sum configurableRunningSandboxRange folds over the list. */
  function Capacity(list: seq<Prefix>): nat
    requires AllCanonical(list)
  {
    if list == [] then 0 else Capacity(list[..|list| - 1]) + Size(list[|list| - 1])
  }

  lemma PrefixApart(list: seq<Prefix>, n: nat)
    requires AllCanonical(list) && Apart(list) && n <= |list|
    ensures AllCanonical(list[..n]) && Apart(list[..n])
  {
    forall i | 0 <= i < n ensures ApartFrom(list[..n], i) {
      assert ApartFrom(list, i);
      forall j | i < j < n ensures ApartAt(list[..n], i, j) { assert ApartAt(list, i, j); }
    }
  }

  /** For a list that passed the check, the folded sum is the number of distinct addresses covered. */
  lemma {:induction false} CapacityCountsAddresses(list: seq<Prefix>)
    requires AllCanonical(list) && Apart(list)
    ensures Capacity(list) == |Covered(list)|
  {
    if list != [] {
      var n := |list| - 1;
      PrefixApart(list, n);
      CapacityCountsAddresses(list[..n]);
      forall x | x in Covered(list[..n]) && x in Block(list[n]) ensures false {
        CoveredIsMatches(list[..n], x);
        BlockIsMatches(list[n], x);
        var i :| 0 <= i < n && Matches(x, list[..n][i]);
        AtMostOnePrefix(list, x, i, n);
      }
      assert Covered(list[..n]) !! Block(list[n]);
    }
  }

  datatype Bounds = Bounds(min: nat, max: nat)

  /** configurableRunningSandboxRange over the configured texts; an unreadable one counts nothing. */
  method RunningSandboxRange(shared: bool, texts: seq<string>) returns (r: Bounds)
    ensures r == if shared then Bounds(1, Min(TextCapacity(texts), MAX_SANDBOX_COUNT)) else Bounds(0, MAX_SANDBOX_COUNT)
    ensures r.max <= 10_000 && (shared ==> r.min == 1 && r.max <= TextCapacity(texts)) && (!shared ==> r.min == 0)
    ensures !shared || TextCapacity(texts) >= 10_000 ==> r.max == 10_000
    ensures shared && TextCapacity(texts) <= 10_000 ==> r.max == TextCapacity(texts)
  {
    if !shared { return Bounds(0, MAX_SANDBOX_COUNT); }
    var total: nat := 0;
    for i := 0 to |texts|
      invariant total == TextCapacity(texts[..i])
    {
      assert texts[..i + 1][..i] == texts[..i];
      var c := ParseCidr(texts[i]);
      if c.Some? { total := total + Size(c.value); }
    }
    assert texts[..|texts|] == texts;
    r := Bounds(1, Min(total, MAX_SANDBOX_COUNT));
  }

  function Min(a: nat, b: nat): nat {
    if a <= b then a else b
  }

  function TextCapacity(texts: seq<string>): nat {
    if texts == [] then 0
    else
      var c := ParseCidr(texts[|texts| - 1]);
      TextCapacity(texts[..|texts| - 1]) + if c.Some? then Size(c.value) else 0
  }

  function Texts(list: seq<Prefix>): seq<string> {
    seq(|list|, i requires 0 <= i < |list| => CanonicalText(list[i]))
  }

  lemma LastTextCounts(list: seq<Prefix>)
    requires AllCanonical(list) && list != []
    ensures TextCapacity(Texts(list)) == TextCapacity(Texts(list[..|list| - 1])) + Size(list[|list| - 1])
  {
    var n := |list| - 1;
    PrefixRoundTrip(list[n]);
    assert Texts(list)[..n] == Texts(list[..n]);
  }

  /** Stored as canonical texts and read back, the list keeps its capacity. */
  lemma {:induction false} TextsKeepCapacity(list: seq<Prefix>)
    requires AllCanonical(list)
    ensures TextCapacity(Texts(list)) == Capacity(list)
  {
    if list != [] {
      TextsKeepCapacity(list[..|list| - 1]);
      LastTextCounts(list);
    }
  }

  /** The largest configurable sandbox count is bounded by the distinct addresses of the checked list. */
  lemma RangeCountsAddresses(list: seq<Prefix>)
    requires AllCanonical(list) && Apart(list)
    ensures Min(TextCapacity(Texts(list)), MAX_SANDBOX_COUNT) == Min(|Covered(list)|, MAX_SANDBOX_COUNT)
  {
    TextsKeepCapacity(list);
    CapacityCountsAddresses(list);
  }
}
