/** Usage arithmetic, the admission loop with eviction, and the health summary (sandboxCapacity.ts). */
module SandboxCapacity {

  datatype Usage = Usage(count: nat, cpu: nat, memory: nat)

  /** Zero or negative means unlimited. */
  datatype Limits = Limits(maxCount: int, maxCpu: int, maxMemory: int)

  datatype Sandbox = Sandbox(name: string, paused: bool, usage: Usage)

  const ZERO := Usage(0, 0, 0)

  datatype Dimension = Count | Cpu | Memory

  function Part(u: Usage, d: Dimension): nat {
    match d case Count => u.count case Cpu => u.cpu case Memory => u.memory
  }

  function Add(a: Usage, b: Usage): (r: Usage)
    ensures Adds(a, b, r)
  {
    Usage(a.count + b.count, a.cpu + b.cpu, a.memory + b.memory)
  }

  function Clamp(a: nat, b: nat): nat {
    if a >= b then a - b else 0
  }

  function Subtract(a: Usage, b: Usage): Usage {
    Usage(Clamp(a.count, b.count), Clamp(a.cpu, b.cpu), Clamp(a.memory, b.memory))
  }

  predicate Exceeds(limit: int, value: nat) {
    limit > 0 && value > limit
  }

  predicate Exceeded(limits: Limits, u: Usage) {
    Exceeds(limits.maxCount, u.count) || Exceeds(limits.maxCpu, u.cpu) || Exceeds(limits.maxMemory, u.memory)
  }

  /** In plain arithmetic: what is needed, less what is freed, is within every positive limit. */
  predicate Fits(limits: Limits, needed: Usage, freed: Usage) {
    && (limits.maxCount > 0 ==> needed.count <= limits.maxCount + freed.count)
    && (limits.maxCpu > 0 ==> needed.cpu <= limits.maxCpu + freed.cpu)
    && (limits.maxMemory > 0 ==> needed.memory <= limits.maxMemory + freed.memory)
  }

  /** The code's limit test, with its clamped subtraction, is that arithmetic. */
  lemma ExceededDecides(limits: Limits, needed: Usage, freed: Usage)
    ensures !Exceeded(limits, Subtract(needed, freed)) <==> Fits(limits, needed, freed)
    ensures !Exceeded(limits, needed) <==> Fits(limits, needed, ZERO)
    ensures Exceeded(limits, needed) <==>
              || 0 < limits.maxCount < needed.count || 0 < limits.maxCpu < needed.cpu || 0 < limits.maxMemory < needed.memory
  {}

  predicate CanAdmit(inUse: Usage, desired: Usage, reclaimable: Usage, limits: Limits) {
    var next := Add(inUse, desired);
    !Exceeded(limits, next) || !Exceeded(limits, Subtract(next, reclaimable))
  }

  function Total(list: seq<Sandbox>): Usage {
    if list == [] then ZERO else Add(Total(list[..|list| - 1]), list[|list| - 1].usage)
  }

  /** `r` is the sum of `a` and `b`, part by part. */
  predicate Adds(a: Usage, b: Usage, r: Usage) {
    forall d :: Part(r, d) == Part(a, d) + Part(b, d)
  }

  predicate Same(a: Usage, b: Usage) {
    forall d :: Part(a, d) == Part(b, d)
  }

  function Keep(list: seq<Sandbox>, keep: Sandbox -> bool): (r: seq<Sandbox>) {
    if list == [] then []
    else
      var rest := Keep(list[..|list| - 1], keep);
      if keep(list[|list| - 1]) then rest + [list[|list| - 1]] else rest
  }

  function Others(list: seq<Sandbox>, name: string): seq<Sandbox> {
    Keep(list, (s: Sandbox) => s.name != name)
  }

  function Evictable(list: seq<Sandbox>, name: string, canEvict: Sandbox -> bool): seq<Sandbox> {
    Keep(list, (s: Sandbox) => s.name != name && s.paused && canEvict(s))
  }

  // ---------------------------------------------------------------- what is counted

  lemma {:induction false} KeepMembers(list: seq<Sandbox>, keep: Sandbox -> bool, x: Sandbox)
    ensures x in Keep(list, keep) <==> x in list && keep(x)
  {
    if list != [] {
      KeepMembers(list[..|list| - 1], keep, x);
      assert list == list[..|list| - 1] + [list[|list| - 1]];
    }
  }

  /** Who may be evicted: paused sandboxes of another name that the caller lets go; and what counts as reclaimable. */
  lemma WhoMayGo(list: seq<Sandbox>, name: string, canEvict: Sandbox -> bool, x: Sandbox)
    ensures x in Evictable(list, name, canEvict) <==> x in list && x.name != name && x.paused && canEvict(x)
    ensures x in Reclaimable(list, canEvict) <==> x in list && x.paused && canEvict(x)
  {
    KeepMembers(list, (s: Sandbox) => s.name != name && s.paused && canEvict(s), x);
    KeepMembers(list, (s: Sandbox) => s.paused && canEvict(s), x);
  }

  /** One part of the usage of the sandboxes from position i on, leaving out one name. */
  function PartFrom(list: seq<Sandbox>, name: string, d: Dimension, i: nat): nat
    requires i <= |list|
    decreases |list| - i
  {
    if i == |list| then 0
    else (if list[i].name == name then 0
          else match d case Count => list[i].usage.count case Cpu => list[i].usage.cpu case Memory => list[i].usage.memory)
         + PartFrom(list, name, d, i + 1)
  }

  lemma {:induction false} OthersFrom(list: seq<Sandbox>, name: string, d: Dimension, i: nat)
    requires i <= |list|
    ensures Part(Total(Others(list, name)), d) == Part(Total(Others(list[..i], name)), d) + PartFrom(list, name, d, i)
    decreases |list| - i
  {
    if i == |list| {
      assert list[..i] == list;
    } else {
      OthersFrom(list, name, d, i + 1);
      OthersStep(list, name, i);
    }
  }

  /** The demand, part by part: what is pending, what is asked for, and every other listed sandbox. */
  lemma DemandDecides(list: seq<Sandbox>, name: string, desired: Usage, pending: Usage)
    ensures Demand(list, name, desired, pending) == Usage(
              pending.count + desired.count + PartFrom(list, name, Count, 0),
              pending.cpu + desired.cpu + PartFrom(list, name, Cpu, 0),
              pending.memory + desired.memory + PartFrom(list, name, Memory, 0))
  {
    OthersFrom(list, name, Count, 0);
    OthersFrom(list, name, Cpu, 0);
    OthersFrom(list, name, Memory, 0);
  }

  /** What was evicted: exactly the tried candidates whose eviction succeeded. */
  lemma {:induction false} EvictedMembers(candidates: seq<Sandbox>, outcomes: seq<bool>, k: nat, x: Sandbox)
    requires k <= |candidates| == |outcomes|
    ensures x in Evicted(candidates, outcomes, k) <==> exists i :: 0 <= i < k && outcomes[i] && candidates[i] == x
  {
    if k > 0 { EvictedMembers(candidates, outcomes, k - 1, x); }
  }

  // ---------------------------------------------------------------- totals

  predicate Covers(big: Usage, small: Usage) {
    forall d :: Part(small, d) <= Part(big, d)
  }

  lemma SameIsEqual(a: Usage, b: Usage)
    requires Same(a, b)
    ensures a == b
  {
    assert Part(a, Count) == Part(b, Count) && Part(a, Cpu) == Part(b, Cpu) && Part(a, Memory) == Part(b, Memory);
  }

  /** Taking one part away from a total leaves the other. */
  lemma TakeAway(total: Usage, sum: Usage, part: Usage, rest: Usage)
    requires Same(total, sum) && Adds(part, rest, sum)
    ensures Same(Subtract(total, part), rest)
  {
    forall d ensures Part(Subtract(total, part), d) == Part(rest, d) {
      assert Part(sum, d) == Part(part, d) + Part(rest, d) && Part(total, d) == Part(sum, d);
    }
  }

  lemma SmallerFits(limits: Limits, big: Usage, small: Usage)
    requires Covers(big, small) && !Exceeded(limits, big)
    ensures !Exceeded(limits, small)
  {
    assert Part(small, Count) <= Part(big, Count) && Part(small, Cpu) <= Part(big, Cpu) && Part(small, Memory) <= Part(big, Memory);
  }

  /** A pointwise smaller choice has a smaller total. */
  lemma {:induction false} KeepCovers(list: seq<Sandbox>, wide: Sandbox -> bool, narrow: Sandbox -> bool)
    requires forall s :: narrow(s) ==> wide(s)
    ensures Covers(Total(Keep(list, wide)), Total(Keep(list, narrow)))
  {
    if list != [] {
      var n := |list| - 1;
      KeepCovers(list[..n], wide, narrow);
      TotalSnoc(Keep(list[..n], wide), list[n]);
      TotalSnoc(Keep(list[..n], narrow), list[n]);
    }
  }

  lemma TotalSnoc(list: seq<Sandbox>, x: Sandbox)
    ensures Adds(Total(list), x.usage, Total(list + [x]))
  {
    assert (list + [x])[..|list|] == list;
  }

  lemma {:induction false} TotalAppend(a: seq<Sandbox>, b: seq<Sandbox>)
    ensures Adds(Total(a), Total(b), Total(a + b))
  {
    if b == [] {
      assert a + b == a;
    } else {
      TotalAppend(a, b[..|b| - 1]);
      assert (a + b)[..|a + b| - 1] == a + b[..|b| - 1];
    }
  }

  /** Sorting does not change a total. */
  lemma {:induction false} TotalOfPermutation(a: seq<Sandbox>, b: seq<Sandbox>)
    requires multiset(a) == multiset(b)
    ensures Same(Total(a), Total(b))
  {
    if a == [] {
      assert |multiset(b)| == 0;
    } else {
      var n := |a| - 1;
      assert a == a[..n] + [a[n]];
      assert a[n] in multiset(b);
      var left, right := Around(b, a[n]);
      TotalAppend(left + [a[n]], right);
      TotalSnoc(left, a[n]);
      TotalAppend(left, right);
      assert multiset(a[..n]) == multiset(a) - multiset{a[n]};
      TotalOfPermutation(a[..n], left + right);
    }
  }

  lemma Around(b: seq<Sandbox>, x: Sandbox) returns (left: seq<Sandbox>, right: seq<Sandbox>)
    requires x in b
    ensures b == (left + [x]) + right
  {
    var i :| 0 <= i < |b| && b[i] == x;
    left, right := b[..i], b[i + 1..];
  }

  lemma PrefixCovers(list: seq<Sandbox>, k: nat)
    requires k <= |list|
    ensures Covers(Total(list), Total(list[..k]))
  {
    assert list == list[..k] + list[k..];
    TotalAppend(list[..k], list[k..]);
  }

  // ---------------------------------------------------------------- the admission loop

  /** The usage admission starts from: everything listed or pending, with the newcomer once. */
  function Demand(list: seq<Sandbox>, name: string, desired: Usage, pending: Usage): Usage {
    Add(Add(pending, desired), Total(Others(list, name)))
  }

  /** The candidates among the first k whose eviction succeeded. */
  function Evicted(candidates: seq<Sandbox>, outcomes: seq<bool>, k: nat): seq<Sandbox>
    requires k <= |candidates| == |outcomes|
  {
    if k == 0 then [] else Evicted(candidates, outcomes, k - 1) + (if outcomes[k - 1] then [candidates[k - 1]] else [])
  }

  /** Demand left after the first k candidates. */
  function Remaining(demand: Usage, candidates: seq<Sandbox>, outcomes: seq<bool>, k: nat): Usage
    requires k <= |candidates| == |outcomes|
  {
    Subtract(demand, Total(Evicted(candidates, outcomes, k)))
  }

  function Names(list: seq<Sandbox>): seq<string> {
    seq(|list|, i requires 0 <= i < |list| => list[i].name)
  }

  lemma NamesSnoc(list: seq<Sandbox>, x: Sandbox)
    ensures Names(list + [x]) == Names(list) + [x.name]
  {}

  datatype Admission = Admitted(usage: Usage, evicted: seq<string>) | Exhausted(usage: Usage)

  lemma EvictedStep(candidates: seq<Sandbox>, outcomes: seq<bool>, k: nat)
    requires k < |candidates| == |outcomes|
    ensures var before, after := Evicted(candidates, outcomes, k), Evicted(candidates, outcomes, k + 1);
            if outcomes[k] then after == before + [candidates[k]] && Adds(Total(before), candidates[k].usage, Total(after))
            else after == before
  {
    var before := Evicted(candidates, outcomes, k);
    TotalSnoc(before, candidates[k]);
    assert before + [] == before;
  }

  lemma NamesStep(candidates: seq<Sandbox>, outcomes: seq<bool>, k: nat)
    requires k < |candidates| == |outcomes|
    ensures Names(Evicted(candidates, outcomes, k + 1)) ==
            Names(Evicted(candidates, outcomes, k)) + if outcomes[k] then [candidates[k].name] else []
  {
    EvictedStep(candidates, outcomes, k);
    NamesSnoc(Evicted(candidates, outcomes, k), candidates[k]);
  }

  lemma CoversBoth(big: Usage, small: Usage, more: Usage, grown: Usage)
    requires Covers(big, small) && Adds(big, more, grown)
    ensures Covers(grown, small) && forall r :: Adds(small, more, r) ==> Covers(grown, r)
  {}

  lemma {:induction false} EvictedCovered(candidates: seq<Sandbox>, outcomes: seq<bool>, k: nat)
    requires k <= |candidates| == |outcomes|
    ensures Covers(Total(candidates[..k]), Total(Evicted(candidates, outcomes, k)))
  {
    if k > 0 {
      EvictedCovered(candidates, outcomes, k - 1);
      EvictedCoveredStep(candidates, outcomes, k - 1);
    }
  }

  lemma EvictedCoveredStep(candidates: seq<Sandbox>, outcomes: seq<bool>, k: nat)
    requires k < |candidates| == |outcomes| && Covers(Total(candidates[..k]), Total(Evicted(candidates, outcomes, k)))
    ensures Covers(Total(candidates[..k + 1]), Total(Evicted(candidates, outcomes, k + 1)))
  {
    EvictedStep(candidates, outcomes, k);
    PrefixStep(candidates, k);
    CoversBoth(Total(candidates[..k]), Total(Evicted(candidates, outcomes, k)), candidates[k].usage, Total(candidates[..k + 1]));
  }

  lemma PrefixStep(list: seq<Sandbox>, k: nat)
    requires k < |list|
    ensures Adds(Total(list[..k]), list[k].usage, Total(list[..k + 1]))
  {
    TotalSnoc(list[..k], list[k]);
    assert list[..k + 1] == list[..k] + [list[k]];
  }

  /** What is evicted was counted, so the clamp of the subtraction never bites. */
  lemma DemandCoversEvicted(
      list: seq<Sandbox>, name: string, desired: Usage, pending: Usage, canEvict: Sandbox -> bool,
      candidates: seq<Sandbox>, outcomes: seq<bool>, k: nat)
    requires multiset(candidates) == multiset(Evictable(list, name, canEvict)) && k <= |candidates| == |outcomes|
    ensures Covers(Demand(list, name, desired, pending), Total(Evicted(candidates, outcomes, k)))
  {
    EvictedCovered(candidates, outcomes, k);
    PrefixCovers(candidates, k);
    TotalOfPermutation(candidates, Evictable(list, name, canEvict));
    KeepCovers(list, (s: Sandbox) => s.name != name, (s: Sandbox) => s.name != name && s.paused && canEvict(s));
  }

  predicate CoveredAt(demand: Usage, candidates: seq<Sandbox>, outcomes: seq<bool>, k: nat)
    requires k <= |candidates| == |outcomes|
  {
    Covers(demand, Total(Evicted(candidates, outcomes, k)))
  }

  lemma AllCovered(
      list: seq<Sandbox>, name: string, desired: Usage, pending: Usage, canEvict: Sandbox -> bool,
      candidates: seq<Sandbox>, outcomes: seq<bool>)
    requires multiset(candidates) == multiset(Evictable(list, name, canEvict)) && |candidates| == |outcomes|
    ensures forall k :: 0 <= k <= |candidates| ==> CoveredAt(Demand(list, name, desired, pending), candidates, outcomes, k)
  {
    forall k | 0 <= k <= |candidates| ensures CoveredAt(Demand(list, name, desired, pending), candidates, outcomes, k) {
      DemandCoversEvicted(list, name, desired, pending, canEvict, candidates, outcomes, k);
    }
  }

  /** Evicting one more candidate subtracts exactly its usage. */
  lemma RemainingStep(demand: Usage, candidates: seq<Sandbox>, outcomes: seq<bool>, k: nat)
    requires k < |candidates| == |outcomes|
    requires Covers(demand, Total(Evicted(candidates, outcomes, k + 1)))
    ensures Remaining(demand, candidates, outcomes, k + 1) ==
            if outcomes[k] then Subtract(Remaining(demand, candidates, outcomes, k), candidates[k].usage)
            else Remaining(demand, candidates, outcomes, k)
  {
    EvictedStep(candidates, outcomes, k);
  }

  lemma UndoSubtract(demand: Usage, candidates: seq<Sandbox>, outcomes: seq<bool>, k: nat)
    requires k <= |candidates| == |outcomes| && CoveredAt(demand, candidates, outcomes, k)
    ensures Adds(Remaining(demand, candidates, outcomes, k), Total(Evicted(candidates, outcomes, k)), demand)
  {
    SubtractUndoes(demand, Total(Evicted(candidates, outcomes, k)));
  }

  lemma SubtractUndoes(big: Usage, small: Usage)
    requires Covers(big, small)
    ensures Adds(Subtract(big, small), small, big)
  {
    forall d ensures Part(big, d) == Part(Subtract(big, small), d) + Part(small, d) {
      assert Part(small, d) <= Part(big, d);
    }
  }

  /** A prefix makes room exactly when the demand less what it evicts is within every positive limit. */
  lemma RoomDecides(demand: Usage, candidates: seq<Sandbox>, outcomes: seq<bool>, limits: Limits, k: nat)
    requires k <= |candidates| == |outcomes|
    ensures RoomAt(demand, candidates, outcomes, limits, k) <==> Fits(limits, demand, Total(Evicted(candidates, outcomes, k)))
  {
    ExceededDecides(limits, demand, Total(Evicted(candidates, outcomes, k)));
  }

  /** Some prefix of the candidates, possibly empty, makes room. */
  predicate RoomAt(demand: Usage, candidates: seq<Sandbox>, outcomes: seq<bool>, limits: Limits, k: nat)
    requires k <= |candidates| == |outcomes|
  {
    !Exceeded(limits, Remaining(demand, candidates, outcomes, k))
  }

  /**
   * enforceSandboxCapacity. `candidates` is the sorted list of evictable sandboxes, in any order, and
   * `outcomes` what each eviction reports. It admits exactly when some prefix of the candidates makes
   * room, stops at the shortest such prefix, and returns the demand minus what was evicted, undiminished
   * by the clamp.
   */
  method EnforceSandboxCapacity(
      list: seq<Sandbox>, name: string, desired: Usage, pending: Usage, limits: Limits, allowEviction: bool,
      canEvict: Sandbox -> bool, candidates: seq<Sandbox>, outcomes: seq<bool>)
    returns (r: Admission, ghost used: nat)
    requires multiset(candidates) == multiset(Evictable(list, name, canEvict)) && |outcomes| == |candidates|
    ensures used <= if allowEviction then |candidates| else 0
    ensures r.Admitted? <==>
              exists k :: 0 <= k <= (if allowEviction then |candidates| else 0)
                          && RoomAt(Demand(list, name, desired, pending), candidates, outcomes, limits, k)
    ensures forall k :: 0 <= k < used ==> !RoomAt(Demand(list, name, desired, pending), candidates, outcomes, limits, k)
    ensures r.Admitted? ==> !Exceeded(limits, r.usage) && r.evicted == Names(Evicted(candidates, outcomes, used))
    ensures Adds(r.usage, Total(Evicted(candidates, outcomes, used)), Demand(list, name, desired, pending))
    ensures r.Admitted? ==>
              && (limits.maxCount > 0 ==> r.usage.count <= limits.maxCount)
              && (limits.maxCpu > 0 ==> r.usage.cpu <= limits.maxCpu)
              && (limits.maxMemory > 0 ==> r.usage.memory <= limits.maxMemory)
    ensures r.Exhausted? ==>
              || 0 < limits.maxCount < r.usage.count || 0 < limits.maxCpu < r.usage.cpu || 0 < limits.maxMemory < r.usage.memory
    ensures r.Exhausted? ==> used == if allowEviction then |candidates| else 0
  {
    var usage := SumDemand(list, name, desired, pending);
    used := 0;
    if !Exceeded(limits, usage) {
      assert RoomAt(usage, candidates, outcomes, limits, 0);
      return Admitted(usage, []), 0;
    }
    if !allowEviction {
      assert !RoomAt(usage, candidates, outcomes, limits, 0);
      return Exhausted(usage), 0;
    }
    AllCovered(list, name, desired, pending, canEvict, candidates, outcomes);
    ghost var left := Levels(usage, candidates, outcomes);
    r, used := EvictUntilRoom(usage, limits, candidates, outcomes, left);
    LevelsDecide(usage, limits, candidates, outcomes, left, used);
  }

  /** The demand left after each number of candidates. */
  ghost function Levels(demand: Usage, candidates: seq<Sandbox>, outcomes: seq<bool>): (left: seq<Usage>)
    requires |candidates| == |outcomes|
    requires forall k :: 0 <= k <= |candidates| ==> CoveredAt(demand, candidates, outcomes, k)
    ensures |left| == |candidates| + 1 && left[0] == demand
    ensures forall k :: 0 <= k <= |candidates| ==> left[k] == Remaining(demand, candidates, outcomes, k)
    ensures forall k :: 0 <= k < |candidates| ==> LevelStep(left, candidates, outcomes, k)
  {
    var left := seq(|candidates| + 1, k requires 0 <= k <= |candidates| => Remaining(demand, candidates, outcomes, k));
    assert forall k :: 0 <= k < |candidates| ==> LevelStep(left, candidates, outcomes, k) by {
      forall k | 0 <= k < |candidates| ensures LevelStep(left, candidates, outcomes, k) {
        assert CoveredAt(demand, candidates, outcomes, k + 1);
        RemainingStep(demand, candidates, outcomes, k);
      }
    }
    SubtractNothing(demand);
    left
  }

  predicate LevelStep(left: seq<Usage>, candidates: seq<Sandbox>, outcomes: seq<bool>, k: nat)
    requires k < |candidates| == |outcomes| && |left| == |candidates| + 1
  {
    left[k + 1] == if outcomes[k] then Subtract(left[k], candidates[k].usage) else left[k]
  }

  lemma SubtractNothing(u: Usage)
    ensures Subtract(u, ZERO) == u
  {}

  lemma LevelsDecide(demand: Usage, limits: Limits, candidates: seq<Sandbox>, outcomes: seq<bool>, left: seq<Usage>, used: nat)
    requires |candidates| == |outcomes| && |left| == |candidates| + 1 && used <= |candidates|
    requires forall k :: 0 <= k <= |candidates| ==> left[k] == Remaining(demand, candidates, outcomes, k)
    requires forall k :: 0 <= k <= |candidates| ==> CoveredAt(demand, candidates, outcomes, k)
    ensures forall k :: 0 <= k <= |candidates| ==> (RoomAt(demand, candidates, outcomes, limits, k) <==> !Exceeded(limits, left[k]))
    ensures Adds(left[used], Total(Evicted(candidates, outcomes, used)), demand)
  {
    assert CoveredAt(demand, candidates, outcomes, used);
    UndoSubtract(demand, candidates, outcomes, used);
  }

  /** The first loop of enforceSandboxCapacity. */
  method SumDemand(list: seq<Sandbox>, name: string, desired: Usage, pending: Usage) returns (usage: Usage)
    ensures usage == Demand(list, name, desired, pending)
  {
    usage := Add(pending, desired);
    for i := 0 to |list|
      invariant usage == Add(Add(pending, desired), Total(Others(list[..i], name)))
    {
      OthersStep(list, name, i);
      if list[i].name != name {
        SameIsEqual(Add(usage, list[i].usage), Add(Add(pending, desired), Total(Others(list[..i + 1], name))));
        usage := Add(usage, list[i].usage);
      }
    }
    assert list[..|list|] == list;
  }

  /** The eviction loop, entered when the demand does not fit. */
  method EvictUntilRoom(demand: Usage, limits: Limits, candidates: seq<Sandbox>, outcomes: seq<bool>, ghost left: seq<Usage>)
    returns (r: Admission, ghost used: nat)
    requires |outcomes| == |candidates| && Exceeded(limits, demand)
    requires |left| == |candidates| + 1 && left[0] == demand
    requires forall k :: 0 <= k < |candidates| ==> LevelStep(left, candidates, outcomes, k)
    ensures used <= |candidates| && r.usage == left[used]
    ensures r.Admitted? <==> !Exceeded(limits, left[used])
    ensures r.Exhausted? ==> used == |candidates|
    ensures forall k :: 0 <= k < used ==> Exceeded(limits, left[k])
    ensures r.Admitted? ==> r.evicted == Names(Evicted(candidates, outcomes, used))
  {
    var usage := demand;
    var evicted: seq<string> := [];
    used := 0;
    for k := 0 to |candidates|
      invariant used == k && usage == left[k]
      invariant evicted == Names(Evicted(candidates, outcomes, k))
      invariant forall j :: 0 <= j <= k ==> Exceeded(limits, left[j])
    {
      assert LevelStep(left, candidates, outcomes, k);
      NamesStep(candidates, outcomes, k);
      used := k + 1;
      if outcomes[k] {
        usage := Subtract(usage, candidates[k].usage);
        evicted := evicted + [candidates[k].name];
        if !Exceeded(limits, usage) { return Admitted(usage, evicted), k + 1; }
      }
    }
    r := Exhausted(usage);
  }

  lemma OthersStep(list: seq<Sandbox>, name: string, i: nat)
    requires i < |list|
    ensures if list[i].name != name then Adds(Total(Others(list[..i], name)), list[i].usage, Total(Others(list[..i + 1], name)))
            else Others(list[..i + 1], name) == Others(list[..i], name)
  {
    assert list[..i + 1][..i] == list[..i];
    TotalSnoc(Others(list[..i], name), list[i]);
  }

  // ---------------------------------------------------------------- the health summary

  datatype Summary = Summary(inUse: Usage, evictable: nat, executionReady: bool)

  function Reclaimable(list: seq<Sandbox>, canEvict: Sandbox -> bool): seq<Sandbox> {
    Keep(list, (s: Sandbox) => s.paused && canEvict(s))
  }

  /** summarizeSandboxCapacity: the running sums of the loop are the totals of the list and of its reclaimable part. */
  method SummarizeSandboxCapacity(list: seq<Sandbox>, pending: Usage, standard: Usage, limits: Limits, canEvict: Sandbox -> bool)
    returns (r: Summary)
    ensures r.inUse == Add(pending, Total(list))
    ensures r.evictable == |Reclaimable(list, canEvict)|
    ensures r.executionReady <==> CanAdmit(Add(pending, Total(list)), standard, Total(Reclaimable(list, canEvict)), limits)
    ensures r.executionReady <==> Fits(limits, Add(r.inUse, standard), Total(Reclaimable(list, canEvict)))
  {
    var inUse, reclaimable, count := pending, ZERO, 0;
    for i := 0 to |list|
      invariant inUse == Add(pending, Total(list[..i]))
      invariant reclaimable == Total(Reclaimable(list[..i], canEvict))
      invariant count == |Reclaimable(list[..i], canEvict)|
    {
      assert list[..i + 1][..i] == list[..i];
      assert list[..i + 1] == list[..i] + [list[i]];
      TotalSnoc(list[..i], list[i]);
      TotalSnoc(Reclaimable(list[..i], canEvict), list[i]);
      inUse := Add(inUse, list[i].usage);
      if list[i].paused && canEvict(list[i]) {
        reclaimable := Add(reclaimable, list[i].usage);
        count := count + 1;
      }
    }
    assert list[..|list|] == list;
    r := Summary(inUse, count, CanAdmit(inUse, standard, reclaimable, limits));
    ExceededDecides(limits, Add(inUse, standard), reclaimable);
  }

  predicate Fresh(list: seq<Sandbox>, name: string) {
    forall i :: 0 <= i < |list| ==> list[i].name != name
  }

  lemma {:induction false} KeepSame(list: seq<Sandbox>, p: Sandbox -> bool, q: Sandbox -> bool)
    requires forall i :: 0 <= i < |list| ==> p(list[i]) == q(list[i])
    ensures Keep(list, p) == Keep(list, q)
  {
    if list != [] { KeepSame(list[..|list| - 1], p, q); }
  }

  lemma {:induction false} KeepAll(list: seq<Sandbox>, p: Sandbox -> bool)
    requires forall i :: 0 <= i < |list| ==> p(list[i])
    ensures Keep(list, p) == list
  {
    if list != [] { KeepAll(list[..|list| - 1], p); }
  }

  predicate AllSucceed(outcomes: seq<bool>) {
    forall i :: 0 <= i < |outcomes| ==> outcomes[i]
  }

  lemma {:induction false} AllEvicted(candidates: seq<Sandbox>, outcomes: seq<bool>, k: nat)
    requires k <= |candidates| == |outcomes| && AllSucceed(outcomes)
    ensures Evicted(candidates, outcomes, k) == candidates[..k]
  {
    if k > 0 { AllEvicted(candidates, outcomes, k - 1); }
  }

  /**
   * The summary and the admission loop agree: for a sandbox not yet listed, and whatever order the
   * candidates are tried in, readiness holds exactly when admission succeeds if every eviction does.
   */
  lemma ReadyIffAdmissible(
      list: seq<Sandbox>, name: string, desired: Usage, pending: Usage, limits: Limits, canEvict: Sandbox -> bool,
      candidates: seq<Sandbox>, outcomes: seq<bool>)
    requires Fresh(list, name) && AllSucceed(outcomes)
    requires multiset(candidates) == multiset(Evictable(list, name, canEvict)) && |outcomes| == |candidates|
    ensures CanAdmit(Add(pending, Total(list)), desired, Total(Reclaimable(list, canEvict)), limits) <==>
            exists k :: 0 <= k <= |candidates|
                        && RoomAt(Demand(list, name, desired, pending), candidates, outcomes, limits, k)
  {
    var demand := Demand(list, name, desired, pending);
    var n := |candidates|;
    KeepAll(list, (s: Sandbox) => s.name != name);
    KeepSame(list, (s: Sandbox) => s.name != name && s.paused && canEvict(s), (s: Sandbox) => s.paused && canEvict(s));
    TotalOfPermutation(candidates, Evictable(list, name, canEvict));
    SameIsEqual(Total(candidates), Total(Reclaimable(list, canEvict)));
    SameIsEqual(demand, Add(Add(pending, Total(list)), desired));
    RoomAtEnds(demand, candidates, outcomes, limits);
    forall k | 0 <= k <= n && RoomAt(demand, candidates, outcomes, limits, k) ensures RoomAt(demand, candidates, outcomes, limits, n) {
      RoomStays(demand, candidates, outcomes, limits, k);
    }
  }

  lemma RoomAtEnds(demand: Usage, candidates: seq<Sandbox>, outcomes: seq<bool>, limits: Limits)
    requires |outcomes| == |candidates| && AllSucceed(outcomes)
    ensures RoomAt(demand, candidates, outcomes, limits, 0) <==> !Exceeded(limits, demand)
    ensures RoomAt(demand, candidates, outcomes, limits, |candidates|) <==> !Exceeded(limits, Subtract(demand, Total(candidates)))
  {
    AllEvicted(candidates, outcomes, |candidates|);
    assert candidates[..|candidates|] == candidates;
  }

  /** Evicting more never takes room away. */
  lemma RoomStays(demand: Usage, candidates: seq<Sandbox>, outcomes: seq<bool>, limits: Limits, k: nat)
    requires |outcomes| == |candidates| && AllSucceed(outcomes) && k <= |candidates| && RoomAt(demand, candidates, outcomes, limits, k)
    ensures RoomAt(demand, candidates, outcomes, limits, |candidates|)
  {
    AllEvicted(candidates, outcomes, k);
    AllEvicted(candidates, outcomes, |candidates|);
    assert candidates[..|candidates|] == candidates;
    PrefixCovers(candidates, k);
    SmallerRemains(demand, Total(candidates), Total(candidates[..k]));
    SmallerFits(limits, Subtract(demand, Total(candidates[..k])), Subtract(demand, Total(candidates)));
  }

  lemma SmallerRemains(demand: Usage, big: Usage, small: Usage)
    requires Covers(big, small)
    ensures Covers(Subtract(demand, small), Subtract(demand, big))
  {
    forall d ensures Part(Subtract(demand, big), d) <= Part(Subtract(demand, small), d) {
      assert Part(small, d) <= Part(big, d);
    }
  }
}
