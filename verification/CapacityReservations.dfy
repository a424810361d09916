/**
 * Reservations and their gate, and admission over every interleaving
 * (capacityReservations.ts, sandboxCapacityAdmission.ts).
 */
module CapacityReservations {
  import opened SandboxCapacity

  type Name = string

  type Sizes = map<Name, Usage>

  function Size(sizes: Sizes, n: Name): Usage {
    if n in sizes then sizes[n] else ZERO
  }

  ghost function Pick(names: set<Name>): (n: Name)
    requires names != {}
    ensures n in names
  {
    var n :| n in names;
    n
  }

  /** The usage of a set of names. */
  ghost function Sum(names: set<Name>, sizes: Sizes): Usage {
    if names == {} then ZERO else Add(Size(sizes, Pick(names)), Sum(names - {Pick(names)}, sizes))
  }

  lemma {:induction false} SumRemove(names: set<Name>, sizes: Sizes, n: Name)
    requires n in names
    ensures Adds(Size(sizes, n), Sum(names - {n}, sizes), Sum(names, sizes))
    decreases names
  {
    var m := Pick(names);
    if m != n {
      SumRemove(names - {m}, sizes, n);
      SumRemove(names - {n}, sizes, m);
      assert names - {m} - {n} == names - {n} - {m};
    }
  }

  lemma SumAdd(names: set<Name>, sizes: Sizes, n: Name)
    requires n !in names
    ensures Adds(Sum(names, sizes), Size(sizes, n), Sum(names + {n}, sizes))
  {
    SumRemove(names + {n}, sizes, n);
    assert names + {n} - {n} == names;
  }

  lemma {:induction false} SumDisjoint(a: set<Name>, b: set<Name>, sizes: Sizes)
    requires a !! b
    ensures Adds(Sum(a, sizes), Sum(b, sizes), Sum(a + b, sizes))
    decreases b
  {
    if b == {} {
      assert a + b == a;
    } else {
      var n :| n in b;
      SumRemove(b, sizes, n);
      SumRemove(a + b, sizes, n);
      assert a + b - {n} == a + (b - {n});
      SumDisjoint(a, b - {n}, sizes);
    }
  }

  lemma SumSubset(small: set<Name>, big: set<Name>, sizes: Sizes)
    requires small <= big
    ensures Covers(Sum(big, sizes), Sum(small, sizes))
  {
    SumDisjoint(small, big - small, sizes);
    assert small + (big - small) == big;
  }

  lemma {:induction false} SumSame(names: set<Name>, f: Sizes, g: Sizes)
    requires forall n :: n in names ==> Size(f, n) == Size(g, n)
    ensures Same(Sum(names, f), Sum(names, g))
    decreases names
  {
    if names != {} {
      var n :| n in names;
      SumRemove(names, f, n);
      SumRemove(names, g, n);
      SumSame(names - {n}, f, g);
    }
  }

  /** The mutable map of reservations; its methods are steps of the transition system below, which also holds the gate. */
  class Reservations {
    var reservations: map<Name, Usage>

    constructor ()
      ensures reservations == map[]
    {
      reservations := map[];
    }

    /** The end of reserve, after its check passed: the Admit step of the admission holding the gate. */
    method Reserve(name: Name, usage: Usage, ghost s: State, ghost limits: Limits, ghost sizes: Sizes)
      requires reservations == s.reserved && Enabled(s, limits, sizes, Admit)
      requires name == s.gate.admission.name && usage == Size(sizes, name)
      modifies this
      ensures reservations == Apply(s, limits, sizes, Admit).reserved
    {
      reservations := reservations[name := usage];
    }

    /** The Release step. */
    method Release(name: Name, ghost s: State, ghost limits: Limits, ghost sizes: Sizes)
      requires reservations == s.reserved
      modifies this
      ensures reservations == Apply(s, limits, sizes, Step.Release(name)).reserved
    {
      reservations := reservations - {name};
    }

    /** Reservations of names that exist already, or of the current one, are counted elsewhere. */
    method PendingUsage(existing: set<Name>, current: Name) returns (pending: Usage)
      ensures pending == Sum(reservations.Keys - existing - {current}, reservations)
      ensures pending == Pending(State(existing, reservations, Free), current)
    {
      pending := ZERO;
      var rest := reservations.Keys;
      ghost var counted: set<Name> := {};
      while rest != {}
        invariant rest <= reservations.Keys
        invariant counted == reservations.Keys - rest - existing - {current}
        invariant pending == Sum(counted, reservations)
        decreases rest
      {
        var n :| n in rest;
        if n != current && n !in existing {
          SumAdd(counted, reservations, n);
          SameIsEqual(Add(pending, reservations[n]), Sum(counted + {n}, reservations));
          pending := Add(pending, reservations[n]);
          counted := counted + {n};
        }
        rest := rest - {n};
      }
      assert counted == reservations.Keys - existing - {current};
    }
  }

  // ---------------------------------------------------------------- admission interleaved with everything else

  /** The admission inside the gate: what it has counted so far, and its running usage. */
  datatype Holder = Holder(name: Name, listed: seq<Sandbox>, counted: set<Name>, usage: Usage)

  datatype Gate = Free | Held(admission: Holder)

  datatype State = State(existing: set<Name>, reserved: map<Name, Usage>, gate: Gate)

  datatype Step =
    | Enter(name: Name, listed: seq<Sandbox>)
    | Evict(sandbox: Sandbox)
    | Admit
    | Reject
    | Create(name: Name)
    | Release(name: Name)
    | Delete(name: Name)

  ghost predicate UniqueNames(list: seq<Sandbox>) {
    forall i, j :: 0 <= i < j < |list| ==> list[i].name != list[j].name
  }

  /** The list read inside the gate: every existing sandbox once, with the usage of its name. */
  ghost predicate Lists(list: seq<Sandbox>, existing: set<Name>, sizes: Sizes) {
    UniqueNames(list) && NamesOf(list) == existing && SizedBy(list, sizes)
  }

  predicate SizedBy(list: seq<Sandbox>, sizes: Sizes) {
    forall i :: 0 <= i < |list| ==> list[i].usage == Size(sizes, list[i].name)
  }

  predicate Unlimited(limits: Limits) {
    limits.maxCount <= 0 && limits.maxCpu <= 0 && limits.maxMemory <= 0
  }

  ghost predicate Enabled(s: State, limits: Limits, sizes: Sizes, step: Step) {
    match step
    case Enter(name, listed) => s.gate.Free? && Lists(listed, s.existing, sizes)
    case Evict(x) =>
      // a name being ensured is busy: its eviction is refused
      s.gate.Held? && x in s.gate.admission.listed && x.name in s.gate.admission.counted
      && x.name != s.gate.admission.name && x.name !in s.reserved
    case Admit => s.gate.Held? && !Exceeded(limits, s.gate.admission.usage)
    case Reject => s.gate.Held?
    case Create(name) => name in s.reserved || Unlimited(limits)
    case Release(_) => true
    case Delete(_) => true
  }

  ghost function Pending(s: State, name: Name): Usage {
    Sum(s.reserved.Keys - s.existing - {name}, s.reserved)
  }

  ghost function Apply(s: State, limits: Limits, sizes: Sizes, step: Step): State
    requires Enabled(s, limits, sizes, step)
  {
    match step
    case Enter(name, listed) =>
      s.(gate := Held(Holder(name, listed, s.existing + s.reserved.Keys + {name},
                                 Demand(listed, name, Size(sizes, name), Pending(s, name)))))
    case Evict(x) =>
      var h := s.gate.admission;
      s.(existing := s.existing - {x.name},
         gate := Held(h.(counted := h.counted - {x.name}, usage := Subtract(h.usage, x.usage))))
    case Admit => s.(reserved := s.reserved[s.gate.admission.name := Size(sizes, s.gate.admission.name)], gate := Free)
    case Reject => s.(gate := Free)
    case Create(name) => s.(existing := s.existing + {name})
    case Release(name) => s.(reserved := s.reserved - {name})
    case Delete(name) => s.(existing := s.existing - {name})
  }

  /** Everything that exists or is promised. */
  function Claimed(s: State): set<Name> {
    s.existing + s.reserved.Keys
  }

  ghost predicate Within(s: State, limits: Limits, sizes: Sizes) {
    !Exceeded(limits, Sum(Claimed(s), sizes))
  }

  ghost predicate HolderFits(s: State, sizes: Sizes) {
    s.gate.Held? ==>
      var h := s.gate.admission;
      && h.name in h.counted && Claimed(s) <= h.counted && Same(h.usage, Sum(h.counted, sizes))
      && SizedBy(h.listed, sizes)
  }

  ghost predicate Inv(s: State, limits: Limits, sizes: Sizes) {
    && Within(s, limits, sizes)
    && (forall n :: n in s.reserved ==> s.reserved[n] == Size(sizes, n))
    && (Unlimited(limits) || HolderFits(s, sizes))
  }

  ghost function NamesOf(list: seq<Sandbox>): set<Name> {
    set i | 0 <= i < |list| :: list[i].name
  }

  /** The list's total, without one name, is the usage of the other names. */
  lemma {:induction false} OthersTotal(list: seq<Sandbox>, name: Name, sizes: Sizes)
    requires UniqueNames(list) && SizedBy(list, sizes)
    ensures Same(Total(Others(list, name)), Sum(NamesOf(list) - {name}, sizes))
  {
    if list == [] {
      assert NamesOf(list) - {name} == {};
    } else {
      var n := |list| - 1;
      var rest := list[..n];
      OthersTotal(rest, name, sizes);
      OthersStep(list, name, n);
      assert list[..n + 1] == list;
      LastName(list);
      if list[n].name != name {
        SumAdd(NamesOf(rest) - {name}, sizes, list[n].name);
        assert NamesOf(list) - {name} == (NamesOf(rest) - {name}) + {list[n].name};
      } else {
        assert NamesOf(list) - {name} == NamesOf(rest) - {name};
      }
    }
  }

  lemma LastName(list: seq<Sandbox>)
    requires UniqueNames(list) && |list| > 0
    ensures NamesOf(list) == NamesOf(list[..|list| - 1]) + {list[|list| - 1].name}
    ensures list[|list| - 1].name !in NamesOf(list[..|list| - 1])
  {}

  lemma ListedTotal(listed: seq<Sandbox>, existing: set<Name>, name: Name, sizes: Sizes)
    requires Lists(listed, existing, sizes)
    ensures Same(Total(Others(listed, name)), Sum(existing - {name}, sizes))
  {
    OthersTotal(listed, name, sizes);
  }

  /** The demand computed from list and reservations is the usage of every claimed name and the newcomer. */
  lemma DemandIsSum(s: State, sizes: Sizes, name: Name, listed: seq<Sandbox>)
    requires (forall n :: n in s.reserved ==> s.reserved[n] == Size(sizes, n)) && Lists(listed, s.existing, sizes)
    ensures Same(Demand(listed, name, Size(sizes, name), Pending(s, name)), Sum(Claimed(s) + {name}, sizes))
  {
    var promised, present := s.reserved.Keys - s.existing - {name}, s.existing - {name};
    ListedTotal(listed, s.existing, name, sizes);
    SumSame(promised, s.reserved, sizes);
    assert Claimed(s) + {name} == promised + present + {name};
    SumOfThree(promised, present, name, Claimed(s) + {name}, sizes);
  }

  lemma SumOfThree(promised: set<Name>, present: set<Name>, name: Name, all: set<Name>, sizes: Sizes)
    requires promised !! present && name !in promised && name !in present && all == promised + present + {name}
    ensures Adds(Add(Sum(promised, sizes), Size(sizes, name)), Sum(present, sizes), Sum(all, sizes))
  {
    SumDisjoint(promised, present, sizes);
    SumAdd(promised + present, sizes, name);
  }

  lemma Shrinks(s: State, s': State, limits: Limits, sizes: Sizes)
    requires Within(s, limits, sizes) && Claimed(s') <= Claimed(s)
    ensures Within(s', limits, sizes)
  {
    SumSubset(Claimed(s'), Claimed(s), sizes);
    SmallerFits(limits, Sum(Claimed(s), sizes), Sum(Claimed(s'), sizes));
  }

  lemma EvictFits(s: State, limits: Limits, sizes: Sizes, x: Sandbox)
    requires HolderFits(s, sizes) && Enabled(s, limits, sizes, Evict(x))
    ensures HolderFits(Apply(s, limits, sizes, Evict(x)), sizes)
  {
    var h := s.gate.admission;
    var rest := h.counted - {x.name};
    var i :| 0 <= i < |h.listed| && h.listed[i] == x;
    assert x.usage == Size(sizes, x.name);
    SumRemove(h.counted, sizes, x.name);
    TakeAway(h.usage, Sum(h.counted, sizes), x.usage, Sum(rest, sizes));
    var after := h.(counted := rest, usage := Subtract(h.usage, x.usage));
    var s' := Apply(s, limits, sizes, Evict(x));
    assert s' == s.(existing := s.existing - {x.name}, gate := Held(after));
    assert Claimed(s') <= rest;
  }

  lemma AdmitFits(s: State, limits: Limits, sizes: Sizes)
    requires HolderFits(s, sizes) && Enabled(s, limits, sizes, Admit)
    ensures Within(Apply(s, limits, sizes, Admit), limits, sizes)
  {
    var h := s.gate.admission;
    var claimed := Claimed(Apply(s, limits, sizes, Admit));
    SumSubset(claimed, h.counted, sizes);
    SmallerFits(limits, h.usage, Sum(claimed, sizes));
  }

  lemma StepInv(s: State, limits: Limits, sizes: Sizes, step: Step)
    requires Inv(s, limits, sizes) && Enabled(s, limits, sizes, step)
    ensures Inv(Apply(s, limits, sizes, step), limits, sizes)
  {
    var s' := Apply(s, limits, sizes, step);
    if Unlimited(limits) { return; }
    match step {
      case Enter(name, listed) =>
        DemandIsSum(s, sizes, name, listed);
        assert Claimed(s') == Claimed(s);
      case Evict(x) =>
        Shrinks(s, s', limits, sizes);
        EvictFits(s, limits, sizes, x);
      case Admit => AdmitFits(s, limits, sizes);
      case Reject => assert Claimed(s') == Claimed(s);
      case Create(name) => assert Claimed(s') == Claimed(s);
      case Release(_) => Shrinks(s, s', limits, sizes);
      case Delete(_) => Shrinks(s, s', limits, sizes);
    }
  }

  function Init(): State {
    State({}, map[], Free)
  }

  ghost predicate NextAt(run: seq<State>, limits: Limits, sizes: Sizes, i: nat)
    requires i + 1 < |run|
  {
    exists step :: Enabled(run[i], limits, sizes, step) && run[i + 1] == Apply(run[i], limits, sizes, step)
  }

  ghost predicate IsRun(run: seq<State>, limits: Limits, sizes: Sizes) {
    |run| > 0 && run[0] == Init() && forall i :: 0 <= i < |run| - 1 ==> NextAt(run, limits, sizes, i)
  }

  lemma {:induction false} RunInv(run: seq<State>, limits: Limits, sizes: Sizes, i: nat)
    requires IsRun(run, limits, sizes) && i < |run|
    ensures Inv(run[i], limits, sizes)
  {
    if i > 0 {
      RunInv(run, limits, sizes, i - 1);
      assert NextAt(run, limits, sizes, i - 1);
      var step :| Enabled(run[i - 1], limits, sizes, step) && run[i] == Apply(run[i - 1], limits, sizes, step);
      StepInv(run[i - 1], limits, sizes, step);
    }
  }

  /**
   * In every interleaving of admissions, evictions, creations, releases and deletions, what exists
   * together with what is reserved and does not exist yet stays within every positive limit.
   */
  lemma NeverOversold(run: seq<State>, limits: Limits, sizes: Sizes, i: nat)
    requires IsRun(run, limits, sizes) && i < |run|
    ensures Inv(run[i], limits, sizes)
    ensures !Exceeded(limits, Sum(run[i].existing + run[i].reserved.Keys, sizes))
    ensures var promised := Sum(run[i].existing + run[i].reserved.Keys, sizes);
            && (limits.maxCount > 0 ==> promised.count <= limits.maxCount)
            && (limits.maxCpu > 0 ==> promised.cpu <= limits.maxCpu)
            && (limits.maxMemory > 0 ==> promised.memory <= limits.maxMemory)
  {
    RunInv(run, limits, sizes, i);
    ExceededDecides(limits, Sum(Claimed(run[i]), sizes), ZERO);
  }

  /**
   * In every interleaving, the admission in the gate may record its reservation exactly when everything it
   * still counts, the newcomer included, is within every positive limit; then the newcomer is promised its own usage.
   */
  lemma AdmitDecides(run: seq<State>, limits: Limits, sizes: Sizes, i: nat)
    requires IsRun(run, limits, sizes) && i < |run| && run[i].gate.Held? && !Unlimited(limits)
    ensures var h := run[i].gate.admission;
            Enabled(run[i], limits, sizes, Admit) <==> Fits(limits, Sum(h.counted, sizes), ZERO)
    ensures var h := run[i].gate.admission;
            h.name in h.counted && run[i].existing + run[i].reserved.Keys <= h.counted
    ensures Enabled(run[i], limits, sizes, Admit) ==>
              Apply(run[i], limits, sizes, Admit).reserved == run[i].reserved[run[i].gate.admission.name := Size(sizes, run[i].gate.admission.name)]
  {
    RunInv(run, limits, sizes, i);
    HolderDecides(run[i], limits, sizes);
  }

  lemma HolderDecides(s: State, limits: Limits, sizes: Sizes)
    requires s.gate.Held? && HolderFits(s, sizes)
    ensures Enabled(s, limits, sizes, Admit) <==> Fits(limits, Sum(s.gate.admission.counted, sizes), ZERO)
  {
    var h := s.gate.admission;
    SameIsEqual(h.usage, Sum(h.counted, sizes));
    ExceededDecides(limits, h.usage, ZERO);
  }
}
