/** The resourceVersion compare-and-swap journal (ownershipJournal.ts). */
module OwnershipJournal {
  import opened Text
  import opened OwnershipState

  /** Reserve and update are list-to-list changes; the failures are the two thrown error classes. */
  datatype ChangeResult =
    | Changed(records: seq<Record>, result: Record)
    | Blocked
    | Unavailable

  const RETAINED_TERMINAL := 16

  function Unsettled(records: seq<Record>): seq<Record> {
    if records == [] then []
    else (if IsTerminal(records[0]) then [] else [records[0]]) + Unsettled(records[1..])
  }

  function Settled(records: seq<Record>): seq<Record> {
    if records == [] then []
    else (if IsTerminal(records[0]) then [records[0]] else []) + Settled(records[1..])
  }

  function LastOf<T>(s: seq<T>, n: nat): seq<T> {
    if |s| <= n then s else s[|s| - n..]
  }

  /** Every live record, then at most sixteen terminal ones. */
  function Compacted(records: seq<Record>): seq<Record> {
    Unsettled(records) + LastOf(Settled(records), RETAINED_TERMINAL)
  }

  /** `conflict` answers None where the source's predicate would throw. */
  predicate Admitted(records: seq<Record>, conflict: Record -> Option<bool>) {
    forall i :: 0 <= i < |records| && !IsTerminal(records[i]) ==> conflict(records[i]) == Some(false)
  }

  datatype Scan = Clear | Conflicting | Throws

  predicate Passes(record: Record, conflict: Record -> Option<bool>) {
    IsTerminal(record) || conflict(record) == Some(false)
  }

  /** Row i is the first that does not pass. */
  predicate StopsAt(records: seq<Record>, conflict: Record -> Option<bool>, i: nat) {
    i < |records| && !Passes(records[i], conflict) && forall j :: 0 <= j < i ==> Passes(records[j], conflict)
  }

  /** The first live row that is not plainly free of conflict decides: it blocks, or its test throws. */
  function ScanRows(records: seq<Record>, conflict: Record -> Option<bool>): (r: Scan)
    ensures r.Clear? <==> Admitted(records, conflict)
    ensures !r.Clear? ==> exists i: nat :: StopsAt(records, conflict, i)
    ensures forall i: nat :: StopsAt(records, conflict, i) ==> r == if conflict(records[i]).None? then Throws else Conflicting
  {
    if records == [] then Clear
    else if Passes(records[0], conflict) then
      var r := ScanRows(records[1..], conflict);
      ScanTail(records, conflict, r);
      r
    else
      assert StopsAt(records, conflict, 0);
      if conflict(records[0]).None? then Throws else Conflicting
  }

  /** A first row that passes leaves the answer to the others. */
  lemma ScanTail(records: seq<Record>, conflict: Record -> Option<bool>, r: Scan)
    requires records != [] && Passes(records[0], conflict)
    requires r.Clear? <==> Admitted(records[1..], conflict)
    requires !r.Clear? ==> exists i: nat :: StopsAt(records[1..], conflict, i)
    requires forall i: nat :: StopsAt(records[1..], conflict, i) ==> r == if conflict(records[1..][i]).None? then Throws else Conflicting
    ensures r.Clear? <==> Admitted(records, conflict)
    ensures !r.Clear? ==> exists i: nat :: StopsAt(records, conflict, i)
    ensures forall i: nat :: StopsAt(records, conflict, i) ==> r == if conflict(records[i]).None? then Throws else Conflicting
  {
    var rest := records[1..];
    assert records == [records[0]] + rest;
    if !r.Clear? {
      var i: nat :| StopsAt(rest, conflict, i);
      assert StopsAt(records, conflict, i + 1);
    }
    forall i: nat | StopsAt(records, conflict, i) ensures r == if conflict(records[i]).None? then Throws else Conflicting {
      assert StopsAt(rest, conflict, i - 1);
    }
  }

  function Reserve(records: seq<Record>, record: Record, conflict: Record -> Option<bool>): ChangeResult {
    var existing := Find(records, record.operationId);
    if existing.Some? then
      if existing.value.attemptId != record.attemptId || existing.value.ownerId != record.ownerId then Blocked
      else Changed(records, existing.value)
    else match ScanRows(records, conflict)
      case Conflicting => Blocked
      case Throws => Unavailable
      case Clear =>
        var next := Compacted(records) + [record];
        if |next| > RECORD_LIMIT then Unavailable else Changed(next, record)
  }

  /** A reservation of a new id went through the scan and is appended to the compacted journal. */
  lemma ReserveAppends(records: seq<Record>, record: Record, conflict: Record -> Option<bool>)
    requires Reserve(records, record, conflict).Changed? && record.operationId !in Ids(records)
    ensures Admitted(records, conflict)
    ensures Reserve(records, record, conflict) == Changed(Compacted(records) + [record], record)
  {}

  /** Position of the record with this id, or |records|. */
  function IndexOf(records: seq<Record>, id: Id): (k: nat)
    ensures k <= |records|
    ensures k < |records| ==> records[k].operationId == id
    ensures forall i :: 0 <= i < k ==> records[i].operationId != id
  {
    if records == [] || records[0].operationId == id then 0 else 1 + IndexOf(records[1..], id)
  }

  function Update(records: seq<Record>, record: Record, expected: nat): ChangeResult {
    var k := IndexOf(records, record.operationId);
    if k == |records| then Blocked
    else
      var previous := records[k];
      if previous.ownerId != record.ownerId || previous.attemptId != record.attemptId
         || previous.revision != expected || record.revision != expected + 1 then Blocked
      else if IsTerminal(previous) && !IsTerminal(record) then Blocked
      else Changed(records[k := record], record)
  }

  // ---------------------------------------------------------------- what the changes keep

  lemma {:induction false} UnsettledMembers(records: seq<Record>, r: Record)
    ensures r in Unsettled(records) <==> r in records && !IsTerminal(r)
  {
    if records != [] {
      UnsettledMembers(records[1..], r);
      assert records == [records[0]] + records[1..];
    }
  }

  lemma {:induction false} SettledMembers(records: seq<Record>, r: Record)
    ensures r in Settled(records) <==> r in records && IsTerminal(r)
  {
    if records != [] {
      SettledMembers(records[1..], r);
      assert records == [records[0]] + records[1..];
    }
  }

  /** Compaction drops no live record and invents none. */
  lemma CompactedMembers(records: seq<Record>, r: Record)
    ensures r in Compacted(records) ==> r in records
    ensures r in records && !IsTerminal(r) ==> r in Compacted(records)
  {
    UnsettledMembers(records, r);
    SettledMembers(records, r);
  }

  /** A reservation keeps every live record as it was and adds exactly the new one. */
  lemma ReserveKeepsLive(records: seq<Record>, record: Record, conflict: Record -> Option<bool>, r: Record)
    requires Reserve(records, record, conflict).Changed?
    ensures var next := Reserve(records, record, conflict).records;
            && (r in records && !IsTerminal(r) ==> r in next)
            && (r in next ==> r in records || r == record)
  {
    CompactedMembers(records, r);
  }

  /** An update replaces one record, one revision later, and never revives a terminal one. */
  lemma UpdateReplacesOne(records: seq<Record>, record: Record, expected: nat, r: Record)
    requires UniqueIds(records) && Update(records, record, expected).Changed?
    ensures var next := Update(records, record, expected).records;
            var previous := records[IndexOf(records, record.operationId)];
            && previous.revision + 1 == record.revision
            && (IsTerminal(previous) ==> IsTerminal(record))
            && (r in next <==> r == record || (r in records && r.operationId != record.operationId))
            && UniqueIds(next)
  {
    var k := IndexOf(records, record.operationId);
    var next := records[k := record];
    if r in records && r.operationId != record.operationId {
      var i :| 0 <= i < |records| && records[i] == r;
      assert next[i] == r;
    }
    if r == record { assert next[k] == r; }
    if r in next && r != record {
      var i :| 0 <= i < |next| && next[i] == r;
      assert i != k && records[i] == r;
    }
  }

  // ---------------------------------------------------------------- which rows stay

  /** Positions, from `lo` on, of the rows whose resource is stopped or not_started. */
  function TerminalsFrom(records: seq<Record>, lo: nat): set<int> {
    set j | lo <= j < |records| && (records[j].resource == Stopped || records[j].resource == NotStarted)
  }

  /** Positions, from `lo` on, of all other rows. */
  function LiveFrom(records: seq<Record>, lo: nat): set<int> {
    set j | lo <= j < |records| && records[j].resource != Stopped && records[j].resource != NotStarted
  }

  /** What a row in front adds to the terminal rows. */
  function AddsTerminal(x: Record): seq<Record> {
    if IsTerminal(x) then [x] else []
  }

  /** And to the live ones. */
  function AddsLive(x: Record): seq<Record> {
    if IsTerminal(x) then [] else [x]
  }

  lemma RowInFront(x: Record, rest: seq<Record>, whole: seq<Record>)
    requires whole == [x] + rest
    ensures Settled(whole) == AddsTerminal(x) + Settled(rest) && Unsettled(whole) == AddsLive(x) + Unsettled(rest)
  {
    assert whole[1..] == rest;
  }

  lemma PositionsStep(records: seq<Record>, lo: nat)
    requires lo < |records|
    ensures |TerminalsFrom(records, lo)| == |TerminalsFrom(records, lo + 1)| + |AddsTerminal(records[lo])|
    ensures |LiveFrom(records, lo)| == |LiveFrom(records, lo + 1)| + |AddsLive(records[lo])|
  {
    if IsTerminal(records[lo]) {
      assert TerminalsFrom(records, lo) == {lo} + TerminalsFrom(records, lo + 1);
      assert LiveFrom(records, lo) == LiveFrom(records, lo + 1);
    } else {
      assert TerminalsFrom(records, lo) == TerminalsFrom(records, lo + 1);
      assert LiveFrom(records, lo) == {lo} + LiveFrom(records, lo + 1);
    }
  }

  lemma RowFrom(records: seq<Record>, lo: nat)
    requires lo < |records|
    ensures |Settled(records[lo..])| == |AddsTerminal(records[lo])| + |Settled(records[lo + 1..])|
    ensures |Unsettled(records[lo..])| == |AddsLive(records[lo])| + |Unsettled(records[lo + 1..])|
  {
    RowInFront(records[lo], records[lo + 1..], records[lo..]);
  }

  lemma {:induction false} SizesFrom(records: seq<Record>, lo: nat)
    requires lo <= |records|
    ensures |Settled(records[lo..])| == |TerminalsFrom(records, lo)|
    ensures |Unsettled(records[lo..])| == |LiveFrom(records, lo)|
    decreases |records| - lo
  {
    if lo < |records| {
      SizesFrom(records, lo + 1);
      PositionsStep(records, lo);
      RowFrom(records, lo);
    }
  }

  /** How many rows a compacted journal has: all live ones and up to sixteen terminal ones. */
  lemma CompactedSize(records: seq<Record>)
    ensures |Compacted(records)| == |LiveFrom(records, 0)| +
              if |TerminalsFrom(records, 0)| <= 16 then |TerminalsFrom(records, 0)| else 16
  {
    SizesFrom(records, 0);
    assert records[0..] == records;
  }

  lemma Regroup(p: seq<Record>, q: seq<Record>, r: seq<Record>)
    ensures p + (q + r) == (p + q) + r
  {}

  lemma {:induction false} SettledAppend(a: seq<Record>, b: seq<Record>)
    ensures Settled(a + b) == Settled(a) + Settled(b)
    ensures Unsettled(a + b) == Unsettled(a) + Unsettled(b)
    decreases |a|, 1
  {
    if a == [] {
      assert a + b == b;
    } else {
      AppendStep(a[0], a[1..], b, a, a[1..] + b, a + b);
    }
  }

  lemma {:induction false} AppendStep(x: Record, rest: seq<Record>, b: seq<Record>, a: seq<Record>, restB: seq<Record>, ab: seq<Record>)
    requires a == [x] + rest && restB == rest + b && ab == [x] + restB
    ensures Settled(ab) == Settled(a) + Settled(b) && Unsettled(ab) == Unsettled(a) + Unsettled(b)
    decreases |a|, 0
  {
    SettledAppend(rest, b);
    RowInFront(x, restB, ab);
    RowInFront(x, rest, a);
    Regroup(AddsTerminal(x), Settled(rest), Settled(b));
    Regroup(AddsLive(x), Unsettled(rest), Unsettled(b));
  }

  /** The terminal rows before row i, that row, and the ones after it. */
  lemma SettledAround(records: seq<Record>, i: nat)
    requires i < |records| && IsTerminal(records[i])
    ensures Settled(records) == Settled(records[..i]) + [records[i]] + Settled(records[i + 1..])
  {
    SettledThrough(records[..i], records[i], records[i + 1..], records);
  }

  lemma SettledThrough(front: seq<Record>, x: Record, after: seq<Record>, all: seq<Record>)
    requires all == front + ([x] + after)
    ensures Settled(all) == Settled(front) + AddsTerminal(x) + Settled(after)
    ensures Unsettled(all) == Unsettled(front) + AddsLive(x) + Unsettled(after)
  {
    var tail := [x] + after;
    RowInFront(x, after, tail);
    SettledAppend(front, tail);
    Regroup(Settled(front), AddsTerminal(x), Settled(after));
    Regroup(Unsettled(front), AddsLive(x), Unsettled(after));
  }

  /** The newest sixteen terminal rows are the ones that stay: row i goes exactly when sixteen or more come after it. */
  lemma NewestStay(records: seq<Record>, i: nat)
    requires UniqueIds(records) && i < |records|
    ensures records[i] in Compacted(records) <==>
              || (records[i].resource != Stopped && records[i].resource != NotStarted)
              || |TerminalsFrom(records, i + 1)| < 16
  {
    UnsettledMembers(records, records[i]);
    if IsTerminal(records[i]) {
      SettledAround(records, i);
      SizesFrom(records, i + 1);
      var before, all := Settled(records[..i]), Settled(records);
      forall k | 0 <= k < |all| && all[k] == records[i] ensures k == |before| {
        TerminalElsewhere(records, i, k);
      }
      assert all[|before|] == records[i];
      var kept := LastOf(all, RETAINED_TERMINAL);
      if |all| > 16 {
        assert forall k :: 0 <= k < 16 ==> kept[k] == all[|all| - 16 + k];
        if |before| >= |all| - 16 { assert kept[|before| - (|all| - 16)] == records[i]; }
      }
    }
  }

  /** Ids are unique, so the row stands nowhere else. */
  lemma StandsOnce(records: seq<Record>, i: nat)
    requires UniqueIds(records) && i < |records|
    ensures records[i] !in records[..i] && records[i] !in records[i + 1..]
  {}

  lemma TerminalElsewhere(records: seq<Record>, i: nat, k: nat)
    requires UniqueIds(records) && i < |records| && IsTerminal(records[i])
    requires k < |Settled(records)| && Settled(records)[k] == records[i]
    ensures k == |Settled(records[..i])|
  {
    SettledAround(records, i);
    StandsOnce(records, i);
    SettledMembers(records[..i], records[i]);
    SettledMembers(records[i + 1..], records[i]);
  }

  /** A terminal row stands in the terminal list at the number of terminal rows before it. */
  lemma PositionsRise(records: seq<Record>, i: nat, j: nat)
    requires i < j < |records| && IsTerminal(records[i]) && IsTerminal(records[j])
    ensures |Settled(records[..i])| < |Settled(records[..j])| < |Settled(records)|
    ensures Settled(records)[|Settled(records[..j])|] == records[j]
  {
    SettledAround(records, j);
    assert records[..j] == records[..i] + records[i..j] && records[i..j] == [records[i]] + records[i + 1..j];
    SettledAppend(records[..i], records[i..j]);
  }

  /** Elements that stay among the last n keep their order. */
  lemma OrderOfLast(all: seq<Record>, n: nat, p: nat, q: nat)
    requires p < q < |all| && all[p] in LastOf(all, n)
    requires forall k :: 0 <= k < |all| && all[k] == all[p] ==> k == p
    ensures InOrder(LastOf(all, n), all[p], all[q])
  {
    var kept := LastOf(all, n);
    var dropped := |all| - |kept|;
    var a :| 0 <= a < |kept| && kept[a] == all[p];
    assert kept[a] == all[dropped + a];
    assert kept[q - dropped] == all[q];
  }

  lemma OrderOfTerminals(records: seq<Record>, i: nat, j: nat)
    requires UniqueIds(records) && i < j < |records| && IsTerminal(records[i]) && IsTerminal(records[j])
    requires records[i] in LastOf(Settled(records), RETAINED_TERMINAL)
    ensures InOrder(LastOf(Settled(records), RETAINED_TERMINAL), records[i], records[j])
  {
    var all := Settled(records);
    var p := |Settled(records[..i])|;
    PositionsRise(records, i, j);
    SettledAround(records, i);
    forall k | 0 <= k < |all| && all[k] == all[p] ensures k == p {
      TerminalElsewhere(records, i, k);
    }
    OrderOfLast(all, RETAINED_TERMINAL, p, |Settled(records[..j])|);
  }

  lemma OrderOfLive(records: seq<Record>, i: nat, j: nat)
    requires i < j < |records| && !IsTerminal(records[i]) && !IsTerminal(records[j])
    ensures InOrder(Unsettled(records), records[i], records[j])
  {
    var front := Unsettled(records[..j]);
    SettledThrough(records[..j], records[j], records[j + 1..], records);
    UnsettledMembers(records[..j], records[i]);
    assert records[..j][i] == records[i];
    var a :| 0 <= a < |front| && front[a] == records[i];
    assert Unsettled(records)[a] == records[i] && Unsettled(records)[|front|] == records[j];
  }

  /** `x` stands before `y`. */
  predicate InOrder(rows: seq<Record>, x: Record, y: Record) {
    exists a, b :: 0 <= a < b < |rows| && rows[a] == x && rows[b] == y
  }

  lemma OrderInWhole(front: seq<Record>, back: seq<Record>, x: Record, y: Record)
    requires InOrder(front, x, y) || InOrder(back, x, y) || (x in front && y in back)
    ensures InOrder(front + back, x, y)
  {
    if InOrder(front, x, y) {
      var a, b :| 0 <= a < b < |front| && front[a] == x && front[b] == y;
      assert (front + back)[a] == x && (front + back)[b] == y;
    } else if InOrder(back, x, y) {
      var a, b :| 0 <= a < b < |back| && back[a] == x && back[b] == y;
      assert (front + back)[|front| + a] == x && (front + back)[|front| + b] == y;
    } else {
      var a :| 0 <= a < |front| && front[a] == x;
      var b :| 0 <= b < |back| && back[b] == y;
      assert (front + back)[a] == x && (front + back)[|front| + b] == y;
    }
  }

  /** Rows that stay keep their order among the live and among the terminal ones, and every live row stands before every terminal one. */
  lemma OrderStays(records: seq<Record>, i: nat, j: nat)
    requires UniqueIds(records) && i < |records| && j < |records|
    requires records[i] in Compacted(records) && records[j] in Compacted(records)
    requires if IsTerminal(records[i]) == IsTerminal(records[j]) then i < j else IsTerminal(records[j])
    ensures InOrder(Compacted(records), records[i], records[j])
  {
    UnsettledMembers(records, records[i]);
    UnsettledMembers(records, records[j]);
    if IsTerminal(records[i]) {
      OrderOfTerminals(records, i, j);
    } else if !IsTerminal(records[j]) {
      OrderOfLive(records, i, j);
    }
    OrderInWhole(Unsettled(records), LastOf(Settled(records), RETAINED_TERMINAL), records[i], records[j]);
  }

  // ---------------------------------------------------------------- which changes succeed

  /** A reservation of a known id answers with its own row, or is blocked when attempt or owner differ. */
  lemma ReserveKnown(records: seq<Record>, record: Record, conflict: Record -> Option<bool>, i: nat)
    requires UniqueIds(records) && i < |records| && records[i].operationId == record.operationId
    ensures Reserve(records, record, conflict) ==
              if records[i].attemptId == record.attemptId && records[i].ownerId == record.ownerId
              then Changed(records, records[i]) else Blocked
  {
    FindUnique(records, i);
  }

  /**
   * The whole answer for a new id. It is appended exactly when no live row conflicts and, beside the live
   * rows and the sixteen newest terminal ones, it is at most the 128th row; it is blocked exactly by
   * the first live row in conflict; otherwise the journal is unavailable to it.
   */
  lemma ReserveDecides(records: seq<Record>, record: Record, conflict: Record -> Option<bool>)
    requires record.operationId !in Ids(records)
    ensures Reserve(records, record, conflict).Changed? <==> Free(records, conflict) && HasRoom(records)
    ensures Reserve(records, record, conflict).Changed? ==>
              Reserve(records, record, conflict) == Changed(Compacted(records) + [record], record)
    ensures Reserve(records, record, conflict).Blocked? <==> exists i: nat :: FirstConflict(records, conflict, i)
  {
    CompactedSize(records);
    ScanDecides(records, conflict);
  }

  lemma ScanDecides(records: seq<Record>, conflict: Record -> Option<bool>)
    ensures ScanRows(records, conflict).Clear? <==> Free(records, conflict)
    ensures ScanRows(records, conflict).Conflicting? <==> exists i: nat :: FirstConflict(records, conflict, i)
  {
    var scan := ScanRows(records, conflict);
    if scan.Conflicting? {
      var i: nat :| StopsAt(records, conflict, i);
      assert conflict(records[i]).Some? && conflict(records[i]).value;
      assert Free(records[..i], conflict) by {
        forall j | 0 <= j < i ensures Passes(records[..i][j], conflict) { assert Passes(records[j], conflict); }
      }
      assert FirstConflict(records, conflict, i);
    }
    forall i: nat | FirstConflict(records, conflict, i) ensures scan == Conflicting {
      forall j | 0 <= j < i ensures Passes(records[j], conflict) { assert records[..i][j] == records[j]; }
      assert StopsAt(records, conflict, i);
    }
  }

  /** Every live row was found free of conflict. */
  predicate Free(records: seq<Record>, conflict: Record -> Option<bool>) {
    forall i :: 0 <= i < |records| && records[i].resource != Stopped && records[i].resource != NotStarted ==>
      conflict(records[i]) == Some(false)
  }

  predicate HasRoom(records: seq<Record>) {
    |LiveFrom(records, 0)| + (if |TerminalsFrom(records, 0)| <= 16 then |TerminalsFrom(records, 0)| else 16) < 128
  }

  /** Row i is live and in conflict, and every live row before it is free of conflict. */
  predicate FirstConflict(records: seq<Record>, conflict: Record -> Option<bool>, i: nat) {
    && i < |records| && records[i].resource != Stopped && records[i].resource != NotStarted
    && conflict(records[i]) == Some(true)
    && Free(records[..i], conflict)
  }

  /** The row an update may replace: the same attempt of the same owner at the expected revision, and not one the update would revive. */
  predicate Replaces(record: Record, expected: nat, previous: Record) {
    && previous.operationId == record.operationId && previous.attemptId == record.attemptId && previous.ownerId == record.ownerId
    && previous.revision == expected && record.revision == expected + 1
    && (previous.resource == Stopped || previous.resource == NotStarted ==>
          record.resource == Stopped || record.resource == NotStarted)
  }

  /** An update succeeds exactly when such a row stands in the journal, and is blocked otherwise. */
  lemma UpdateDecides(records: seq<Record>, record: Record, expected: nat)
    requires UniqueIds(records)
    ensures Update(records, record, expected).Changed? <==> exists previous :: previous in records && Replaces(record, expected, previous)
    ensures Update(records, record, expected).Changed? || Update(records, record, expected).Blocked?
    ensures Update(records, record, expected).Changed? ==> Update(records, record, expected).result == record
  {
    var k := IndexOf(records, record.operationId);
    if k < |records| && Replaces(record, expected, records[k]) {
      assert records[k] in records;
    }
    forall previous | previous in records && Replaces(record, expected, previous) ensures k < |records| && previous == records[k] {
      var i :| 0 <= i < |records| && records[i] == previous;
    }
  }

  // ---------------------------------------------------------------- the retry loop

  datatype ReadReply =
    | ReadFailed
    | NoJournal
    | Journal(resourceVersion: nat, stored: seq<Record>)

  /** Reply to the replace or create: committed, a version conflict, or anything else. */
  datatype WriteReply = Committed | Conflict | Unresolved

  datatype Round = Round(read: ReadReply, write: WriteReply)

  datatype MutateResult = Done(result: Record) | Refused | NotPersisted

  const RETRIES := 5

  function ReadRecords(read: ReadReply): seq<Record>
    requires !read.ReadFailed?
  {
    if read.Journal? then read.stored else []
  }

  ghost predicate Readable(read: ReadReply) {
    read.NoJournal? || (read.Journal? && ValidRecords(read.stored))
  }

  /** A round reaches the API server with a write only if its read, change and validation all succeed. */
  ghost predicate Writes(change: seq<Record> -> ChangeResult, round: Round) {
    && Readable(round.read)
    && change(ReadRecords(round.read)).Changed?
    && ValidRecords(change(ReadRecords(round.read)).records)
  }

  /** The round's write lost the race for its version: the only reply mutate retries. */
  ghost predicate Collides(change: seq<Record> -> ChangeResult, round: Round) {
    Writes(change, round) && round.write == Conflict
  }

  /**
   * What the round that ends mutate says: done exactly when its write was acknowledged, with the cache
   * holding what was written; refused exactly when the change was blocked; and no trust in the cache
   * after a write of unknown fate.
   */
  ghost predicate Answers(
    change: seq<Record> -> ChangeResult, round: Round, r: MutateResult, cached: seq<Record>, available: bool)
  {
    && (r.Done? <==> Writes(change, round) && round.write == Committed)
    && (r.Done? ==> var c := change(ReadRecords(round.read));
                    r.result == c.result && cached == c.records && available && ValidRecords(cached))
    && (r.Refused? <==> Readable(round.read) && change(ReadRecords(round.read)).Blocked?)
    && (Writes(change, round) && round.write == Unresolved ==> !available)
  }

  /** mutate with the replies of its five rounds given; the local cache follows the source. */
  class JournalClient {
    var cached: seq<Record>
    var available: bool

    constructor ()
      ensures cached == [] && !available
    {
      cached, available := [], false;
    }

    method ReadSnapshot(read: ReadReply) returns (ok: bool)
      modifies this
      ensures ok <==> Readable(read)
      ensures available == ok
      ensures cached == if ok then ReadRecords(read) else old(cached)
    {
      ok := read.NoJournal?;
      if read.Journal? { ok := ValidateOwnershipRecords(read.stored); }
      available := ok;
      if ok { cached := ReadRecords(read); }
    }

    /** One pass of mutate's loop; None asks for another. */
    method Attempt(change: seq<Record> -> ChangeResult, round: Round) returns (r: Option<MutateResult>)
      modifies this
      ensures r.None? <==> Collides(change, round)
      ensures r.Some? ==> Answers(change, round, r.value, cached, available)
    {
      var ok := ReadSnapshot(round.read);
      if !ok { return Some(NotPersisted); }
      var next := change(ReadRecords(round.read));
      if next.Blocked? { return Some(Refused); }
      if next.Unavailable? { return Some(NotPersisted); }
      ok := ValidateOwnershipRecords(next.records);
      if !ok { return Some(NotPersisted); }
      match round.write {
        case Committed =>
          cached, available := next.records, true;
          r := Some(Done(next.result));
        case Unresolved =>
          available := false;
          r := Some(NotPersisted);
        case Conflict =>
          r := None;
      }
    }

    /**
     * The first round that does not lose its race decides, and only a lost race is followed by another
     * round: success means that this round's write was acknowledged and wrote the change of what it had
     * read. Five lost races leave nothing persisted.
     */
    method Mutate(change: seq<Record> -> ChangeResult, rounds: seq<Round>) returns (r: MutateResult)
      requires |rounds| == 5
      modifies this
      ensures forall k :: 0 <= k < 5 && Decides(change, rounds, k) ==> Answers(change, rounds[k], r, cached, available)
      ensures (forall k :: 0 <= k < 5 ==> Collides(change, rounds[k])) ==> r == NotPersisted
    {
      for n := 0 to RETRIES
        invariant forall i :: 0 <= i < n ==> Collides(change, rounds[i])
      {
        var attempt := Attempt(change, rounds[n]);
        if attempt.Some? {
          DecidesOnce(change, rounds, n);
          return attempt.value;
        }
      }
      r := NotPersisted;
    }
  }

  /** Round k is the first that does not collide. */
  ghost predicate Decides(change: seq<Record> -> ChangeResult, rounds: seq<Round>, k: nat)
    requires k < |rounds|
  {
    !Collides(change, rounds[k]) && forall i :: 0 <= i < k ==> Collides(change, rounds[i])
  }

  lemma DecidesOnce(change: seq<Record> -> ChangeResult, rounds: seq<Round>, n: nat)
    requires n < |rounds| && Decides(change, rounds, n)
    ensures forall k :: 0 <= k < |rounds| && Decides(change, rounds, k) ==> k == n
  {}
}
