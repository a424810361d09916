/** Ownership records, writable-scope arithmetic and journal validation (ownershipState.ts). */
module OwnershipState {
  import opened Text

  type Id = string

  datatype Resource =
    | Reserved | Running | StopRequested | Unknown | Stopped | NotStarted | BackgroundOwned
  datatype Outcome = Pending | Success | Failed | Cancelled | TimedOut
  datatype Kind = Invocation | Provision | Ensure | Warmup | Receiver

  datatype WritableScope = WritableScope(
    storageId: Id, mountSubPath: string, sandboxName: Id, workspaceId: Id, sessionId: Id, sandboxScopeId: Id)

  datatype Fence = Fence(operationId: Id, attemptId: Id, ownerId: Id, sandboxUid: Id, podUid: Id, startBefore: nat)

  datatype Record = Record(
    operationId: Id, attemptId: Id, invocationId: Id, ownerId: Id,
    revision: nat, kind: Kind, scope: WritableScope,
    resource: Resource, outcome: Outcome, updatedAt: int,
    sandboxUid: Option<Id>, dispatchedAt: Option<int>, remoteFence: Option<Fence>, parent: Option<Id>)

  const RECORD_LIMIT := 128

  predicate IsTerminal(r: Record) {
    r.resource == Stopped || r.resource == NotStarted
  }

  /** dispatchedAt when present; rows from before that field fall back to updatedAt. */
  function ObservationFloor(r: Record): int {
    if r.dispatchedAt.Some? then r.dispatchedAt.value else r.updatedAt
  }

  // ---------------------------------------------------------------- paths

  predicate IsControl(c: char) {
    c <= '\U{1f}' || c == '\U{7f}'
  }

  predicate HasControl(s: string) {
    exists i :: 0 <= i < |s| && IsControl(s[i])
  }

  /** The segments that survive normalization: empty ones and "." are dropped. */
  function Segments(parts: seq<string>): (r: seq<string>)
    ensures forall i :: 0 <= i < |r| ==> r[i] in parts && r[i] != "" && r[i] != "."
  {
    if parts == [] then []
    else (if parts[0] != "" && parts[0] != "." then [parts[0]] else []) + Segments(parts[1..])
  }

  /** None stands for the thrown "Invalid writable scope". */
  function NormalizeWritablePath(value: string): Option<string> {
    if value == "" || value[0] == '/' || '\\' in value || HasControl(value) then None
    else
      var parts := Split(value, '/');
      if ".." in parts then None
      else
        var normalized := Join(Segments(parts), '/');
        if normalized == "" then None else Some(normalized)
  }

  /** None when either path is invalid, which the source reports by throwing. */
  function ScopesOverlap(left: WritableScope, right: WritableScope): Option<bool> {
    if left.storageId != right.storageId then Some(false)
    else
      var a := NormalizeWritablePath(left.mountSubPath);
      var b := NormalizeWritablePath(right.mountSubPath);
      if a.None? || b.None? then None
      else Some(a.value == b.value || b.value + "/" <= a.value || a.value + "/" <= b.value)
  }

  function AdmissionScopeConflicts(r: Record, scope: WritableScope): Option<bool> {
    var overlap := ScopesOverlap(r.scope, scope);
    if overlap != Some(true) then overlap
    else Some(r.kind == Receiver || r.scope.sandboxName == scope.sandboxName)
  }

  /** The meaning of a path: its surviving segments. */
  function PathSegments(value: string): seq<string> {
    Segments(Split(value, '/'))
  }

  predicate Clean(segments: seq<string>) {
    forall i :: 0 <= i < |segments| ==>
      segments[i] != "" && segments[i] != "." && segments[i] != ".." && '/' !in segments[i]
  }

  lemma {:induction false} SegmentsOfClean(segments: seq<string>)
    requires Clean(segments)
    ensures Segments(segments) == segments
  {
    if segments != [] {
      SegmentsOfClean(segments[1..]);
      assert segments == [segments[0]] + segments[1..];
    }
  }

  lemma {:induction false} JoinNonEmpty(segments: seq<string>)
    requires Clean(segments) && |segments| > 0
    ensures Join(segments, '/') != "" && Join(segments, '/')[0] == segments[0][0]
  {}

  /** Normalization keeps the segments and produces their join. */
  lemma NormalizedSegments(value: string)
    requires NormalizeWritablePath(value).Some?
    ensures var n := NormalizeWritablePath(value).value;
            && Clean(PathSegments(value)) && |PathSegments(value)| > 0
            && n == Join(PathSegments(value), '/')
            && Split(n, '/') == PathSegments(value)
            && PathSegments(n) == PathSegments(value)
  {
    var segments := PathSegments(value);
    assert Clean(segments);
    SplitJoin(segments, '/');
    SegmentsOfClean(segments);
  }

  /** A segment list with nothing but empty segments and dots leaves nothing. */
  lemma {:induction false} NothingSurvives(parts: seq<string>)
    ensures Segments(parts) == [] <==> forall i :: 0 <= i < |parts| ==> parts[i] == "" || parts[i] == "."
  {
    if parts != [] {
      NothingSurvives(parts[1..]);
      assert parts == [parts[0]] + parts[1..];
    }
  }

  /** The surviving segments are those that are neither empty nor a dot. */
  lemma {:induction false} SurvivingSegments(parts: seq<string>, x: string)
    ensures x in Segments(parts) <==> x in parts && x != "" && x != "."
  {
    if parts != [] {
      SurvivingSegments(parts[1..], x);
      assert parts == [parts[0]] + parts[1..];
    }
  }

  /** A path that no writable scope may name. */
  predicate Forbidden(value: string) {
    || (value != "" && value[0] == '/')
    || (exists i :: 0 <= i < |value| && (value[i] == '\\' || value[i] as int <= 31 || value[i] as int == 127))
    || (exists i :: 0 <= i < |Split(value, '/')| && Split(value, '/')[i] == "..")
    || (forall i :: 0 <= i < |Split(value, '/')| ==> Split(value, '/')[i] == "" || Split(value, '/')[i] == ".")
  }

  /** Exactly the absolute paths, those with a backslash, a control character or "..", and those without a segment are rejected. */
  lemma RejectedPaths(value: string)
    ensures NormalizeWritablePath(value).None? <==> Forbidden(value)
  {
    var parts := Split(value, '/');
    NothingSurvives(parts);
    if '\\' in value {
      var i :| 0 <= i < |value| && value[i] == '\\';
    }
    if HasControl(value) {
      var i :| 0 <= i < |value| && IsControl(value[i]);
      assert value[i] as int <= 31 || value[i] as int == 127;
    }
    if Segments(parts) != [] && ".." !in parts { JoinNonEmpty(Segments(parts)); }
  }

  /** Normalizing twice is normalizing once. */
  lemma NormalizeIdempotent(value: string)
    requires NormalizeWritablePath(value).Some?
    ensures NormalizeWritablePath(NormalizeWritablePath(value).value) == NormalizeWritablePath(value)
  {
    var n := NormalizeWritablePath(value).value;
    var segments := PathSegments(value);
    NormalizedSegments(value);
    JoinNonEmpty(segments);
    forall c | c in n ensures c == '/' || c in value {
      NormalizedCharacters(value, c);
    }
    assert ".." !in Split(n, '/');
    forall i | 0 <= i < |n| ensures !IsControl(n[i]) {
      assert n[i] in n;
    }
  }

  lemma NormalizedCharacters(value: string, c: char)
    requires c in Join(PathSegments(value), '/')
    ensures c == '/' || c in value
  {
    var segments := PathSegments(value);
    JoinCharacters(segments, '/', c);
    if c != '/' {
      var i :| 0 <= i < |segments| && c in segments[i];
      var k :| 0 <= k < |Split(value, '/')| && Split(value, '/')[k] == segments[i];
      SplitCharacters(value, '/', k, c);
    }
  }

  /** On clean segment lists the string test `b + "/" is a prefix of a` is strict list prefix. */
  lemma {:induction false} PrefixOfJoin(a: seq<string>, b: seq<string>)
    requires Clean(a) && Clean(b) && |a| > 0 && |b| > 0
    ensures Join(b, '/') + "/" <= Join(a, '/') <==> b < a
  {
    var sa, sb := Join(a, '/'), Join(b, '/');
    if b < a {
      assert a == b + a[|b|..];
      JoinAppend(b, a[|b|..], '/');
      assert sb + "/" + Join(a[|b|..], '/') == sa;
    }
    if sb + "/" <= sa {
      var rest := sa[|sb| + 1..];
      assert sa == sb + ['/'] + rest;
      SplitJoin(a, '/');
      SplitPrefix(b, rest);
      assert a == b + Split(rest, '/');
    }
  }

  /** One more separator-free segment in front. */
  lemma SplitPrepend(head: string, joined: string, others: seq<string>, rest: string)
    requires '/' !in head && Split(joined + ['/'] + rest, '/') == others + Split(rest, '/')
    ensures Split(head + ['/'] + joined + ['/'] + rest, '/') == [head] + others + Split(rest, '/')
  {
    var tail := joined + ['/'] + rest;
    SplitHead(head, tail, '/');
    assert head + ['/'] + joined + ['/'] + rest == head + ['/'] + tail;
  }

  lemma {:induction false} SplitPrefix(b: seq<string>, rest: string)
    requires |b| > 0 && Unsplit(b, '/')
    ensures Split(Join(b, '/') + ['/'] + rest, '/') == b + Split(rest, '/')
  {
    if |b| == 1 {
      SplitHead(b[0], rest, '/');
    } else {
      SplitPrefix(b[1..], rest);
      SplitPrepend(b[0], Join(b[1..], '/'), b[1..], rest);
      assert [b[0]] + b[1..] == b;
    }
  }

  lemma JoinInjective(a: seq<string>, b: seq<string>)
    requires Clean(a) && Clean(b) && |a| > 0 && |b| > 0
    ensures Join(a, '/') == Join(b, '/') <==> a == b
  {
    SplitJoin(a, '/');
    SplitJoin(b, '/');
  }

  /** `path` lies at or below `root`, segment by segment. */
  predicate LiesUnder(path: seq<string>, root: seq<string>) {
    root <= path
  }

  /**
   * With one storage id, the string test of ScopesOverlap holds exactly when some segment path lies
   * under both scopes; in particular it does not depend on the order of its arguments.
   */
  lemma OverlapIsSharedPath(left: WritableScope, right: WritableScope)
    requires left.storageId == right.storageId
    requires NormalizeWritablePath(left.mountSubPath).Some? && NormalizeWritablePath(right.mountSubPath).Some?
    ensures ScopesOverlap(left, right) == ScopesOverlap(right, left)
    ensures ScopesOverlap(left, right) == Some(true) <==>
            exists p :: LiesUnder(p, PathSegments(left.mountSubPath)) && LiesUnder(p, PathSegments(right.mountSubPath))
  {
    var a, b := PathSegments(left.mountSubPath), PathSegments(right.mountSubPath);
    NormalizedSegments(left.mountSubPath);
    NormalizedSegments(right.mountSubPath);
    PrefixOfJoin(a, b);
    PrefixOfJoin(b, a);
    JoinInjective(a, b);
    if a <= b {
      assert LiesUnder(b, a) && LiesUnder(b, b);
    } else if b <= a {
      assert LiesUnder(a, a) && LiesUnder(a, b);
    }
    forall p | LiesUnder(p, a) && LiesUnder(p, b) ensures a <= b || b <= a {
      CommonPathNests(p, a, b);
    }
  }

  lemma CommonPathNests(p: seq<string>, a: seq<string>, b: seq<string>)
    requires LiesUnder(p, a) && LiesUnder(p, b)
    ensures a <= b || b <= a
  {
    assert a == p[..|a|] && b == p[..|b|];
  }

  /** One of the two paths lies at or below the other, segment by segment. */
  predicate Nested(a: string, b: string) {
    PathSegments(a) <= PathSegments(b) || PathSegments(b) <= PathSegments(a)
  }

  /** The whole answer of the overlap test: other storage never overlaps, and only a forbidden path on the same storage throws. */
  lemma OverlapDecides(left: WritableScope, right: WritableScope)
    ensures ScopesOverlap(left, right) ==
            if left.storageId != right.storageId then Some(false)
            else if Forbidden(left.mountSubPath) || Forbidden(right.mountSubPath) then None
            else Some(Nested(left.mountSubPath, right.mountSubPath))
  {
    RejectedPaths(left.mountSubPath);
    RejectedPaths(right.mountSubPath);
    if left.storageId == right.storageId && !Forbidden(left.mountSubPath) && !Forbidden(right.mountSubPath) {
      OverlapIsSharedPath(left, right);
      var a, b := PathSegments(left.mountSubPath), PathSegments(right.mountSubPath);
      if Nested(left.mountSubPath, right.mountSubPath) {
        assert LiesUnder(a, a) && LiesUnder(b, b);
        var p := if a <= b then b else a;
        assert LiesUnder(p, a) && LiesUnder(p, b);
      }
      forall p | LiesUnder(p, a) && LiesUnder(p, b) ensures a <= b || b <= a { CommonPathNests(p, a, b); }
    }
  }

  /** The record lays claim to the scope: one storage, nested paths, and the same sandbox unless it is a receiver handoff. */
  predicate Claims(r: Record, scope: WritableScope) {
    && r.scope.storageId == scope.storageId && Nested(r.scope.mountSubPath, scope.mountSubPath)
    && (r.kind == Receiver || r.scope.sandboxName == scope.sandboxName)
  }

  /** For paths that are allowed, admission sees a conflict exactly where the record lays claim to the scope. */
  lemma ConflictIsClaim(r: Record, scope: WritableScope)
    ensures AdmissionScopeConflicts(r, scope).None? <==>
              r.scope.storageId == scope.storageId && (Forbidden(r.scope.mountSubPath) || Forbidden(scope.mountSubPath))
    ensures AdmissionScopeConflicts(r, scope).Some? ==> AdmissionScopeConflicts(r, scope) == Some(Claims(r, scope))
  {
    OverlapDecides(r.scope, scope);
  }

  // ---------------------------------------------------------------- journal validation

  predicate ValidIdentifier(s: string, maximum: nat) {
    0 < |s| <= maximum && !HasControl(s)
  }

  predicate ValidFence(f: Fence) {
    && ValidIdentifier(f.operationId, 512) && ValidIdentifier(f.attemptId, 512) && ValidIdentifier(f.ownerId, 512)
    && ValidIdentifier(f.sandboxUid, 512) && ValidIdentifier(f.podUid, 512) && f.startBefore > 0
  }

  /** The per-record checks of validateOwnershipRecords. */
  predicate WellFormed(r: Record) {
    && ValidIdentifier(r.operationId, 512) && ValidIdentifier(r.attemptId, 512)
    && ValidIdentifier(r.invocationId, 512) && ValidIdentifier(r.ownerId, 512)
    && ValidIdentifier(r.scope.storageId, 1024) && ValidIdentifier(r.scope.mountSubPath, 1024)
    && ValidIdentifier(r.scope.sandboxName, 1024) && ValidIdentifier(r.scope.workspaceId, 1024)
    && ValidIdentifier(r.scope.sessionId, 1024) && ValidIdentifier(r.scope.sandboxScopeId, 1024)
    && NormalizeWritablePath(r.scope.mountSubPath).Some?
    && (r.sandboxUid.Some? ==> ValidIdentifier(r.sandboxUid.value, 128))
    && (r.parent.Some? ==> ValidIdentifier(r.parent.value, 512) && r.parent.value != r.operationId)
    && (r.remoteFence.Some? ==>
          var f := r.remoteFence.value;
          && ValidFence(f) && f.operationId == r.operationId && f.attemptId == r.attemptId
          && f.ownerId == r.ownerId && r.sandboxUid == Some(f.sandboxUid))
  }

  predicate WellFormedAt(records: seq<Record>, i: nat)
    requires i < |records|
  {
    WellFormed(records[i])
  }

  predicate AllWellFormed(records: seq<Record>) {
    forall i :: 0 <= i < |records| ==> WellFormedAt(records, i)
  }

  predicate UniqueIds(records: seq<Record>) {
    forall i, j :: 0 <= i < j < |records| ==> records[i].operationId != records[j].operationId
  }

  function Ids(records: seq<Record>): (ids: set<Id>)
    ensures forall i :: 0 <= i < |records| ==> records[i].operationId in ids
  {
    set i | 0 <= i < |records| :: records[i].operationId
  }

  /** The record with this id, if any. */
  function Find(records: seq<Record>, id: Id): (r: Option<Record>)
    ensures r.Some? ==> r.value in records && r.value.operationId == id
    ensures r.None? <==> id !in Ids(records)
  {
    if records == [] then None
    else if records[0].operationId == id then Some(records[0])
    else
      var rest := Find(records[1..], id);
      assert Ids(records) == {records[0].operationId} + Ids(records[1..]) by {
        forall i | 0 <= i < |records| ensures records[i].operationId in {records[0].operationId} + Ids(records[1..]) {
          if i > 0 { assert records[i] == records[1..][i - 1]; }
        }
        forall i | 0 <= i < |records| - 1 ensures records[1..][i].operationId in Ids(records) {
          assert records[1..][i] == records[i + 1];
        }
      }
      rest
  }

  lemma {:induction false} FindUnique(records: seq<Record>, i: nat)
    requires UniqueIds(records) && i < |records|
    ensures Find(records, records[i].operationId) == Some(records[i])
  {
    if i > 0 {
      assert records[0].operationId != records[i].operationId;
      FindUnique(records[1..], i - 1);
    }
  }

  /** A parent link starting at `id`, if that record is present and names a parent. */
  function ParentLink(records: seq<Record>, id: Id): Option<Id> {
    var r := Find(records, id);
    if r.None? then None else r.value.parent
  }

  /** Each element is the parent recorded for the one before it. */
  ghost predicate IsAncestry(records: seq<Record>, path: seq<Id>) {
    |path| > 0 && forall i :: 0 <= i < |path| - 1 ==> LinkAt(records, path, i)
  }

  predicate LinkAt(records: seq<Record>, path: seq<Id>, i: nat)
    requires i + 1 < |path|
  {
    ParentLink(records, path[i]) == Some(path[i + 1])
  }

  /** No record is its own ancestor. */
  ghost predicate Acyclic(records: seq<Record>) {
    forall path :: IsAncestry(records, path) && |path| > 1 ==> path[0] != path[|path| - 1]
  }

  /** A parent that is present belongs to the same owner generation. */
  predicate SameOwnerParents(records: seq<Record>) {
    forall i :: 0 <= i < |records| ==> SameOwnerParent(records, i)
  }

  predicate SameOwnerParent(records: seq<Record>, i: nat)
    requires i < |records|
  {
    records[i].parent.Some? ==>
      var p := Find(records, records[i].parent.value);
      p.Some? ==> p.value.ownerId == records[i].ownerId
  }

  /** What an accepted journal looks like. */
  ghost predicate ValidRecords(records: seq<Record>) {
    && |records| <= RECORD_LIMIT
    && AllWellFormed(records)
    && UniqueIds(records)
    && SameOwnerParents(records)
    && Acyclic(records)
  }

  lemma PrefixIsAncestry(records: seq<Record>, path: seq<Id>, n: nat)
    requires IsAncestry(records, path) && 0 < n <= |path|
    ensures IsAncestry(records, path[..n])
  {
    forall i | 0 <= i < n - 1 ensures LinkAt(records, path[..n], i) { assert LinkAt(records, path, i); }
  }

  lemma SuffixIsAncestry(records: seq<Record>, path: seq<Id>, k: nat)
    requires IsAncestry(records, path) && k < |path|
    ensures IsAncestry(records, path[k..])
  {
    forall i | 0 <= i < |path| - k - 1 ensures LinkAt(records, path[k..], i) { assert LinkAt(records, path, k + i); }
  }

  lemma ExtendAncestry(records: seq<Record>, path: seq<Id>, id: Id)
    requires IsAncestry(records, path) && ParentLink(records, path[|path| - 1]) == Some(id)
    ensures IsAncestry(records, path + [id])
  {
    forall i | 0 <= i < |path| ensures LinkAt(records, path + [id], i) {
      if i < |path| - 1 { assert LinkAt(records, path, i); }
    }
  }

  lemma {:induction false} AncestryIsUnique(records: seq<Record>, p: seq<Id>, q: seq<Id>)
    requires IsAncestry(records, p) && IsAncestry(records, q) && p[0] == q[0] && |p| <= |q|
    ensures p == q[..|p|]
  {
    if |p| > 1 {
      var n := |p| - 1;
      PrefixIsAncestry(records, p, n);
      AncestryIsUnique(records, p[..n], q);
      assert LinkAt(records, p, n - 1) && LinkAt(records, q, n - 1);
      assert p[n - 1] == p[..n][n - 1] == q[n - 1];
      assert p == p[..n] + [p[n]];
    }
  }

  /** A finished walk: a repetition-free ancestry whose last element has no recorded parent. */
  ghost predicate FinishedWalk(records: seq<Record>, path: seq<Id>) {
    && IsAncestry(records, path)
    && (forall i, j :: 0 <= i < j < |path| ==> path[i] != path[j])
    && ParentLink(records, path[|path| - 1]) == None
  }

  lemma AncestryContinues(records: seq<Record>, path: seq<Id>, k: nat)
    requires IsAncestry(records, path) && k < |path| - 1
    ensures ParentLink(records, path[k]).Some?
  {
    assert LinkAt(records, path, k);
  }

  lemma FinishedWalkExcludesCycles(records: seq<Record>, walk: seq<Id>, cycle: seq<Id>)
    requires FinishedWalk(records, walk) && IsAncestry(records, cycle) && |cycle| > 1 && cycle[0] == walk[0]
    ensures cycle[0] != cycle[|cycle| - 1]
  {
    if |cycle| <= |walk| {
      AncestryIsUnique(records, cycle, walk);
    } else {
      AncestryContinues(records, cycle, |walk| - 1);
      AncestryIsUnique(records, walk, cycle);
      assert false;
    }
  }

  lemma RepeatIsCycle(records: seq<Record>, path: seq<Id>, id: Id)
    requires IsAncestry(records, path + [id]) && id in path
    ensures !Acyclic(records)
  {
    var k :| 0 <= k < |path| && path[k] == id;
    var cycle := (path + [id])[k..];
    SuffixIsAncestry(records, path + [id], k);
    assert cycle[0] == cycle[|cycle| - 1];
  }

  lemma ForeignParent(records: seq<Record>, child: Id, ownerId: Id)
    requires Find(records, child).Some? && Find(records, child).value.ownerId == ownerId
    requires ParentLink(records, child).Some?
    requires var p := Find(records, ParentLink(records, child).value); p.Some? && p.value.ownerId != ownerId
    ensures !SameOwnerParents(records)
  {
    var c :| 0 <= c < |records| && records[c] == Find(records, child).value;
    assert !SameOwnerParent(records, c);
  }

  /** Walks one record's parents as the source does; refuses a repeated id or a foreign owner. */
  method WalkAncestors(records: seq<Record>, record: Record) returns (ok: bool, ghost path: seq<Id>)
    requires UniqueIds(records) && record in records
    ensures ok ==> FinishedWalk(records, path) && path[0] == record.operationId
    ensures ok ==> forall i :: 0 <= i < |path| && Find(records, path[i]).Some? ==>
                     Find(records, path[i]).value.ownerId == record.ownerId
    ensures !ok ==> !(Acyclic(records) && SameOwnerParents(records))
  {
    var ancestors := {record.operationId};
    path := [record.operationId];
    var parent := record.parent;
    ghost var index :| 0 <= index < |records| && records[index] == record;
    FindUnique(records, index);
    while parent.Some?
      invariant IsAncestry(records, path) && path[0] == record.operationId
      invariant forall i, j :: 0 <= i < j < |path| ==> path[i] != path[j]
      invariant forall x :: x in ancestors <==> x in path
      invariant ParentLink(records, path[|path| - 1]) == parent
      invariant forall i :: 0 <= i < |path| && Find(records, path[i]).Some? ==>
                  Find(records, path[i]).value.ownerId == record.ownerId
      decreases Ids(records) - ancestors, parent.Some?
    {
      var id := parent.value;
      ghost var extended := path + [id];
      ExtendAncestry(records, path, id);
      if id in ancestors {
        RepeatIsCycle(records, path, id);
        return false, path;
      }
      var item := Find(records, id);
      if item.Some? && item.value.ownerId != record.ownerId {
        ForeignParent(records, path[|path| - 1], record.ownerId);
        return false, path;
      }
      ancestors := ancestors + {id};
      path := extended;
      parent := if item.Some? then item.value.parent else None;
    }
    ok := true;
  }

  /** First half of validateOwnershipRecords: field checks and duplicate ids. */
  method ValidateRows(records: seq<Record>) returns (ok: bool)
    ensures ok <==> AllWellFormed(records) && UniqueIds(records)
  {
    var ids: set<Id> := {};
    for n := 0 to |records|
      invariant forall i :: 0 <= i < n ==> WellFormedAt(records, i)
      invariant forall i, j :: 0 <= i < j < n ==> records[i].operationId != records[j].operationId
      invariant ids == set i | 0 <= i < n :: records[i].operationId
    {
      if !WellFormedAt(records, n) { return false; }
      if records[n].operationId in ids {
        ghost var i :| 0 <= i < n && records[i].operationId == records[n].operationId;
        return false;
      }
      ids := ids + {records[n].operationId};
    }
    ok := true;
  }

  /** validateOwnershipRecords on parsed records: accepts exactly the valid journals. */
  method ValidateOwnershipRecords(records: seq<Record>) returns (ok: bool)
    ensures ok <==> ValidRecords(records)
  {
    if |records| > RECORD_LIMIT { return false; }
    ok := ValidateRows(records);
    if !ok { return; }
    ghost var walks: seq<seq<Id>> := [];
    for n := 0 to |records|
      invariant |walks| == n
      invariant forall i :: 0 <= i < n ==> WalkOf(records, i, walks[i])
    {
      var fine, path := WalkAncestors(records, records[n]);
      if !fine { return false; }
      walks := walks + [path];
    }
    AllWalksFinish(records, walks);
    ok := true;
  }

  ghost predicate WalkOf(records: seq<Record>, i: nat, path: seq<Id>)
    requires i < |records|
  {
    && FinishedWalk(records, path) && path[0] == records[i].operationId
    && forall j :: 0 <= j < |path| && Find(records, path[j]).Some? ==>
         Find(records, path[j]).value.ownerId == records[i].ownerId
  }

  lemma AllWalksFinish(records: seq<Record>, walks: seq<seq<Id>>)
    requires UniqueIds(records) && |walks| == |records|
    requires forall i :: 0 <= i < |walks| ==> WalkOf(records, i, walks[i])
    ensures Acyclic(records) && SameOwnerParents(records)
  {
    forall path | IsAncestry(records, path) && |path| > 1 ensures path[0] != path[|path| - 1] {
      AncestryContinues(records, path, 0);
      var first := Find(records, path[0]).value;
      var i :| 0 <= i < |records| && records[i] == first;
      FinishedWalkExcludesCycles(records, walks[i], path);
    }
    forall i | 0 <= i < |records| ensures SameOwnerParent(records, i) {
      WalkShowsParent(records, i, walks[i]);
    }
  }

  lemma WalkShowsParent(records: seq<Record>, i: nat, walk: seq<Id>)
    requires UniqueIds(records) && i < |records| && WalkOf(records, i, walk)
    ensures SameOwnerParent(records, i)
  {
    FindUnique(records, i);
    if records[i].parent.Some? {
      assert LinkAt(records, walk, 0);
      assert walk[1] == records[i].parent.value;
    }
  }
}
