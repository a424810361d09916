/** Optional values and the two string operations the orchestrator leans on: splitting at a separator and joining. */
module Text {

  datatype Option<+T> = None | Some(value: T)

  /** JavaScript `value.split(sep)` for a one-character separator: never empty. */
  function Split(s: string, sep: char): (parts: seq<string>)
    ensures |parts| > 0
    ensures forall i :: 0 <= i < |parts| ==> sep !in parts[i]
  {
    if s == "" then [""]
    else
      var rest := Split(s[1..], sep);
      if s[0] == sep then [""] + rest else [[s[0]] + rest[0]] + rest[1..]
  }

  lemma {:induction false} SplitCharacters(s: string, sep: char, i: nat, c: char)
    requires i < |Split(s, sep)| && c in Split(s, sep)[i]
    ensures c in s
  {
    var rest := Split(s[1..], sep);
    if s[0] == sep {
      SplitCharacters(s[1..], sep, i - 1, c);
    } else if i == 0 {
      if c != s[0] { SplitCharacters(s[1..], sep, 0, c); }
    } else {
      SplitCharacters(s[1..], sep, i, c);
    }
  }

  function Join(parts: seq<string>, sep: char): (s: string)
  {
    if |parts| == 0 then ""
    else if |parts| == 1 then parts[0]
    else parts[0] + [sep] + Join(parts[1..], sep)
  }

  predicate Unsplit(parts: seq<string>, sep: char)
  {
    forall i :: 0 <= i < |parts| ==> sep !in parts[i]
  }

  /** A separator-free head comes back from Split untouched. */
  lemma {:induction false} SplitHead(head: string, tail: string, sep: char)
    requires sep !in head
    ensures Split(head + [sep] + tail, sep) == [head] + Split(tail, sep)
  {
    if head == "" {
      assert (head + [sep] + tail)[1..] == tail;
    } else {
      SplitHead(head[1..], tail, sep);
      assert (head + [sep] + tail)[1..] == head[1..] + [sep] + tail;
      assert [head[0]] + head[1..] == head;
    }
  }

  lemma {:induction false} SplitAtom(part: string, sep: char)
    requires sep !in part
    ensures Split(part, sep) == [part]
  {
    if part != "" {
      SplitAtom(part[1..], sep);
      assert [part[0]] + part[1..] == part;
    }
  }

  /** Splitting a joined list gives the list back. */
  lemma {:induction false} SplitJoin(parts: seq<string>, sep: char)
    requires |parts| > 0 && Unsplit(parts, sep)
    ensures Split(Join(parts, sep), sep) == parts
  {
    if |parts| == 1 {
      SplitAtom(parts[0], sep);
    } else {
      SplitJoin(parts[1..], sep);
      SplitHead(parts[0], Join(parts[1..], sep), sep);
    }
  }

  lemma {:induction false} JoinAppend(left: seq<string>, right: seq<string>, sep: char)
    requires |left| > 0 && |right| > 0
    ensures Join(left + right, sep) == Join(left, sep) + [sep] + Join(right, sep)
  {
    if |left| == 1 {
      assert (left + right)[1..] == right;
    } else {
      JoinAppend(left[1..], right, sep);
      assert (left + right)[1..] == left[1..] + right;
    }
  }

  /** Characters of a joined string come from its parts or are the separator. */
  lemma {:induction false} JoinCharacters(parts: seq<string>, sep: char, c: char)
    requires c in Join(parts, sep)
    ensures c == sep || exists i :: 0 <= i < |parts| && c in parts[i]
  {
    if |parts| > 1 && c !in parts[0] && c != sep {
      JoinCharacters(parts[1..], sep, c);
      var i :| 0 <= i < |parts[1..]| && c in parts[1..][i];
      assert c in parts[i + 1];
    }
  }

  /** Splitting loses nothing: joined again, the parts are the text. */
  lemma {:induction false} JoinSplit(s: string, sep: char)
    ensures Join(Split(s, sep), sep) == s
  {
    if s != "" { JoinSplit(s[1..], sep); }
  }
}
