/** Sequence helpers shared by the collector and the analyzer: Python's list flattening,
    `sep.join(parts)` and `s.split(sep)` for a one-character separator. */
module Seqs {

  /** The concatenation of the parts, in order (`list.extend` applied part by part). */
  function Flatten<T>(parts: seq<seq<T>>): (r: seq<T>)
  {
    if parts == [] then [] else parts[0] + Flatten(parts[1..])
  }

  lemma {:induction false} FlattenAppend<T>(a: seq<seq<T>>, b: seq<seq<T>>)
    ensures Flatten(a + b) == Flatten(a) + Flatten(b)
  {
    if a == [] {
      assert a + b == b;
    } else {
      assert (a + b)[1..] == a[1..] + b;
      FlattenAppend(a[1..], b);
    }
  }

  lemma AppendAssoc<T>(a: seq<T>, b: seq<T>, c: seq<T>)
    ensures (a + b) + c == a + (b + c)
  {
  }

  /** `sep.join(parts)`. */
  /** The total length of the parts. */
  function TotalLength(parts: seq<string>): nat
  {
    if parts == [] then 0 else |parts[0]| + TotalLength(parts[1..])
  }

  /** `sep.join(parts)`: one separator between each two parts and nowhere else. */
  function Join(parts: seq<string>, sep: char): (r: string)
    ensures parts != [] ==> |r| == TotalLength(parts) + |parts| - 1
  {
    if parts == [] then ""
    else if |parts| == 1 then parts[0]
    else parts[0] + [sep] + Join(parts[1..], sep)
  }

  /** `s.split(sep)`: the pieces between separators, always at least one (`"".split(",") == [""]`). */
  function SplitOn(s: string, sep: char): (parts: seq<string>)
    ensures |parts| >= 1
    ensures forall i :: 0 <= i < |parts| ==> sep !in parts[i]
  {
    if s == [] then [""]
    else
      var rest := SplitOn(s[1..], sep);
      if s[0] == sep then [""] + rest
      else [[s[0]] + rest[0]] + rest[1..]
  }

  lemma {:induction false} SplitOnPrefix(p: string, t: string, sep: char)
    requires sep !in p
    ensures SplitOn(p + [sep] + t, sep) == [p] + SplitOn(t, sep)
    decreases |p|
  {
    if p == [] {
      assert p + [sep] + t == [sep] + t;
      assert ([sep] + t)[1..] == t;
    } else {
      assert (p + [sep] + t)[1..] == p[1..] + [sep] + t;
      SplitOnPrefix(p[1..], t, sep);
      assert [p[0]] + p[1..] == p;
    }
  }

  lemma {:induction false} SplitOnNoSep(p: string, sep: char)
    requires sep !in p
    ensures SplitOn(p, sep) == [p]
    decreases |p|
  {
    if p != [] {
      SplitOnNoSep(p[1..], sep);
      assert [p[0]] + p[1..] == p;
    }
  }

  /** Joining a non-empty list of separator-free parts and splitting the result gives the list back. */
  lemma {:induction false} SplitJoin(parts: seq<string>, sep: char)
    requires parts != []
    requires forall i :: 0 <= i < |parts| ==> sep !in parts[i]
    ensures SplitOn(Join(parts, sep), sep) == parts
  {
    if |parts| == 1 {
      SplitOnNoSep(parts[0], sep);
    } else {
      SplitJoin(parts[1..], sep);
      SplitOnPrefix(parts[0], Join(parts[1..], sep), sep);
      assert [parts[0]] + parts[1..] == parts;
    }
  }

  /** An empty tag list does not survive the round trip: it joins to "" and splits back
      to one empty part, the same as the list `[""]`. */
  lemma EmptyJoinSplitsToOnePart(sep: char)
    ensures Join([], sep) == Join([""], sep)
    ensures SplitOn(Join([], sep), sep) == [""]
  {
  }

  /** Every character of a join is the separator or a character of one of the parts. */
  lemma {:induction false} JoinChars(parts: seq<string>, sep: char)
    ensures forall i :: 0 <= i < |Join(parts, sep)| ==>
      Join(parts, sep)[i] == sep || exists j :: 0 <= j < |parts| && Join(parts, sep)[i] in parts[j]
  {
    if |parts| > 1 {
      JoinChars(parts[1..], sep);
      var r, t := Join(parts, sep), Join(parts[1..], sep);
      forall i | 0 <= i < |r| && r[i] != sep
        ensures exists j :: 0 <= j < |parts| && r[i] in parts[j]
      {
        if i < |parts[0]| {
          assert r[i] == parts[0][i];
        } else {
          assert r[i] == t[i - |parts[0]| - 1];
          var j :| 0 <= j < |parts[1..]| && t[i - |parts[0]| - 1] in parts[1..][j];
          assert r[i] in parts[j + 1];
        }
      }
    } else if |parts| == 1 {
      assert forall i :: 0 <= i < |parts[0]| ==> parts[0][i] in parts[0];
    }
  }

  /** A join of non-empty parts starts with the first part's first character and ends with the
      last part's last character. */
  lemma {:induction false} JoinEnds(parts: seq<string>, sep: char)
    requires parts != []
    requires forall i :: 0 <= i < |parts| ==> parts[i] != []
    ensures |Join(parts, sep)| > 0
    ensures Join(parts, sep)[0] == parts[0][0]
    ensures Join(parts, sep)[|Join(parts, sep)| - 1] == parts[|parts| - 1][|parts[|parts| - 1]| - 1]
  {
    if |parts| > 1 {
      var tail := parts[1..];
      assert forall i :: 0 <= i < |tail| ==> tail[i] == parts[i + 1];
      JoinEnds(tail, sep);
      var t, r := Join(tail, sep), Join(parts, sep);
      assert r == parts[0] + [sep] + t;
      assert r[0] == parts[0][0];
      assert r[|r| - 1] == t[|t| - 1];
      assert tail[|tail| - 1] == parts[|parts| - 1];
    }
  }
}
