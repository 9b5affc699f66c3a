/** The two JavaScript string operations the core applies to configuration
    values and credentials: `toUpperCase()` and `split(':')`. */
module JsStrings {

  /** The upper-case form of an ASCII letter; every other character is kept. */
  function UpperChar(c: char): (u: char)
    ensures 'a' <= c <= 'z' ==> u as int == c as int - 32
    ensures !('a' <= c <= 'z') ==> u == c
  {
    if 'a' <= c <= 'z' then (c as int - 32) as char else c
  }

  /** `s.toUpperCase()`, character by character. */
  function ToUpperCase(s: string): (r: string)
    ensures |r| == |s|
    ensures forall i :: 0 <= i < |s| ==> r[i] == UpperChar(s[i])
  {
    if s == [] then [] else [UpperChar(s[0])] + ToUpperCase(s[1..])
  }

  /** A string with no lower-case ASCII letter is its own upper-case form. */
  lemma {:induction false} UpperCaseFixed(s: string)
    requires forall i :: 0 <= i < |s| ==> !('a' <= s[i] <= 'z')
    ensures ToUpperCase(s) == s
  {
    var r := ToUpperCase(s);
    assert forall i :: 0 <= i < |s| ==> r[i] == s[i];
  }

  /** Two strings are equal when each character of the first upper-cases to
      the matching character of the second, which has no lower-case letters. */
  lemma UpperCaseMatches(s: string, target: string)
    requires |s| == |target|
    requires forall i :: 0 <= i < |s| ==> UpperChar(s[i]) == target[i]
    ensures ToUpperCase(s) == target
  {
    var r := ToUpperCase(s);
    assert forall i :: 0 <= i < |s| ==> r[i] == target[i];
  }

  /** The index of the first ':' in `s`, or `|s|` when there is none. */
  function FirstColon(s: string): (i: nat)
    ensures i <= |s|
    ensures forall j :: 0 <= j < i ==> s[j] != ':'
    ensures i < |s| ==> s[i] == ':'
  {
    if s == [] || s[0] == ':' then 0 else 1 + FirstColon(s[1..])
  }

  /** `s.split(':')`: the maximal colon-free pieces of `s`, in order. */
  function SplitColon(s: string): (parts: seq<string>)
    ensures |parts| >= 1
    ensures |parts| == 1 ==> parts[0] == s
    ensures |parts| > 1 ==> |parts[0]| < |s| && s[|parts[0]|] == ':' && parts[0] == s[..|parts[0]|]
    decreases |s|
  {
    var i := FirstColon(s);
    if i == |s| then [s] else [s[..i]] + SplitColon(s[i + 1..])
  }

  /** `parts.join(':')`. */
  function JoinColon(parts: seq<string>): string
    requires |parts| >= 1
  {
    if |parts| == 1 then parts[0] else parts[0] + ":" + JoinColon(parts[1..])
  }

  predicate ColonFree(s: string) {
    forall j :: 0 <= j < |s| ==> s[j] != ':'
  }

  /** A colon-free string is a single piece. */
  lemma SplitColonFree(s: string)
    requires ColonFree(s)
    ensures SplitColon(s) == [s]
  {
    assert FirstColon(s) == |s|;
  }

  /** A string that starts with a colon-free `head` and a ':' splits there. */
  lemma SplitAfterHead(head: string, tail: string)
    requires ColonFree(head)
    ensures SplitColon(head + ":" + tail) == [head] + SplitColon(tail)
  {
    var s := head + ":" + tail;
    assert s[|head|] == ':';
    forall j | 0 <= j < |head|
      ensures s[j] != ':'
    {
      assert s[j] == head[j];
    }
    var i := FirstColon(s);
    assert i == |head|;
    assert s[..i] == head;
    assert s[i + 1..] == tail;
    assert SplitColon(s) == [s[..i]] + SplitColon(s[i + 1..]);
  }

  /** Joining the pieces with ':' gives back the original string. */
  lemma {:induction false} SplitJoin(s: string)
    ensures JoinColon(SplitColon(s)) == s
    decreases |s|
  {
    var parts := SplitColon(s);
    var i := FirstColon(s);
    if i < |s| {
      var head, tail := s[..i], s[i + 1..];
      var rest := SplitColon(tail);
      assert parts == [head] + rest;
      assert parts[0] == head && parts[1..] == rest;
      SplitJoin(tail);
      assert JoinColon(parts) == head + ":" + JoinColon(rest);
      assert s == head + ":" + tail;
    } else {
      assert parts == [s];
    }
  }

  /** No piece contains a ':'. */
  lemma {:induction false} SplitPiecesColonFree(s: string)
    ensures forall k :: 0 <= k < |SplitColon(s)| ==> ColonFree(SplitColon(s)[k])
    decreases |s|
  {
    var i := FirstColon(s);
    if i < |s| {
      SplitPiecesColonFree(s[i + 1..]);
    }
  }

  /** Splitting the join of colon-free pieces gives the pieces back. */
  lemma {:induction false} JoinSplit(parts: seq<string>)
    requires |parts| >= 1
    requires forall k :: 0 <= k < |parts| ==> ColonFree(parts[k])
    ensures SplitColon(JoinColon(parts)) == parts
  {
    if |parts| == 1 {
      SplitColonFree(parts[0]);
    } else {
      JoinSplit(parts[1..]);
      SplitAfterHead(parts[0], JoinColon(parts[1..]));
    }
  }
}
