// The string operations the source leans on: trim, split on one character, and lower case of ASCII.
module Text {
  import opened Common

  /** What JavaScript's trim removes. */
  predicate IsSpace(c: char) {
    || '\t' <= c <= '\r' || c == ' ' || c == '\U{00A0}' || c == '\U{1680}' || '\U{2000}' <= c <= '\U{200A}'
    || c == '\U{2028}' || c == '\U{2029}' || c == '\U{202F}' || c == '\U{205F}' || c == '\U{3000}' || c == '\U{FEFF}'
  }

  function TrimStart(s: string): string {
    if s != [] && IsSpace(s[0]) then TrimStart(s[1..]) else s
  }

  function TrimEnd(s: string): string {
    if s != [] && IsSpace(Last(s)) then TrimEnd(Init(s)) else s
  }

  function Trim(s: string): string {
    TrimEnd(TrimStart(s))
  }

  predicate Blank(s: string) {
    Trim(s) == []
  }

  /** Nothing to trim at either end. */
  predicate Tidy(s: string) {
    s == [] || (!IsSpace(s[0]) && !IsSpace(Last(s)))
  }

  lemma {:induction false} TrimStartIsTidy(s: string)
    ensures TrimStart(s) == [] || !IsSpace(TrimStart(s)[0])
    ensures |TrimStart(s)| <= |s|
    decreases |s|
  {
    if s != [] && IsSpace(s[0]) {
      TrimStartIsTidy(s[1..]);
    }
  }

  lemma {:induction false} TrimEndIsTidy(s: string)
    ensures TrimEnd(s) == [] || !IsSpace(Last(TrimEnd(s)))
    ensures TrimEnd(s) <= s
    decreases |s|
  {
    if s != [] && IsSpace(Last(s)) {
      TrimEndIsTidy(Init(s));
    }
  }

  /** Trimming leaves nothing to trim, so trimming again changes nothing. */
  lemma TrimIsTidy(s: string)
    ensures Tidy(Trim(s)) && Trim(Trim(s)) == Trim(s)
  {
    TrimStartIsTidy(s);
    TrimEndIsTidy(TrimStart(s));
    assert Trim(s) == [] || Trim(s)[0] == TrimStart(s)[0];
    TidyStays(Trim(s));
  }

  lemma TidyStays(s: string)
    requires Tidy(s)
    ensures Trim(s) == s
  {
  }

  /** Nothing but white space. */
  predicate AllSpace(s: string) {
    forall i :: 0 <= i < |s| ==> IsSpace(s[i])
  }

  /** Trimming takes off exactly the white space around. */
  lemma {:induction false} TrimTakesPadding(left: string, s: string, right: string)
    requires AllSpace(left) && AllSpace(right) && Tidy(s)
    ensures Trim(left + s + right) == s
    decreases |left| + |right|
  {
    if left != [] {
      assert (left + s + right)[1..] == left[1..] + s + right;
      TrimTakesPadding(left[1..], s, right);
    } else if right != [] {
      assert left + s + right == s + right;
      TrimEndTakesPadding(s, right);
      if s == [] {
        assert s + right == right;
        SpaceIsTrimmed(right);
      } else {
        assert (s + right)[0] == s[0];
      }
    } else {
      assert left + s + right == s;
      TidyStays(s);
    }
  }

  lemma {:induction false} TrimEndTakesPadding(s: string, right: string)
    requires AllSpace(right) && Tidy(s)
    ensures TrimEnd(s + right) == s
    decreases |right|
  {
    if right == [] {
      assert s + right == s;
    } else {
      assert Init(s + right) == s + Init(right) && Last(s + right) == Last(right);
      TrimEndTakesPadding(s, Init(right));
    }
  }

  lemma {:induction false} SpaceIsTrimmed(s: string)
    requires AllSpace(s)
    ensures TrimStart(s) == []
  {
    if s != [] { SpaceIsTrimmed(s[1..]); }
  }

  /** The part before the first `c`, or all of it. */
  function Until(s: string, c: char): string {
    if s == [] || s[0] == c then [] else [s[0]] + Until(s[1..], c)
  }

  /** JavaScript's split on one character. */
  function Split(s: string, c: char): (parts: seq<string>)
    ensures |parts| > 0
    decreases |s|
  {
    var head := Until(s, c);
    UntilIsPrefix(s, c);
    if head == s then [s] else [head] + Split(s[|head| + 1..], c)
  }

  lemma {:induction false} UntilIsPrefix(s: string, c: char)
    ensures Until(s, c) <= s && c !in Until(s, c)
    ensures Until(s, c) != s ==> s[|Until(s, c)|] == c
    decreases |s|
  {
    if s != [] && s[0] != c {
      UntilIsPrefix(s[1..], c);
      assert s == [s[0]] + s[1..];
      assert Until(s, c) == [s[0]] + Until(s[1..], c);
    }
  }

  lemma {:induction false} UntilOfJoin(head: string, c: char, rest: string)
    requires c !in head
    ensures Until(head + [c] + rest, c) == head
    ensures Until(head, c) == head
  {
    if head != [] {
      UntilOfJoin(head[1..], c, rest);
      assert (head + [c] + rest)[1..] == head[1..] + [c] + rest;
    } else {
      assert head + [c] + rest == [c] + rest;
    }
  }

  /** Splitting what was joined gives the parts back. */
  lemma SplitOfJoin(head: string, c: char, rest: string)
    requires c !in head
    ensures Split(head + [c] + rest, c) == [head] + Split(rest, c)
    ensures Split(head, c) == [head]
  {
    UntilOfJoin(head, c, rest);
    assert (head + [c] + rest)[|head| + 1..] == rest;
    assert head != head + [c] + rest by { assert |head| < |head + [c] + rest|; }
  }

  /** Lower case changes the twenty-six letters and nothing else, and is the same for both cases of a letter. */
  lemma LowerIs(s: string, i: nat)
    requires i < |s|
    ensures |Lower(s)| == |s|
    ensures 'A' <= s[i] <= 'Z' ==> Lower(s)[i] == "abcdefghijklmnopqrstuvwxyz"[s[i] as int - 'A' as int]
    ensures !('A' <= s[i] <= 'Z') ==> Lower(s)[i] == s[i]
  {
  }

  function Lower(s: string): string {
    seq(|s|, i requires 0 <= i < |s| => if 'A' <= s[i] <= 'Z' then s[i] + ' ' else s[i])
  }
}
