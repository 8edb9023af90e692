/** Cutting and trimming strings, and their order. */
module Strings {
  /** The parts before and after the first occurrence of a character, and whether there is one. */
  function Cut(s: string, c: char): (r: (string, bool, string))
    ensures c !in r.0 && (r.1 <==> c in s)
    ensures s == if r.1 then r.0 + [c] + r.2 else r.0
  {
    if s == "" then ("", false, "")
    else if s[0] == c then ("", true, s[1..])
    else
      var (before, found, after) := Cut(s[1..], c);
      ([s[0]] + before, found, after)
  }

  lemma {:induction false} CutAt(before: string, c: char, after: string)
    requires c !in before
    ensures Cut(before + [c] + after, c) == (before, true, after)
  {
    var s := before + [c] + after;
    if before == "" {
      assert s[0] == c && s[1..] == after;
    } else {
      CutAt(before[1..], c, after);
      CutStep(s, before[1..] + [c] + after, c);
      assert [before[0]] + before[1..] == before;
    }
  }

  lemma CutStep(s: string, rest: string, c: char)
    requires s != "" && s[0] != c && s[1..] == rest
    ensures Cut(s, c) == ([s[0]] + Cut(rest, c).0, Cut(rest, c).1, Cut(rest, c).2)
  {
  }

  /* ----- White space ----- */

  predicate IsSpace(c: char) {
    var u := c as int;
    || 0x09 <= u <= 0x0D || u == 0x20 || u == 0x85 || u == 0xA0 || u == 0x1680
    || 0x2000 <= u <= 0x200A || u == 0x2028 || u == 0x2029 || u == 0x202F || u == 0x205F || u == 0x3000
  }

  function TrimLeft(s: string): string {
    if s != [] && IsSpace(s[0]) then TrimLeft(s[1..]) else s
  }

  function TrimRight(s: string): string {
    if s != [] && IsSpace(s[|s| - 1]) then TrimRight(s[..|s| - 1]) else s
  }

  function TrimSpace(s: string): string {
    TrimRight(TrimLeft(s))
  }

  predicate AllSpace(s: string) {
    forall i :: 0 <= i < |s| ==> IsSpace(s[i])
  }

  lemma {:induction false} TrimLeftEmptyIff(s: string)
    ensures TrimLeft(s) == "" <==> AllSpace(s)
  {
    if s != "" {
      TrimLeftEmptyIff(s[1..]);
    }
  }

  lemma {:induction false} TrimRightEmptyIff(s: string)
    ensures TrimRight(s) == "" <==> AllSpace(s)
  {
    if s != "" {
      TrimRightEmptyIff(s[..|s| - 1]);
    }
  }

  lemma {:induction false} LeftIsTrimmed(s: string)
    ensures TrimLeft(s) != "" ==> !IsSpace(TrimLeft(s)[0])
  {
    if s != "" {
      LeftIsTrimmed(s[1..]);
    }
  }

  /** Nothing is left of a string exactly if it is made of white space. */
  lemma TrimmedEmptyIff(s: string)
    ensures TrimSpace(s) == "" <==> AllSpace(s)
  {
    LeftIsTrimmed(s);
    TrimLeftEmptyIff(s);
    TrimRightEmptyIff(TrimLeft(s));
  }

  /* ----- Lexicographic order by code point ----- */

  predicate Leq(a: string, b: string) {
    a == "" || (b != "" && (a[0] < b[0] || (a[0] == b[0] && Leq(a[1..], b[1..]))))
  }

  lemma {:induction false} LeqTotal(a: string, b: string)
    ensures Leq(a, b) || Leq(b, a)
    ensures Leq(a, b) && Leq(b, a) ==> a == b
  {
    if a != "" && b != "" {
      LeqTotal(a[1..], b[1..]);
      assert a == [a[0]] + a[1..] && b == [b[0]] + b[1..];
    }
  }

  lemma {:induction false} LeqTransitive(a: string, b: string, c: string)
    requires Leq(a, b) && Leq(b, c)
    ensures Leq(a, c)
  {
    if a != "" {
      if a[0] == b[0] == c[0] {
        LeqTransitive(a[1..], b[1..], c[1..]);
      }
    }
  }

  predicate Ordered(s: seq<string>) {
    |s| <= 1 || (Leq(s[0], s[1]) && Ordered(s[1..]))
  }

  lemma {:induction false} FirstIsLeast(s: seq<string>, i: nat)
    requires Ordered(s) && i < |s|
    ensures Leq(s[0], s[i])
  {
    LeqTotal(s[0], s[0]);
    if i > 0 {
      FirstIsLeast(s[1..], i - 1);
      LeqTransitive(s[0], s[1], s[i]);
    }
  }

  function Insert(x: string, s: seq<string>): seq<string> {
    if s == [] || Leq(x, s[0]) then [x] + s else [s[0]] + Insert(x, s[1..])
  }

  function Sorted(s: seq<string>): seq<string> {
    if s == [] then [] else Insert(s[0], Sorted(s[1..]))
  }

  lemma {:induction false} InsertKeepsOrder(x: string, s: seq<string>)
    requires Ordered(s)
    ensures Ordered(Insert(x, s)) && Insert(x, s) != []
    ensures Insert(x, s)[0] == x || (s != [] && Insert(x, s)[0] == s[0])
  {
    if s == [] {
    } else if Leq(x, s[0]) {
      assert ([x] + s)[1..] == s;
    } else {
      LeqTotal(x, s[0]);
      InsertKeepsOrder(x, s[1..]);
      assert Insert(x, s)[1..] == Insert(x, s[1..]);
    }
  }

  lemma {:induction false} InsertAdds(x: string, s: seq<string>)
    ensures multiset(Insert(x, s)) == multiset(s) + multiset{x}
  {
    if s != [] && !Leq(x, s[0]) {
      InsertAdds(x, s[1..]);
      assert s == [s[0]] + s[1..];
    }
  }

  lemma {:induction false} SortedIsOrdered(s: seq<string>)
    ensures Ordered(Sorted(s)) && multiset(Sorted(s)) == multiset(s)
  {
    if s != [] {
      SortedIsOrdered(s[1..]);
      InsertKeepsOrder(s[0], Sorted(s[1..]));
      InsertAdds(s[0], Sorted(s[1..]));
      assert s == [s[0]] + s[1..];
    }
  }

  lemma SameFirst(a: seq<string>, b: seq<string>)
    requires Ordered(a) && Ordered(b) && multiset(a) == multiset(b) && a != [] && b != []
    ensures a[0] == b[0]
  {
    assert a[0] in multiset(b) && b[0] in multiset(a);
    var i :| 0 <= i < |b| && b[i] == a[0];
    var j :| 0 <= j < |a| && a[j] == b[0];
    FirstIsLeast(b, i);
    FirstIsLeast(a, j);
    LeqTotal(a[0], b[0]);
  }

  lemma {:induction false} OrderedIsUnique(a: seq<string>, b: seq<string>)
    requires Ordered(a) && Ordered(b) && multiset(a) == multiset(b)
    ensures a == b
  {
    assert |a| == |multiset(a)| == |multiset(b)| == |b|;
    if a != [] {
      SameFirst(a, b);
      assert a == [a[0]] + a[1..] && b == [b[0]] + b[1..];
      assert multiset(a[1..]) == multiset(a) - multiset{a[0]};
      assert multiset(b[1..]) == multiset(b) - multiset{b[0]};
      OrderedIsUnique(a[1..], b[1..]);
    }
  }

  /** Sorting forgets the order, and nothing else. */
  lemma SortedEqualIff(a: seq<string>, b: seq<string>)
    ensures Sorted(a) == Sorted(b) <==> multiset(a) == multiset(b)
  {
    SortedIsOrdered(a);
    SortedIsOrdered(b);
    if multiset(a) == multiset(b) {
      OrderedIsUnique(Sorted(a), Sorted(b));
    }
  }

  /* ----- Joining with commas ----- */

  function Join(s: seq<string>): string {
    if s == [] then "" else if |s| == 1 then s[0] else s[0] + "," + Join(s[1..])
  }

  predicate CommaFree(s: seq<string>) {
    forall i :: 0 <= i < |s| ==> ',' !in s[i]
  }

  lemma CutJoined(s: seq<string>)
    requires s != [] && CommaFree(s)
    ensures Cut(Join(s), ',') == (s[0], |s| > 1, if |s| > 1 then Join(s[1..]) else "")
  {
    if |s| > 1 {
      CutAt(s[0], ',', Join(s[1..]));
    } else {
      CutNone(s[0], ',');
    }
  }

  lemma {:induction false} CutNone(s: string, c: char)
    requires c !in s
    ensures Cut(s, c) == (s, false, "")
  {
    if s != "" {
      CutNone(s[1..], c);
    }
  }

  lemma {:induction false} JoinIsInjective(a: seq<string>, b: seq<string>)
    requires a != [] && b != [] && CommaFree(a) && CommaFree(b) && Join(a) == Join(b)
    ensures a == b
  {
    CutJoined(a);
    CutJoined(b);
    if |a| > 1 {
      JoinIsInjective(a[1..], b[1..]);
      assert a == [a[0]] + a[1..] && b == [b[0]] + b[1..];
    }
  }
}
