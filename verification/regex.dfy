/**
  The regular expressions that the browser client needs: a sequence of greedily quantified
  single-character classes, matched with backtracking as JavaScript does.
 */
module Regex {
  import opened Options

  datatype Class = Exactly(c: char) | Space | NonWord | Digit

  // `min` is 0 or 1; `many` tells `*` and `+` from `?` and a plain class.
  datatype Item = Item(cls: Class, min: nat, many: bool)

  predicate IsSpace(c: char) {
    || c == ' ' || 9 <= c as int <= 13 || c as int == 0xA0 || c as int == 0x1680
    || 0x2000 <= c as int <= 0x200A || c as int == 0x2028 || c as int == 0x2029
    || c as int == 0x202F || c as int == 0x205F || c as int == 0x3000 || c as int == 0xFEFF
  }

  predicate IsWord(c: char) {
    'a' <= c <= 'z' || 'A' <= c <= 'Z' || '0' <= c <= '9' || c == '_'
  }

  predicate InClass(cls: Class, c: char) {
    match cls
    case Exactly(d) => c == d
    case Space => IsSpace(c)
    case NonWord => !IsWord(c)
    case Digit => '0' <= c <= '9'
  }

  // The WhiteSpace and LineTerminator characters of ECMA-262, sections 12.2 and 12.3.
  function Blanks(): set<int> {
    {0x09, 0x0A, 0x0B, 0x0C, 0x0D, 0x20, 0xA0, 0x1680, 0x2000, 0x2001, 0x2002, 0x2003, 0x2004, 0x2005,
     0x2006, 0x2007, 0x2008, 0x2009, 0x200A, 0x2028, 0x2029, 0x202F, 0x205F, 0x3000, 0xFEFF}
  }

  lemma SpacesAre(c: char)
    ensures IsSpace(c) <==> c as int in Blanks()
  {
  }

  // ---------------------------------------------------------------- what a match is

  // `ends` holds the start of the match and the position after each item.
  ghost predicate IsMatch(items: seq<Item>, s: string, ends: seq<nat>) {
    && |ends| == |items| + 1
    && ends[|items|] <= |s|
    && forall j :: 0 <= j < |items| ==> Takes(items[j], s, ends[j], ends[j + 1])
  }

  predicate Takes(item: Item, s: string, lo: nat, hi: nat) {
    && lo + item.min <= hi <= |s|
    && (!item.many ==> hi <= lo + 1)
    && forall k :: lo <= k < hi ==> InClass(item.cls, s[k])
  }

  // ---------------------------------------------------------------- the matcher

  // How many characters from `i` on the item can take at most.
  function Run(item: Item, s: string, i: nat): (n: nat)
    requires i <= |s|
    ensures i + n <= |s| && (!item.many ==> n <= 1)
    ensures forall k :: i <= k < i + n ==> InClass(item.cls, s[k])
    ensures i + n < |s| && (item.many || n == 0) ==> !InClass(item.cls, s[i + n])
    decreases |s| - i
  {
    if i == |s| || !InClass(item.cls, s[i]) then 0
    else if !item.many then 1
    else 1 + Run(item, s, i + 1)
  }

  // The match of the items at exactly `i` that JavaScript finds first.
  function MatchAt(items: seq<Item>, s: string, i: nat): (r: Option<seq<nat>>)
    requires i <= |s|
    ensures r.Some? ==> IsMatch(items, s, r.value) && r.value[0] == i
    decreases |items|, |s| + 1
  {
    if items == [] then Some([i]) else TryCounts(items, s, i, Run(items[0], s, i))
  }

  // The first item takes `n` characters, or fewer if the rest then does not match.
  function TryCounts(items: seq<Item>, s: string, i: nat, n: nat): (r: Option<seq<nat>>)
    requires items != [] && i + n <= |s|
    requires !items[0].many ==> n <= 1
    requires forall k :: i <= k < i + n ==> InClass(items[0].cls, s[k])
    ensures r.Some? ==> IsMatch(items, s, r.value) && r.value[0] == i
    decreases |items|, n
  {
    if n < items[0].min then None
    else
      match MatchAt(items[1..], s, i + n)
      case Some(ends) =>
        assert IsMatch(items, s, [i] + ends) by { ConsMatch(items, s, i, ends); }
        Some([i] + ends)
      case None => if n == 0 then None else TryCounts(items, s, i, n - 1)
  }

  lemma ConsMatch(items: seq<Item>, s: string, i: nat, ends: seq<nat>)
    requires items != [] && IsMatch(items[1..], s, ends) && Takes(items[0], s, i, ends[0])
    ensures IsMatch(items, s, [i] + ends)
  {
    var all := [i] + ends;
    forall j | 0 <= j < |items|
      ensures Takes(items[j], s, all[j], all[j + 1])
    {
      if j > 0 {
        assert Takes(items[1..][j - 1], s, ends[j - 1], ends[j]);
      }
    }
  }

  // String.prototype.match: the first position, from `i` on, where there is a match.
  function Search(items: seq<Item>, s: string, i: nat): (r: Option<seq<nat>>)
    requires i <= |s|
    ensures r.Some? ==> IsMatch(items, s, r.value) && i <= r.value[0]
    decreases |s| - i
  {
    match MatchAt(items, s, i)
    case Some(ends) => Some(ends)
    case None => if i == |s| then None else Search(items, s, i + 1)
  }

  /** The matcher misses nothing: where some match starts, it finds one. */
  lemma {:induction false} MatchAtComplete(items: seq<Item>, s: string, ends: seq<nat>)
    requires IsMatch(items, s, ends) && ends[0] <= |s|
    ensures MatchAt(items, s, ends[0]).Some?
    decreases |items|, |s| + 1
  {
    if items != [] {
      assert Takes(items[0], s, ends[0], ends[1]);
      assert ends[1] - ends[0] <= Run(items[0], s, ends[0]);
      TryCountsComplete(items, s, ends, Run(items[0], s, ends[0]));
    }
  }

  lemma {:induction false} TryCountsComplete(items: seq<Item>, s: string, ends: seq<nat>, n: nat)
    requires items != [] && IsMatch(items, s, ends) && ends[0] + n <= |s|
    requires !items[0].many ==> n <= 1
    requires forall k :: ends[0] <= k < ends[0] + n ==> InClass(items[0].cls, s[k])
    requires ends[1] - ends[0] <= n
    ensures TryCounts(items, s, ends[0], n).Some?
    decreases |items|, n
  {
    assert Takes(items[0], s, ends[0], ends[1]);
    if n == ends[1] - ends[0] {
      forall j | 0 <= j < |items| - 1
        ensures Takes(items[1..][j], s, ends[1..][j], ends[1..][j + 1])
      {
        assert Takes(items[j + 1], s, ends[j + 1], ends[j + 2]);
      }
      MatchAtComplete(items[1..], s, ends[1..]);
    } else {
      TryCountsComplete(items, s, ends, n - 1);
    }
  }

  // Every item takes all it can and the rest still matches: no backtracking.
  ghost predicate GreedyMatch(items: seq<Item>, s: string, ends: seq<nat>) {
    && |ends| == |items| + 1
    && (forall j :: 0 <= j < |ends| ==> ends[j] <= |s|)
    && forall j :: 0 <= j < |items| ==>
         items[j].min <= Run(items[j], s, ends[j]) && ends[j + 1] == ends[j] + Run(items[j], s, ends[j])
  }

  lemma GreedyRest(items: seq<Item>, s: string, ends: seq<nat>)
    requires items != [] && GreedyMatch(items, s, ends)
    ensures GreedyMatch(items[1..], s, ends[1..])
    ensures items[0].min <= Run(items[0], s, ends[0]) && ends[1] == ends[0] + Run(items[0], s, ends[0])
  {
    forall j | 0 <= j < |items| - 1
      ensures items[1..][j].min <= Run(items[1..][j], s, ends[1..][j])
      ensures ends[1..][j + 1] == ends[1..][j] + Run(items[1..][j], s, ends[1..][j])
    {
      assert items[1..][j] == items[j + 1];
    }
  }

  lemma {:induction false} GreedyIsFirst(items: seq<Item>, s: string, ends: seq<nat>)
    requires GreedyMatch(items, s, ends)
    ensures MatchAt(items, s, ends[0]) == Some(ends)
    decreases |items|
  {
    hide Run;
    if items == [] {
      assert ends == [ends[0]];
    } else {
      GreedyRest(items, s, ends);
      GreedyIsFirst(items[1..], s, ends[1..]);
      assert [ends[0]] + ends[1..] == ends;
    }
  }

  // The search ends at the first position where some match starts.
  lemma {:induction false} SearchFinds(items: seq<Item>, s: string, i: nat, p: nat)
    requires i <= p <= |s| && MatchAt(items, s, p).Some?
    requires forall q :: i <= q < p ==> MatchAt(items, s, q).None?
    ensures Search(items, s, i) == MatchAt(items, s, p)
    decreases p - i
  {
    if i < p {
      SearchFinds(items, s, i + 1, p);
    }
  }

  // ---------------------------------------------------------------- which match is found

  // `a` is `b`, or ends earlier at the first item where they differ.
  ghost predicate LexAtMost(a: seq<nat>, b: seq<nat>) {
    |a| == |b| && (a == b || exists j :: 0 <= j < |a| && a[..j] == b[..j] && a[j] < b[j])
  }

  lemma LexCons(i: nat, a: seq<nat>, b: seq<nat>)
    requires LexAtMost(a, b)
    ensures LexAtMost([i] + a, [i] + b)
  {
    if a != b {
      var j :| 0 <= j < |a| && a[..j] == b[..j] && a[j] < b[j];
      assert ([i] + a)[..j + 1] == [i] + a[..j] && ([i] + b)[..j + 1] == [i] + b[..j];
    }
  }

  lemma TailMatches(items: seq<Item>, s: string, ends: seq<nat>)
    requires items != [] && IsMatch(items, s, ends)
    ensures IsMatch(items[1..], s, ends[1..]) && Takes(items[0], s, ends[0], ends[1])
    ensures ends == [ends[0]] + ends[1..]
  {
    forall j | 0 <= j < |items| - 1
      ensures Takes(items[1..][j], s, ends[1..][j], ends[1..][j + 1])
    {
      assert Takes(items[j + 1], s, ends[j + 1], ends[j + 2]);
    }
    assert Takes(items[0], s, ends[0], ends[1]);
  }

  /**
    Of all the matches that start at a position the matcher finds the one in which the first item
    takes as much as it can, then the second, and so on: the lexicographically greatest.
   */
  lemma {:induction false} GreatestFirst(items: seq<Item>, s: string, other: seq<nat>)
    requires IsMatch(items, s, other) && other[0] <= |s|
    ensures MatchAt(items, s, other[0]).Some? && LexAtMost(other, MatchAt(items, s, other[0]).value)
    decreases |items|, |s| + 1
  {
    if items != [] {
      TailMatches(items, s, other);
      assert other[1] - other[0] <= Run(items[0], s, other[0]);
      GreatestOfCounts(items, s, other, Run(items[0], s, other[0]));
    }
  }

  lemma {:induction false} GreatestOfCounts(items: seq<Item>, s: string, other: seq<nat>, n: nat)
    requires items != [] && IsMatch(items, s, other) && other[0] + n <= |s|
    requires !items[0].many ==> n <= 1
    requires forall k :: other[0] <= k < other[0] + n ==> InClass(items[0].cls, s[k])
    requires other[1] - other[0] <= n
    ensures TryCounts(items, s, other[0], n).Some? && LexAtMost(other, TryCounts(items, s, other[0], n).value)
    decreases |items|, n
  {
    var i := other[0];
    TailMatches(items, s, other);
    if i + n == other[1] {
      GreatestFirst(items[1..], s, other[1..]);
      LexCons(i, other[1..], MatchAt(items[1..], s, i + n).value);
    } else {
      match MatchAt(items[1..], s, i + n)
      case Some(ends) => Shorter(i, other, [i] + ends);
      case None => GreatestOfCounts(items, s, other, n - 1);
    }
  }

  lemma Shorter(i: nat, a: seq<nat>, b: seq<nat>)
    requires |a| == |b| > 1 && a[0] == b[0] && a[1] < b[1]
    ensures LexAtMost(a, b)
  {
    assert a[..1] == b[..1];
  }

  /** The search finds a match exactly when there is one, and no other starts before it. */
  lemma {:induction false} Leftmost(items: seq<Item>, s: string, i: nat, other: seq<nat>)
    requires IsMatch(items, s, other) && i <= other[0] <= |s|
    ensures Search(items, s, i).Some? && Search(items, s, i).value[0] <= other[0]
    ensures Search(items, s, i) == MatchAt(items, s, Search(items, s, i).value[0])
    decreases |s| - i
  {
    if MatchAt(items, s, i).None? {
      if i == other[0] {
        MatchAtComplete(items, s, other);
      }
      Leftmost(items, s, i + 1, other);
    }
  }
}
