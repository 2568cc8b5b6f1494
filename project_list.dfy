/** The list operations the extension applies to its ordered list of
    bookmarked project paths: the `indexOf` duplicate test, the
    `splice(index, 1)` removal, and the repeated removal rounds of the
    "list project" command. */
module ProjectList {
  import opened Wrappers

  /** JavaScript's `Array.prototype.indexOf` on a list of strings:
      the first position holding `x`, or -1 when there is none. */
  function IndexOf(s: seq<string>, x: string): (r: int)
    ensures -1 <= r < |s|
    ensures r >= 0 <==> x in s
    ensures r >= 0 ==> s[r] == x && x !in s[..r]
  {
    if s == [] then -1
    else if s[0] == x then 0
    else
      var k := IndexOf(s[1..], x);
      if k < 0 then -1 else k + 1
  }

  /** JavaScript's `splice(index, 1)`: a negative index counts from the
      end (clamped at 0), an index at or past the end removes nothing. */
  function Splice(s: seq<string>, index: int): seq<string>
  {
    var start := if index < 0 then (if |s| + index < 0 then 0 else |s| + index)
                 else (if index > |s| then |s| else index);
    if start < |s| then s[..start] + s[start + 1..] else s
  }

  /** A removal takes at most one element, and takes one exactly when
      the list is non-empty and the index is before its end (a negative
      index always reaches an element). */
  lemma SpliceLength(s: seq<string>, index: int)
    ensures |Splice(s, index)| == |s| || |Splice(s, index)| == |s| - 1
    ensures |Splice(s, index)| == |s| - 1 <==> s != [] && index < |s|
  {
  }

  /** A removal at a position inside the list deletes exactly that
      element: everything before it is kept in place, everything after it
      moves one position earlier, and no other element is lost or added. */
  lemma SpliceRemovesAt(s: seq<string>, i: int)
    requires 0 <= i < |s|
    ensures |Splice(s, i)| == |s| - 1
    ensures Splice(s, i)[..i] == s[..i]
    ensures forall j :: i <= j < |s| - 1 ==> Splice(s, i)[j] == s[j + 1]
    ensures multiset(Splice(s, i)) + multiset{s[i]} == multiset(s)
  {
    var r := Splice(s, i);
    assert r == s[..i] + s[i + 1..];
    assert s == s[..i] + [s[i]] + s[i + 1..];
  }

  /** A removal at a position past the end changes nothing. */
  lemma SplicePastEndKeeps(s: seq<string>, i: int)
    requires i >= |s|
    ensures Splice(s, i) == s
  {
  }

  /** The rounds of "list project" end, leaving the list as it is, when
      the list is empty, when no answer remains, or when the answer is a
      dismissal (no selection, or a position no item occupies). */
  predicate RoundsEnd(ps: seq<string>, picks: seq<Option<nat>>, round: nat)
  {
    round >= |picks| || ps == [] || picks[round].None? || picks[round].value >= |ps|
  }

  /** The list left after the removal rounds of "list project" starting at
      answer `round`: each answer that selects the project at a position of
      the current list removes it, and the next answer applies to the
      shorter list, until the rounds end. */
  function Removals(ps: seq<string>, picks: seq<Option<nat>>, round: nat): seq<string>
    decreases |picks| - round
  {
    if RoundsEnd(ps, picks, round) then ps
    else Removals(Splice(ps, picks[round].value), picks, round + 1)
  }

  /** The rounds only take projects away: every path left afterwards was
      in the list before, at most as many times. */
  lemma {:induction false} RemovalsSubMultiset(ps: seq<string>, picks: seq<Option<nat>>, round: nat)
    ensures multiset(Removals(ps, picks, round)) <= multiset(ps)
    decreases |picks| - round
  {
    if !RoundsEnd(ps, picks, round) {
      SpliceRemovesAt(ps, picks[round].value);
      RemovalsSubMultiset(Splice(ps, picks[round].value), picks, round + 1);
    }
  }

  /** Each round removes exactly one project: the rounds never lengthen
      the list, a round that does not end shortens it, and there are never
      more removals than answers. */
  lemma {:induction false} RemovalsBound(ps: seq<string>, picks: seq<Option<nat>>, round: nat)
    requires round <= |picks|
    ensures |Removals(ps, picks, round)| <= |ps|
    ensures !RoundsEnd(ps, picks, round) ==> |Removals(ps, picks, round)| < |ps|
    ensures |ps| - |Removals(ps, picks, round)| <= |picks| - round
    decreases |picks| - round
  {
    if !RoundsEnd(ps, picks, round) {
      SpliceLength(ps, picks[round].value);
      RemovalsBound(Splice(ps, picks[round].value), picks, round + 1);
    }
  }

  /** n answers that each select a project inside the current list empty
      a list of n projects: the picker is shown again after every removal
      until the list is empty, whichever projects are chosen. */
  lemma {:induction false} InRangeAnswersEmpty(ps: seq<string>, picks: seq<Option<nat>>, round: nat)
    requires |picks| - round >= |ps|
    requires forall k :: round <= k < round + |ps| ==> picks[k].Some? && picks[k].value < |ps| - (k - round)
    ensures Removals(ps, picks, round) == []
    decreases |ps|
  {
    if ps != [] {
      SpliceLength(ps, picks[round].value);
      InRangeAnswersEmpty(Splice(ps, picks[round].value), picks, round + 1);
    }
  }
}
