/** `strings.Index`, `strings.Count` and `strings.ReplaceAll` of a non-empty substring: both work on the
    leftmost occurrences that do not overlap. */
module Strings {

  predicate OccursAt(s: string, sub: string, i: nat) {
    i + |sub| <= |s| && s[i..i + |sub|] == sub
  }

  /** The first occurrence, or -1. */
  function Index(s: string, sub: string): (i: int)
    requires sub != ""
    ensures -1 <= i && (i >= 0 ==> OccursAt(s, sub, i) && forall j: nat :: j < i ==> !OccursAt(s, sub, j))
    ensures i == -1 ==> forall j: nat :: !OccursAt(s, sub, j)
  {
    IndexFrom(s, sub, 0)
  }

  function IndexFrom(s: string, sub: string, from: nat): (i: int)
    requires sub != "" && forall j: nat :: j < from ==> !OccursAt(s, sub, j)
    ensures -1 <= i && (i >= 0 ==> OccursAt(s, sub, i) && forall j: nat :: j < i ==> !OccursAt(s, sub, j))
    ensures i == -1 ==> forall j: nat :: !OccursAt(s, sub, j)
    decreases |s| - from
  {
    if from + |sub| > |s| then -1 else if OccursAt(s, sub, from) then from else IndexFrom(s, sub, from + 1)
  }

  function Count(s: string, sub: string): nat
    requires sub != ""
    decreases |s|
  {
    var i := Index(s, sub);
    if i < 0 then 0 else 1 + Count(s[i + |sub|..], sub)
  }

  function ReplaceAll(s: string, old_: string, new_: string): string
    requires old_ != ""
    decreases |s|
  {
    var i := Index(s, old_);
    if i < 0 then s else s[..i] + new_ + ReplaceAll(s[i + |old_|..], old_, new_)
  }

  // ---- the text between the occurrences ---------------------------------------------------

  function Pieces(s: string, sub: string): (p: seq<string>)
    requires sub != ""
    ensures p != []
    decreases |s|
  {
    var i := Index(s, sub);
    if i < 0 then [s] else [s[..i]] + Pieces(s[i + |sub|..], sub)
  }

  function Join(pieces: seq<string>, sep: string): string
    requires pieces != []
  {
    if |pieces| == 1 then pieces[0] else pieces[0] + sep + Join(pieces[1..], sep)
  }

  /** Counting and replacing see the same occurrences: there is one fewer than there are pieces, the pieces
      joined by what was replaced are the text, and joined by the replacement they are the result. */
  lemma {:induction false} CountAndReplaceAgree(s: string, old_: string, new_: string)
    requires old_ != ""
    ensures |Pieces(s, old_)| == Count(s, old_) + 1
    ensures Join(Pieces(s, old_), old_) == s
    ensures Join(Pieces(s, old_), new_) == ReplaceAll(s, old_, new_)
    decreases |s|
  {
    var i := Index(s, old_);
    if i >= 0 {
      var rest := s[i + |old_|..];
      CountAndReplaceAgree(rest, old_, new_);
      var p := Pieces(s, old_);
      assert p[1..] == Pieces(rest, old_) && p[0] == s[..i];
      assert s == s[..i] + old_ + rest;
    }
  }

  /** Each replacement changes the length by the difference of the two strings. */
  lemma {:induction false} ReplaceLength(s: string, old_: string, new_: string)
    requires old_ != ""
    ensures |ReplaceAll(s, old_, new_)| == |s| + Count(s, old_) * (|new_| - |old_|)
    decreases |s|
  {
    var i := Index(s, old_);
    if i >= 0 {
      var rest := s[i + |old_|..];
      ReplaceLength(rest, old_, new_);
      assert |ReplaceAll(s, old_, new_)| == i + |new_| + |ReplaceAll(rest, old_, new_)| && |s| == i + |old_| + |rest|;
      assert Count(s, old_) == 1 + Count(rest, old_);
      OneMore(Count(rest, old_), |new_| - |old_|);
      hide ReplaceAll, Count, Index;
    }
  }

  lemma OneMore(n: nat, d: int)
    ensures (1 + n) * d == d + n * d
  {}

  /** No occurrence is left inside a piece. */
  lemma {:induction false} PiecesFree(s: string, sub: string, k: nat, j: nat)
    requires sub != "" && k < |Pieces(s, sub)|
    ensures !OccursAt(Pieces(s, sub)[k], sub, j)
    decreases |s|
  {
    var i := Index(s, sub);
    if i >= 0 && k == 0 && OccursAt(s[..i], sub, j) {
      assert s[..i][j..j + |sub|] == s[j..j + |sub|];
      assert OccursAt(s, sub, j);
    } else if i >= 0 && k > 0 {
      PiecesFree(s[i + |sub|..], sub, k - 1, j);
    }
  }

  /** `sub` occurs in `s` at `i`, not before, and not in what follows. */
  ghost predicate OnlyAt(s: string, sub: string, i: nat) {
    OccursAt(s, sub, i) && (forall j: nat :: j < i ==> !OccursAt(s, sub, j)) && forall j: nat :: i + |sub| <= j ==> !OccursAt(s, sub, j)
  }

  lemma OccursInRest(s: string, sub: string, from: nat, j: nat)
    requires from <= |s|
    ensures OccursAt(s[from..], sub, j) <==> OccursAt(s, sub, from + j)
  {
    if from + j + |sub| <= |s| {
      assert s[from..][j..j + |sub|] == s[from + j..from + j + |sub|];
    }
  }

  lemma OnlyAtFirst(s: string, sub: string)
    requires sub != "" && Index(s, sub) >= 0
    ensures forall k: nat :: OnlyAt(s, sub, k) <==> k == Index(s, sub) && Index(s[Index(s, sub) + |sub|..], sub) < 0
  {
    var i := Index(s, sub);
    var from := i + |sub|;
    hide OccursAt;
    forall j: nat
      ensures OccursAt(s[from..], sub, j) <==> OccursAt(s, sub, from + j)
    {
      OccursInRest(s, sub, from, j);
    }
    forall j: nat | from <= j
      ensures OccursAt(s, sub, j) <==> OccursAt(s[from..], sub, j - from)
    {
      OccursInRest(s, sub, from, j - from);
    }
  }

  /** What a count of one means, and what is then replaced. */
  lemma CountOneIff(s: string, sub: string, new_: string)
    requires sub != ""
    ensures Count(s, sub) == 1 <==> exists i: nat :: OnlyAt(s, sub, i)
    ensures forall i: nat :: OnlyAt(s, sub, i) ==> ReplaceAll(s, sub, new_) == s[..i] + new_ + s[i + |sub|..]
  {
    var i := Index(s, sub);
    if i >= 0 {
      var rest := s[i + |sub|..];
      OnlyAtFirst(s, sub);
      hide OnlyAt, Index, OccursAt;
      assert Count(s, sub) == 1 + Count(rest, sub);
      assert Index(rest, sub) < 0 ==> OnlyAt(s, sub, i);
    }
  }
}
