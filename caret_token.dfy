/**
 * The token under the caret: the run of "word" characters around a caret offset
 * in a line of text. Both the command handler (to decide whether a suggestion is
 * needed) and the completion source (to decide what to translate) compute it with
 * the same LINQ expression, `Reverse().TakeWhile(q).Count()` to the left of the
 * caret and `TakeWhile(q).Count()` to its right; this module models it once.
 */
module CaretToken {

  /** A UTF-16 code unit, the element type of a .NET string. */
  newtype CodeUnit = x: int | 0 <= x < 0x1_0000

  /**
   * The Unicode category tests of the .NET runtime (`char.IsControl`,
   * `char.IsPunctuation`, `char.IsSeparator`, `char.IsSymbol`,
   * `char.IsWhiteSpace`). Their tables are not modelled: every lemma below holds
   * for every choice of the five tests.
   */
  datatype CharClasses = CharClasses(
    isControl: CodeUnit -> bool,
    isPunctuation: CodeUnit -> bool,
    isSeparator: CodeUnit -> bool,
    isSymbol: CodeUnit -> bool,
    isWhiteSpace: CodeUnit -> bool)

  /** A code unit belongs to a token: above the Latin-1 range and in none of the five categories. */
  predicate Qualifies(k: CharClasses, c: CodeUnit)
  {
    c > 0xFF && !k.isControl(c) && !k.isPunctuation(c) && !k.isSeparator(c)
    && !k.isSymbol(c) && !k.isWhiteSpace(c)
  }

  /** `string.IsNullOrWhiteSpace` on a (non-null) string. */
  predicate IsBlank(k: CharClasses, t: seq<CodeUnit>)
  {
    forall i :: 0 <= i < |t| ==> k.isWhiteSpace(t[i])
  }

  /** LINQ `Reverse`. */
  function Reverse<T>(xs: seq<T>): (r: seq<T>)
    ensures |r| == |xs|
    ensures forall i :: 0 <= i < |xs| ==> r[i] == xs[|xs| - 1 - i]
  {
    if xs == [] then [] else Reverse(xs[1..]) + [xs[0]]
  }

  /** LINQ `TakeWhile`: the longest prefix of `xs` whose elements all satisfy `keep`. */
  function TakeWhile<T>(xs: seq<T>, keep: T -> bool): (r: seq<T>)
    ensures |r| <= |xs| && r == xs[..|r|]
    ensures forall i :: 0 <= i < |r| ==> keep(r[i])
    ensures |r| < |xs| ==> !keep(xs[|r|])
  {
    if xs == [] || !keep(xs[0]) then [] else [xs[0]] + TakeWhile(xs[1..], keep)
  }

  /**
   * The two counts of the scan: `head` qualifying code units immediately left of
   * the caret, `tail` immediately right of it.
   */
  datatype Token = Token(head: nat, tail: nat)
  {
    /** `head + tail`, the token's length. */
    function Length(): nat { head + tail }
  }

  /** Every code unit of `s[lo..hi]` qualifies. */
  predicate AllQualify(k: CharClasses, s: seq<CodeUnit>, lo: int, hi: int)
    requires 0 <= lo <= hi <= |s|
  {
    forall i :: lo <= i < hi ==> Qualifies(k, s[i])
  }

  /**
   * The number of qualifying code units immediately left of offset `p`:
   * what `s.Substring(0, p).Reverse().TakeWhile(q).Count()` computes (see `HeadIsLinq`).
   */
  function Head(k: CharClasses, s: seq<CodeUnit>, p: nat): (head: nat)
    requires p <= |s|
    ensures head <= p
    ensures AllQualify(k, s, p - head, p)
    ensures head < p ==> !Qualifies(k, s[p - head - 1])
  {
    if p == 0 || !Qualifies(k, s[p - 1]) then 0 else Head(k, s, p - 1) + 1
  }

  /**
   * The number of qualifying code units immediately right of offset `p`:
   * what `s.Substring(p).TakeWhile(q).Count()` computes (see `TailIsLinq`).
   */
  function Tail(k: CharClasses, s: seq<CodeUnit>, p: nat): (tail: nat)
    requires p <= |s|
    ensures tail <= |s| - p
    ensures AllQualify(k, s, p, p + tail)
    ensures p + tail < |s| ==> !Qualifies(k, s[p + tail])
    decreases |s| - p
  {
    if p == |s| || !Qualifies(k, s[p]) then 0 else Tail(k, s, p + 1) + 1
  }

  /** A count `n` that meets `TakeWhile`'s two conditions on `xs` is the length of `TakeWhile(xs, keep)`. */
  lemma TakeWhileLength<T>(xs: seq<T>, keep: T -> bool, n: nat)
    requires n <= |xs|
    requires forall i :: 0 <= i < n ==> keep(xs[i])
    requires n < |xs| ==> !keep(xs[n])
    ensures |TakeWhile(xs, keep)| == n
  {
  }

  /** `Head` is the LINQ expression `s.Substring(0, p).Reverse().TakeWhile(q).Count()`. */
  lemma HeadIsLinq(k: CharClasses, s: seq<CodeUnit>, p: nat)
    requires p <= |s|
    ensures Head(k, s, p) == |TakeWhile(Reverse(s[..p]), c => Qualifies(k, c))|
  {
    var left := Reverse(s[..p]);
    var head := Head(k, s, p);
    forall i | 0 <= i < head
      ensures Qualifies(k, left[i])
    {
      assert left[i] == s[p - 1 - i];
    }
    if head < p {
      assert left[head] == s[p - head - 1];
    }
    TakeWhileLength(left, c => Qualifies(k, c), head);
  }

  /** `Tail` is the LINQ expression `s.Substring(p).TakeWhile(q).Count()`. */
  lemma TailIsLinq(k: CharClasses, s: seq<CodeUnit>, p: nat)
    requires p <= |s|
    ensures Tail(k, s, p) == |TakeWhile(s[p..], c => Qualifies(k, c))|
  {
    var right := s[p..];
    var tail := Tail(k, s, p);
    forall i | 0 <= i < tail
      ensures Qualifies(k, right[i])
    {
      assert right[i] == s[p + i];
    }
    TakeWhileLength(right, c => Qualifies(k, c), tail);
  }

  /** The scan at caret offset `p` of line `s`. */
  function Scan(k: CharClasses, s: seq<CodeUnit>, p: nat): (t: Token)
    requires p <= |s|
    ensures t.head <= p && t.tail <= |s| - p
    ensures AllQualify(k, s, p - t.head, p + t.tail)
    ensures p - t.head > 0 ==> !Qualifies(k, s[p - t.head - 1])
    ensures p + t.tail < |s| ==> !Qualifies(k, s[p + t.tail])
  {
    Token(Head(k, s, p), Tail(k, s, p))
  }

  /** `s.Substring(p - head, length)`: the text of the token at offset `p`. */
  function TokenText(k: CharClasses, s: seq<CodeUnit>, p: nat): (t: seq<CodeUnit>)
    requires p <= |s|
    ensures |t| == Scan(k, s, p).Length()
    ensures t == s[p - Scan(k, s, p).head .. p - Scan(k, s, p).head + |t|]
    ensures forall i :: 0 <= i < |t| ==> Qualifies(k, t[i])
  {
    var tok := Scan(k, s, p);
    var t := s[p - tok.head .. p + tok.tail];
    assert forall i :: 0 <= i < |t| ==> t[i] == s[p - tok.head + i];
    t
  }

  /**
   * The token is the largest qualifying run around the caret: any range
   * `[lo, hi)` that contains `p` and consists of qualifying code units lies
   * inside `[p - head, p + tail)`.
   */
  lemma TokenIsMaximal(k: CharClasses, s: seq<CodeUnit>, p: nat, lo: nat, hi: nat)
    requires lo <= p <= hi <= |s|
    requires AllQualify(k, s, lo, hi)
    ensures p - Scan(k, s, p).head <= lo
    ensures hi <= p + Scan(k, s, p).tail
  {
  }

  /** The token is non-empty exactly when a neighbour of the caret qualifies. */
  lemma TokenNonEmptyIffNeighbourQualifies(k: CharClasses, s: seq<CodeUnit>, p: nat)
    requires p <= |s|
    ensures Scan(k, s, p).Length() != 0
        <==> (p > 0 && Qualifies(k, s[p - 1])) || (p < |s| && Qualifies(k, s[p]))
  {
    var tok := Scan(k, s, p);
    if p > 0 && Qualifies(k, s[p - 1]) {
      TokenIsMaximal(k, s, p, p - 1, p);
    }
    if p < |s| && Qualifies(k, s[p]) {
      TokenIsMaximal(k, s, p, p, p + 1);
    }
  }

  /** A line made only of Latin-1 code units never yields a token, at any offset. */
  lemma Latin1LineHasNoToken(k: CharClasses, s: seq<CodeUnit>, p: nat)
    requires p <= |s|
    requires forall i :: 0 <= i < |s| ==> s[i] <= 0xFF
    ensures Scan(k, s, p).Length() == 0
    ensures TokenText(k, s, p) == []
  {
    TokenNonEmptyIffNeighbourQualifies(k, s, p);
  }

  /** On a line made only of qualifying code units the token is the whole line. */
  lemma WholeRunIsToken(k: CharClasses, s: seq<CodeUnit>, p: nat)
    requires p <= |s|
    requires AllQualify(k, s, 0, |s|)
    ensures TokenText(k, s, p) == s
  {
    TokenIsMaximal(k, s, p, 0, |s|);
  }

  /**
   * `string.IsNullOrWhiteSpace` of the token text is false exactly when the
   * token is non-empty, because no qualifying code unit is white space.
   */
  lemma TokenBlankIffEmpty(k: CharClasses, s: seq<CodeUnit>, p: nat)
    requires p <= |s|
    ensures IsBlank(k, TokenText(k, s, p)) <==> Scan(k, s, p).Length() == 0
  {
    var t := TokenText(k, s, p);
    if |t| > 0 {
      assert Qualifies(k, t[0]);
    }
  }
}
