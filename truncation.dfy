/**
 * Greedy longest-first truncation of the three token lists of one example
 * (`_truncate_seq_tuple`). At its only call site `a` holds the context, `b`
 * the choice and `c` the question, so ties go context, then choice, then
 * question.
 */
module Truncation {

  type Token = string

  /** A Python list of tokens, shared by reference and shortened in place by `pop()`. */
  class TokenList {
    var tokens: seq<Token>

    constructor (tokens: seq<Token>)
      ensures this.tokens == tokens
    {
      this.tokens := tokens;
    }

    /** `list.pop()`: removes and returns the last token. */
    method Pop() returns (t: Token)
      requires tokens != []
      modifies this
      ensures old(tokens) == tokens + [t]
    {
      t := tokens[|tokens| - 1];
      tokens := tokens[..|tokens| - 1];
    }
  }

  /** The three lists as values: context, choice, question. */
  datatype Triple = Triple(a: seq<Token>, b: seq<Token>, c: seq<Token>)

  function Total(t: Triple): nat
  {
    |t.a| + |t.b| + |t.c|
  }

  /** Every list of `t` is a prefix of the corresponding list of `orig`. */
  predicate Prefixes(t: Triple, orig: Triple)
  {
    t.a <= orig.a && t.b <= orig.b && t.c <= orig.c
  }

  /**
   * One pass of the loop body: exactly one token is dropped, from the end of a
   * longest list; a list is chosen only if every list ahead of it in the order
   * a, b, c is strictly shorter.
   */
  function PopLongest(t: Triple): (r: Triple)
    requires Total(t) > 0
    ensures Total(r) + 1 == Total(t) && Prefixes(r, t)
    ensures |r.a| < |t.a| ==> |t.a| >= |t.b| && |t.a| >= |t.c|
    ensures |r.b| < |t.b| ==> |t.b| > |t.a| && |t.b| >= |t.c|
    ensures |r.c| < |t.c| ==> |t.c| > |t.a| && |t.c| > |t.b|
  {
    if |t.a| >= |t.b| && |t.a| >= |t.c| then
      Triple(t.a[..|t.a| - 1], t.b, t.c)
    else if |t.b| >= |t.a| && |t.b| >= |t.c| then
      Triple(t.a, t.b[..|t.b| - 1], t.c)
    else
      Triple(t.a, t.b, t.c[..|t.c| - 1])
  }

  /**
   * What the loop leaves behind: pop from the longest list until the total fits.
   * Only the ends of the lists are cut, and the total becomes exactly
   * `maxLength` when it did not fit already.
   */
  function Truncated(t: Triple, maxLength: nat): (r: Triple)
    ensures Prefixes(r, t)
    ensures Total(r) == if Total(t) <= maxLength then Total(t) else maxLength
    ensures Total(t) <= maxLength ==> r == t
    decreases Total(t)
  {
    if Total(t) <= maxLength then t else Truncated(PopLongest(t), maxLength)
  }

  /**
   * The shape greedy longest-first truncation leaves: a list that lost tokens is
   * at least as long as every list ahead of it in the order a, b, c, and at most
   * one token shorter than any list behind it.
   */
  predicate Balanced(t: Triple, orig: Triple)
  {
    (|t.a| < |orig.a| ==> |t.b| <= |t.a| + 1 && |t.c| <= |t.a| + 1) &&
    (|t.b| < |orig.b| ==> |t.a| <= |t.b| && |t.c| <= |t.b| + 1) &&
    (|t.c| < |orig.c| ==> |t.a| <= |t.c| && |t.b| <= |t.c|)
  }

  lemma PopKeepsBalanced(t: Triple, orig: Triple)
    requires Total(t) > 0 && Prefixes(t, orig) && Balanced(t, orig)
    ensures Prefixes(PopLongest(t), orig) && Balanced(PopLongest(t), orig)
  {
  }

  lemma {:induction false} TruncatedFrom(t: Triple, orig: Triple, maxLength: nat)
    requires Prefixes(t, orig) && Balanced(t, orig)
    ensures Balanced(Truncated(t, maxLength), orig)
    decreases Total(t)
  {
    if Total(t) > maxLength {
      PopKeepsBalanced(t, orig);
      TruncatedFrom(PopLongest(t), orig, maxLength);
    }
  }

  /** The result of the greedy loop is balanced with respect to its input. */
  lemma TruncatedBalanced(t: Triple, maxLength: nat)
    ensures Balanced(Truncated(t, maxLength), t)
  {
    TruncatedFrom(t, t, maxLength);
  }

  /**
   * Two results that cut the same input to prefixes of the same total and both
   * keep the balanced shape are the same: the shape alone pins the greedy result.
   */
  lemma BalancedUnique(t: Triple, r1: Triple, r2: Triple)
    requires Prefixes(r1, t) && Prefixes(r2, t) && Total(r1) == Total(r2)
    requires Balanced(r1, t) && Balanced(r2, t)
    ensures r1 == r2
  {
    assert |r1.a| == |r2.a| && |r1.b| == |r2.b| && |r1.c| == |r2.c|;
  }

  /**
   * The greedy loop's result is exactly the triple of prefixes whose total is
   * the smaller of the old total and `maxLength` and whose shape is balanced.
   */
  lemma TruncatedCharacterized(t: Triple, maxLength: nat, r: Triple)
    ensures r == Truncated(t, maxLength)
        <==> Prefixes(r, t) && Balanced(r, t)
             && Total(r) == (if Total(t) <= maxLength then Total(t) else maxLength)
  {
    TruncatedBalanced(t, maxLength);
    if Prefixes(r, t) && Balanced(r, t)
       && Total(r) == (if Total(t) <= maxLength then Total(t) else maxLength) {
      BalancedUnique(t, r, Truncated(t, maxLength));
    }
  }

  /** `_truncate_seq_tuple`: shortens the three lists in place until they fit. */
  method TruncateSeqTuple(a: TokenList, b: TokenList, c: TokenList, maxLength: nat)
    requires a != b && b != c && a != c
    modifies a, b, c
    ensures Triple(a.tokens, b.tokens, c.tokens)
         == Truncated(Triple(old(a.tokens), old(b.tokens), old(c.tokens)), maxLength)
  {
    while true
      invariant Truncated(Triple(a.tokens, b.tokens, c.tokens), maxLength)
             == Truncated(Triple(old(a.tokens), old(b.tokens), old(c.tokens)), maxLength)
      decreases |a.tokens| + |b.tokens| + |c.tokens|
    {
      var totalLength := |a.tokens| + |b.tokens| + |c.tokens|;
      if totalLength <= maxLength {
        break;
      }
      if |a.tokens| >= |b.tokens| && |a.tokens| >= |c.tokens| {
        var _ := a.Pop();
      } else if |b.tokens| >= |a.tokens| && |b.tokens| >= |c.tokens| {
        var _ := b.Pop();
      } else {
        var _ := c.Pop();
      }
    }
  }
}
