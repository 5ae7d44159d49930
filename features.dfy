/**
 * The feature encoder: each example is tokenized, truncated, laid out as
 * `[CLS] context [SEP] question [SEP] choice [SEP]`, turned into ids and
 * zero-padded to `maxSeqLength`; features are collected in groups of four.
 */
module Features {

  import opened Common
  import opened Truncation
  import opened Examples

  /** `n_class`: the number of choices per question and the size of a feature group. */
  const NumChoices: nat := 4

  const Cls: Token := "[CLS]"
  const Sep: Token := "[SEP]"

  /** One example as fixed-length vectors, with its label index. */
  datatype Feature = Feature(inputIds: seq<int>, inputMask: seq<int>, segmentIds: seq<int>, labelId: nat)

  /** `[v] * n`. */
  function Fill(n: nat, v: int): (r: seq<int>)
    ensures |r| == n && forall i | 0 <= i < n :: r[i] == v
  {
    seq(n, _ => v)
  }

  /** `convert_tokens_to_ids`: the vocabulary id of every token, position by position. */
  function TokensToIds(tokens: seq<Token>, vocab: Token -> int): (ids: seq<int>)
  {
    seq(|tokens|, i requires 0 <= i < |tokens| => vocab(tokens[i]))
  }

  /** The three token lists of an example after `_truncate_seq_tuple` with budget `maxSeqLength - 4`. */
  function Tokenized(ex: Example, tokenize: Text -> seq<Token>, maxSeqLength: nat): Triple
    requires maxSeqLength >= 4
  {
    Truncated(Triple(tokenize(ex.textA), tokenize(ex.textB), tokenize(ex.textC)), maxSeqLength - 4)
  }

  /** The real tokens: `[CLS] context [SEP] question [SEP] choice [SEP]`. */
  function Layout(t: Triple): seq<Token>
  {
    [Cls] + t.a + [Sep] + t.c + [Sep] + t.b + [Sep]
  }

  /**
   * `f` is the feature of `ex`: all three vectors have length `maxSeqLength`;
   * the ids start with the ids of the real tokens and are 0 after them; the
   * mask is 1 exactly on the real tokens; the segment id is 1 from the question
   * through the final `[SEP]` and 0 on `[CLS]`, the context, the first `[SEP]`
   * and the padding; the label is the example's.
   */
  ghost predicate IsFeatureOf(f: Feature, ex: Example, tokenize: Text -> seq<Token>,
                              vocab: Token -> int, maxSeqLength: nat)
    requires maxSeqLength >= 4
  {
    var t := Tokenized(ex, tokenize, maxSeqLength);
    var n := |Layout(t)|;
    |f.inputIds| == maxSeqLength && |f.inputMask| == maxSeqLength && |f.segmentIds| == maxSeqLength
    && n <= maxSeqLength
    && f.inputIds[..n] == TokensToIds(Layout(t), vocab)
    && (forall i | n <= i < maxSeqLength :: f.inputIds[i] == 0)
    && (forall i | 0 <= i < maxSeqLength :: f.inputMask[i] == if i < n then 1 else 0)
    && (forall i | 0 <= i < maxSeqLength :: f.segmentIds[i] == if |t.a| + 2 <= i < n then 1 else 0)
    && f.labelId == ex.labelIndex
  }

  /** The feature of one example, as a value. */
  function FeatureOf(ex: Example, tokenize: Text -> seq<Token>, vocab: Token -> int,
                     maxSeqLength: nat): (f: Feature)
    requires maxSeqLength >= 4
    ensures |f.inputIds| == |f.inputMask| == |f.segmentIds| == maxSeqLength
    ensures f.labelId == ex.labelIndex
  {
    var t := Tokenized(ex, tokenize, maxSeqLength);
    var n := |Layout(t)|;
    var pad := maxSeqLength - n;
    Feature(TokensToIds(Layout(t), vocab) + Fill(pad, 0),
            Fill(n, 1) + Fill(pad, 0),
            Fill(|t.a| + 2, 0) + Fill(n - |t.a| - 2, 1) + Fill(pad, 0),
            ex.labelIndex)
  }

  /** `FeatureOf` has the layout the encoder promises (the asserts at lines 251-253 and more). */
  lemma FeatureOfLayout(ex: Example, tokenize: Text -> seq<Token>, vocab: Token -> int, maxSeqLength: nat)
    requires maxSeqLength >= 4
    ensures IsFeatureOf(FeatureOf(ex, tokenize, vocab, maxSeqLength), ex, tokenize, vocab, maxSeqLength)
  {
    var t := Tokenized(ex, tokenize, maxSeqLength);
    var n := |Layout(t)|;
    var f := FeatureOf(ex, tokenize, vocab, maxSeqLength);
    assert f.inputIds[..n] == TokensToIds(Layout(t), vocab);
  }

  /**
   * The real-token prefix holds the three truncated lists plus four special
   * tokens, and its length is the untruncated length plus four whenever that
   * fits in `maxSeqLength`, else exactly `maxSeqLength`.
   */
  lemma RealTokenCount(ex: Example, tokenize: Text -> seq<Token>, maxSeqLength: nat)
    requires maxSeqLength >= 4
    ensures var t := Tokenized(ex, tokenize, maxSeqLength);
            var whole := |tokenize(ex.textA)| + |tokenize(ex.textB)| + |tokenize(ex.textC)|;
            |Layout(t)| == Total(t) + 4
            && |Layout(t)| == if whole + 4 <= maxSeqLength then whole + 4 else maxSeqLength
  {
  }

  /** The layout pins the feature down: two features of the same example are equal. */
  lemma FeatureUnique(f: Feature, g: Feature, ex: Example, tokenize: Text -> seq<Token>,
                      vocab: Token -> int, maxSeqLength: nat)
    requires maxSeqLength >= 4
    requires IsFeatureOf(f, ex, tokenize, vocab, maxSeqLength)
    requires IsFeatureOf(g, ex, tokenize, vocab, maxSeqLength)
    ensures f == g
  {
    var n := |Layout(Tokenized(ex, tokenize, maxSeqLength))|;
    assert forall i | 0 <= i < n :: f.inputIds[i] == f.inputIds[..n][i] == g.inputIds[..n][i] == g.inputIds[i];
    assert f.inputIds == g.inputIds;
    assert f.inputMask == g.inputMask;
    assert f.segmentIds == g.segmentIds;
  }

  /** Lines 220-237: the token list and its segment ids, built one token at a time. */
  method AssembleTokens(t: Triple) returns (tokens: seq<Token>, segmentIds: seq<int>)
    ensures tokens == Layout(t)
    ensures |segmentIds| == |tokens|
    ensures forall i | 0 <= i < |tokens| :: segmentIds[i] == if |t.a| + 2 <= i then 1 else 0
  {
    var tokensB := t.c + [Sep] + t.b;
    tokens := [Cls];
    segmentIds := [0];
    for i := 0 to |t.a|
      invariant tokens == [Cls] + t.a[..i]
      invariant segmentIds == Fill(i + 1, 0)
    {
      tokens := tokens + [t.a[i]];
      segmentIds := segmentIds + [0];
    }
    assert t.a[..|t.a|] == t.a;
    tokens := tokens + [Sep];
    segmentIds := segmentIds + [0];
    ghost var head := tokens;
    if tokensB != [] {
      for i := 0 to |tokensB|
        invariant tokens == head + tokensB[..i]
        invariant |segmentIds| == |tokens|
        invariant forall j | 0 <= j < |tokens| :: segmentIds[j] == if |t.a| + 2 <= j then 1 else 0
      {
        tokens := tokens + [tokensB[i]];
        segmentIds := segmentIds + [1];
      }
      assert tokensB[..|tokensB|] == tokensB;
      tokens := tokens + [Sep];
      segmentIds := segmentIds + [1];
    }
  }

  /**
   * The body of the loop of `convert_examples_to_features` for one example:
   * tokenize, truncate in place, assemble, convert to ids, pad with zeros.
   */
  method ConvertExample(ex: Example, tokenize: Text -> seq<Token>, vocab: Token -> int,
                        maxSeqLength: nat) returns (f: Feature)
    requires maxSeqLength >= 4
    ensures f == FeatureOf(ex, tokenize, vocab, maxSeqLength)
  {
    var tokensA := new TokenList(tokenize(ex.textA));
    var tokensB := new TokenList(tokenize(ex.textB));
    var tokensC := new TokenList(tokenize(ex.textC));
    TruncateSeqTuple(tokensA, tokensB, tokensC, maxSeqLength - 4);
    var t := Triple(tokensA.tokens, tokensB.tokens, tokensC.tokens);
    assert t == Tokenized(ex, tokenize, maxSeqLength);
    var tokens, segmentIds := AssembleTokens(t);
    var inputIds := TokensToIds(tokens, vocab);
    var inputMask := Fill(|inputIds|, 1);
    var n := |tokens|;
    while |inputIds| < maxSeqLength
      invariant n <= |inputIds| && |inputMask| == |inputIds| && |segmentIds| == |inputIds|
      invariant |inputIds| <= maxSeqLength
      invariant inputIds[..n] == TokensToIds(tokens, vocab)
      invariant forall i | n <= i < |inputIds| :: inputIds[i] == 0
      invariant forall i | 0 <= i < |inputMask| :: inputMask[i] == if i < n then 1 else 0
      invariant forall i | 0 <= i < |segmentIds| :: segmentIds[i] == if |t.a| + 2 <= i < n then 1 else 0
    {
      inputIds := inputIds + [0];
      inputMask := inputMask + [0];
      segmentIds := segmentIds + [0];
    }
    f := Feature(inputIds, inputMask, segmentIds, ex.labelIndex);
    FeatureOfLayout(ex, tokenize, vocab, maxSeqLength);
    FeatureUnique(f, FeatureOf(ex, tokenize, vocab, maxSeqLength), ex, tokenize, vocab, maxSeqLength);
  }

  /**
   * The shape of `features` inside the loop: at least one group, every group
   * before the last full, and the last one still open.
   */
  predicate Chunked(groups: seq<seq<Feature>>)
  {
    |groups| >= 1
    && (forall i | 0 <= i < |groups| - 1 :: |groups[i]| == NumChoices)
    && |groups[|groups| - 1]| < NumChoices
  }

  /** The number of features held by a chunked list of groups. */
  function ChunkedSize(groups: seq<seq<Feature>>): nat
    requires |groups| >= 1
  {
    NumChoices * (|groups| - 1) + |groups[|groups| - 1]|
  }

  /**
   * Lines 267-274: append the feature to the last group, and open a new empty
   * group once that one holds `n_class` features.
   */
  method PushFeature(groups: seq<seq<Feature>>, f: Feature) returns (r: seq<seq<Feature>>)
    requires Chunked(groups)
    ensures Chunked(r)
    ensures Concat(r) == Concat(groups) + [f]
    ensures ChunkedSize(r) == ChunkedSize(groups) + 1
  {
    AppendToLast(groups, f);
    r := groups[..|groups| - 1] + [groups[|groups| - 1] + [f]];
    if |r[|r| - 1]| == NumChoices {
      ConcatAppend(r, []);
      r := r + [[]];
    }
  }

  /**
   * `convert_examples_to_features`: one feature per example, in order, cut
   * into groups of `NumChoices`; a short trailing group is kept and only an
   * empty one is dropped.
   */
  method ConvertExamplesToFeatures(examples: seq<Example>, tokenize: Text -> seq<Token>,
                                   vocab: Token -> int, maxSeqLength: nat)
    returns (features: seq<seq<Feature>>)
    requires maxSeqLength >= 4
    ensures |Concat(features)| == |examples|
    ensures forall j | 0 <= j < |examples| ::
              Concat(features)[j] == FeatureOf(examples[j], tokenize, vocab, maxSeqLength)
    ensures forall g <- features :: 0 < |g| <= NumChoices
    ensures forall i | 0 <= i < |features| - 1 :: |features[i]| == NumChoices
    ensures |examples| % NumChoices == 0 ==> forall g <- features :: |g| == NumChoices
  {
    ghost var expected := seq(|examples|, j requires 0 <= j < |examples| =>
                                FeatureOf(examples[j], tokenize, vocab, maxSeqLength));
    features := [[]];
    for exIndex := 0 to |examples|
      invariant Chunked(features) && ChunkedSize(features) == exIndex
      invariant Concat(features) == expected[..exIndex]
    {
      var f := ConvertExample(examples[exIndex], tokenize, vocab, maxSeqLength);
      assert expected[..exIndex + 1] == expected[..exIndex] + [f];
      features := PushFeature(features, f);
    }
    assert expected[..|examples|] == expected;
    DropEmptyLast(features);
    if |features[|features| - 1]| == 0 {
      features := features[..|features| - 1];
    }
  }

  /**
   * Lines 276-277: dropping the last group when it is empty keeps every
   * feature, leaves no empty group, and leaves only full groups when the
   * number of features is a multiple of `n_class`.
   */
  lemma DropEmptyLast(groups: seq<seq<Feature>>)
    requires Chunked(groups)
    ensures var r := if |groups[|groups| - 1]| == 0 then groups[..|groups| - 1] else groups;
            Concat(r) == Concat(groups)
            && (forall g <- r :: 0 < |g| <= NumChoices)
            && (forall i | 0 <= i < |r| - 1 :: |r[i]| == NumChoices)
            && (ChunkedSize(groups) % NumChoices == 0 ==> forall g <- r :: |g| == NumChoices)
  {
    var n := |groups| - 1;
    var init := groups[..n];
    assert groups == init + [groups[n]];
    ConcatAppend(init, groups[n]);
    forall g <- init
      ensures |g| == NumChoices
    {
      var i :| 0 <= i < n && init[i] == g;
      assert groups[i] == g;
    }
    assert ChunkedSize(groups) % NumChoices == |groups[n]|;
  }

  lemma AppendToLast<T>(groups: seq<seq<T>>, x: T)
    requires groups != []
    ensures Concat(groups[..|groups| - 1] + [groups[|groups| - 1] + [x]]) == Concat(groups) + [x]
  {
    ConcatAppend(groups[..|groups| - 1], groups[|groups| - 1] + [x]);
  }

  /** Example `j` of a concatenation of full groups is member `j % NumChoices` of group `j / NumChoices`. */
  lemma {:induction false} ConcatFullGroups<T>(groups: seq<seq<T>>, i: nat, k: nat)
    requires forall g <- groups :: |g| == NumChoices
    requires i < |groups| && k < NumChoices
    ensures |Concat(groups)| == NumChoices * |groups|
    ensures Concat(groups)[NumChoices * i + k] == groups[i][k]
  {
    var init := groups[..|groups| - 1];
    assert groups == init + [groups[|groups| - 1]];
    assert forall g <- init :: g in groups;
    if |init| > 0 {
      ConcatFullGroups(init, 0, 0);
    }
    if i < |groups| - 1 {
      ConcatFullGroups(init, i, k);
    }
  }

  /** One training row of four choices, as built for the tensors of a data loader. */
  datatype Row = Row(inputIds: seq<seq<int>>, inputMask: seq<seq<int>>, segmentIds: seq<seq<int>>,
                     labelId: seq<nat>)

  /**
   * `row` is the row of group `g`: the id, mask and segment vectors of the
   * group's first four features side by side, in order, and the label of its
   * first feature.
   */
  predicate IsRowOf(row: Row, g: seq<Feature>)
    requires |g| >= NumChoices
  {
    |row.inputIds| == NumChoices && |row.inputMask| == NumChoices && |row.segmentIds| == NumChoices
    && row.labelId == [g[0].labelId]
    && forall i | 0 <= i < NumChoices ::
         row.inputIds[i] == g[i].inputIds && row.inputMask[i] == g[i].inputMask
         && row.segmentIds[i] == g[i].segmentIds
  }

  /** Lines 334-341 for one group: `for i in range(n_class)` appends feature `i`'s vectors. */
  method BuildRow(g: seq<Feature>) returns (row: Row)
    requires |g| >= NumChoices
    ensures IsRowOf(row, g)
  {
    var ids, mask, segments := [], [], [];
    for i := 0 to NumChoices
      invariant |ids| == i && |mask| == i && |segments| == i
      invariant forall i' | 0 <= i' < i ::
                  ids[i'] == g[i'].inputIds && mask[i'] == g[i'].inputMask && segments[i'] == g[i'].segmentIds
    {
      ids := ids + [g[i].inputIds];
      mask := mask + [g[i].inputMask];
      segments := segments + [g[i].segmentIds];
    }
    row := Row(ids, mask, segments, [g[0].labelId]);
  }

  /**
   * The row building of `feature2dataloader`: one row per group, in order. A
   * group with fewer than four features makes the source fail with IndexError.
   */
  method BuildRows(groups: seq<seq<Feature>>) returns (rows: seq<Row>)
    requires forall g <- groups :: |g| >= NumChoices
    ensures |rows| == |groups|
    ensures forall r | 0 <= r < |rows| :: |groups[r]| >= NumChoices && IsRowOf(rows[r], groups[r])
  {
    rows := [];
    for r := 0 to |groups|
      invariant |rows| == r
      invariant forall r' | 0 <= r' < r :: |groups[r']| >= NumChoices && IsRowOf(rows[r'], groups[r'])
    {
      assert groups[r] in groups;
      var row := BuildRow(groups[r]);
      rows := rows + [row];
    }
  }

  /**
   * Lines 532-537 with 623-628: the examples of one corpus list, converted to
   * feature groups. Group `i` holds the four choices of record `i`, in slot
   * order, and each of its features carries the label `answer` held after
   * record `i`.
   */
  method RecordFeatures(data: seq<Record>, setType: string, tokenize: Text -> seq<Token>,
                        vocab: Token -> int, maxSeqLength: nat) returns (groups: seq<seq<Feature>>)
    requires data != [] ==> LastMatch(data[0]).Some?
    requires maxSeqLength >= 4
    ensures |groups| == |data|
    ensures forall i | 0 <= i < |groups| :: |groups[i]| == NumChoices
    ensures forall i, k | 0 <= i < |groups| && 0 <= k < NumChoices ::
              LabelAt(data, i) == Some(groups[i][k].labelId)
              && groups[i][k] == FeatureOf(Example(Guid(setType, i, k), data[i][0], Choice(data[i], k),
                                                   data[i][1], groups[i][k].labelId),
                                           tokenize, vocab, maxSeqLength)
  {
    var examples := CreateExamples(data, setType);
    ExamplesCount(data, setType, |data|);
    groups := ConvertExamplesToFeatures(examples, tokenize, vocab, maxSeqLength);
    if groups != [] {
      ConcatFullGroups(groups, 0, 0);
    }
    assert |groups| == |data|;
    forall i, k | 0 <= i < |groups| && 0 <= k < NumChoices
      ensures LabelAt(data, i) == Some(groups[i][k].labelId)
              && groups[i][k] == FeatureOf(Example(Guid(setType, i, k), data[i][0], Choice(data[i], k),
                                                   data[i][1], groups[i][k].labelId),
                                           tokenize, vocab, maxSeqLength)
    {
      ConcatFullGroups(groups, i, k);
      ExampleAt(data, setType, |data|, i, k);
      assert Concat(groups)[NumChoices * i + k] == groups[i][k];
      assert groups[i][k] == FeatureOf(examples[NumChoices * i + k], tokenize, vocab, maxSeqLength);
    }
  }
}
