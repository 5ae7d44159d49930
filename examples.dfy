/**
 * The example store of the C3 processor: every question of a passage is
 * flattened into one record `[context, question, choice0..choice3, answer]`
 * (choices padded with "" up to four), and every record becomes four examples,
 * one per choice slot, that share the record's label.
 */
module Examples {

  import opened Common

  type Text = string

  /** One question of a corpus passage, as read from the corpus files. */
  datatype Question = Question(question: Text, choices: seq<Text>, answer: Text)

  /** One corpus passage: its context lines and its questions. */
  datatype Passage = Passage(lines: seq<Text>, questions: seq<Question>)

  /** A flattened record; flattening always gives at least seven fields. */
  type Record = r: seq<Text> | |r| >= 7 witness ["", "", "", "", "", "", ""]

  /** Field `2 + k` of a record: the text of choice slot `k`. */
  function Choice(r: seq<Text>, k: nat): Text
    requires 2 + k < |r|
  {
    r[2 + k]
  }

  /** Field 6 of a record, which the label scan compares every slot against. */
  function AnswerField(r: Record): Text
  {
    r[6]
  }

  /** `'\n'.join(lines)`. */
  function JoinLines(lines: seq<Text>): Text
  {
    if lines == [] then ""
    else if |lines| == 1 then lines[0]
    else lines[0] + "\n" + JoinLines(lines[1..])
  }

  function Blanks(n: nat): (r: seq<Text>)
    ensures |r| == n && forall k | 0 <= k < n :: r[k] == ""
  {
    seq(n, _ => "")
  }

  /**
   * The record for one question: context and question first, then the
   * choices, padded with "" to four slots, then the answer. A question with
   * more than four choices keeps them all, so its answer moves past slot 6.
   */
  function RecordOf(context: Text, q: Question): (d: Record)
    ensures |d| == 3 + (if |q.choices| <= 4 then 4 else |q.choices|)
    ensures d[0] == context && d[1] == q.question && d[|d| - 1] == q.answer
    ensures forall k | 0 <= k < |q.choices| :: d[2 + k] == q.choices[k]
    ensures forall k | |q.choices| <= k < 4 :: Choice(d, k) == ""
  {
    [context, q.question] + q.choices
      + Blanks(if |q.choices| < 4 then 4 - |q.choices| else 0) + [q.answer]
  }

  /** The records of the first `j` questions of passage `p`, in order. */
  function PassageRecords(p: Passage, j: nat): seq<Record>
    requires j <= |p.questions|
  {
    if j == 0 then []
    else PassageRecords(p, j - 1) + [RecordOf(JoinLines(p.lines), p.questions[j - 1])]
  }

  /** The records of a whole corpus: passage by passage, question by question. */
  function CorpusRecords(data: seq<Passage>): seq<Record>
  {
    if data == [] then []
    else CorpusRecords(data[..|data| - 1])
         + PassageRecords(data[|data| - 1], |data[|data| - 1].questions|)
  }

  function QuestionCount(data: seq<Passage>): nat
  {
    if data == [] then 0 else QuestionCount(data[..|data| - 1]) + |data[|data| - 1].questions|
  }

  lemma {:induction false} CorpusRecordsCount(data: seq<Passage>)
    ensures |CorpusRecords(data)| == QuestionCount(data)
  {
    if data != [] {
      CorpusRecordsCount(data[..|data| - 1]);
      PassageRecordsCount(data[|data| - 1], |data[|data| - 1].questions|);
    }
  }

  lemma {:induction false} PassageRecordsCount(p: Passage, j: nat)
    requires j <= |p.questions|
    ensures |PassageRecords(p, j)| == j
  {
    if j > 0 {
      PassageRecordsCount(p, j - 1);
    }
  }

  /**
   * In a corpus whose questions have at most four choices every record has
   * exactly seven fields and its field 6 is that question's answer.
   */
  lemma {:induction false} PassageRecordsSeven(p: Passage, j: nat)
    requires j <= |p.questions|
    requires forall q <- p.questions :: |q.choices| <= 4
    ensures |PassageRecords(p, j)| == j
    ensures forall i | 0 <= i < j ::
              |PassageRecords(p, j)[i]| == 7
              && PassageRecords(p, j)[i][6] == p.questions[i].answer
  {
    if j > 0 {
      PassageRecordsSeven(p, j - 1);
      assert p.questions[j - 1] in p.questions;
    }
  }

  /**
   * The body of the innermost loop: the record of one question, built by
   * appending the choices, then "" until four slots are filled, then the answer.
   */
  method FlattenQuestion(context: Text, q: Question) returns (d: Record)
    ensures d == RecordOf(context, q)
  {
    var fields: seq<Text> := [context, q.question];
    for k := 0 to |q.choices|
      invariant fields == [context, q.question] + q.choices[..k]
    {
      fields := fields + [q.choices[k]];
    }
    var k := |q.choices|;
    while k < 4
      invariant |q.choices| <= k && (k <= 4 || k == |q.choices|)
      invariant fields == [context, q.question] + q.choices + Blanks(k - |q.choices|)
    {
      fields := fields + [""];
      assert Blanks(k + 1 - |q.choices|) == Blanks(k - |q.choices|) + [""];
      k := k + 1;
    }
    assert k - |q.choices| == if |q.choices| < 4 then 4 - |q.choices| else 0;
    fields := fields + [q.answer];
    assert q.choices[..|q.choices|] == q.choices;
    d := fields;
  }

  /**
   * The nested loops that fill one corpus list: for each passage, for each
   * question, build the record field by field and append it.
   */
  method FlattenCorpus(data: seq<Passage>) returns (records: seq<Record>)
    ensures records == CorpusRecords(data)
  {
    records := [];
    for i := 0 to |data|
      invariant records == CorpusRecords(data[..i])
    {
      var p := data[i];
      var context := JoinLines(p.lines);
      ghost var before := records;
      for j := 0 to |p.questions|
        invariant records == before + PassageRecords(p, j)
      {
        var d := FlattenQuestion(context, p.questions[j]);
        records := records + [d];
      }
      assert data[..i + 1][..i] == data[..i];
    }
    assert data[..|data|] == data;
  }

  /** The last choice slot below `k` whose text equals the answer field. */
  function LastMatchBelow(r: Record, k: nat): (m: Option<nat>)
    requires k <= 4
    ensures m.Some? ==> m.value < k && Choice(r, m.value) == AnswerField(r)
                        && forall k' | m.value < k' < k :: Choice(r, k') != AnswerField(r)
    ensures m.None? ==> forall k' | 0 <= k' < k :: Choice(r, k') != AnswerField(r)
  {
    if k == 0 then None
    else if Choice(r, k - 1) == AnswerField(r) then Some(k - 1)
    else LastMatchBelow(r, k - 1)
  }

  /** The label of a record on its own: the last of the four slots that matches. */
  function LastMatch(r: Record): Option<nat>
  {
    LastMatchBelow(r, 4)
  }

  function Or(m: Option<nat>, otherwise: Option<nat>): Option<nat>
  {
    if m.Some? then m else otherwise
  }

  /**
   * The value of the variable `answer` after the scan of record `i`: it is only
   * ever overwritten on a match, so a record without a match keeps the label of
   * the previous record, and it is unbound (None) until some record matches.
   */
  function LabelAt(data: seq<Record>, i: nat): (r: Option<nat>)
    requires i < |data|
    ensures r.Some? ==> r.value < 4
  {
    Or(LastMatch(data[i]), if i == 0 then None else LabelAt(data, i - 1))
  }

  /** `answer` is unbound after record `i` exactly when no record up to `i` matches. */
  lemma {:induction false} LabelAtNone(data: seq<Record>, i: nat)
    requires i < |data|
    ensures LabelAt(data, i).None? <==> forall i' | 0 <= i' <= i :: LastMatch(data[i']).None?
  {
    if i > 0 {
      LabelAtNone(data, i - 1);
    }
  }

  /**
   * A bound label is the own label of the latest record, at or before `i`,
   * that has a match; every record after that one has none.
   */
  lemma {:induction false} LabelAtIsLatestMatch(data: seq<Record>, i: nat)
    requires i < |data| && LabelAt(data, i).Some?
    ensures exists i' | 0 <= i' <= i ::
              LastMatch(data[i']) == LabelAt(data, i)
              && forall i'' | i' < i'' <= i :: LastMatch(data[i'']).None?
  {
    if LastMatch(data[i]).Some? {
      assert LastMatch(data[i]) == LabelAt(data, i);
    } else {
      LabelAtIsLatestMatch(data, i - 1);
      var i' :| 0 <= i' <= i - 1 && LastMatch(data[i']) == LabelAt(data, i - 1)
                && forall i'' | i' < i'' <= i - 1 :: LastMatch(data[i'']).None?;
      assert forall i'' | i' < i'' <= i :: LastMatch(data[i'']).None?;
    }
  }

  /** One example: guid, context (text_a), choice (text_b), question (text_c), label. */
  datatype Example = Example(guid: string, textA: Text, textB: Text, textC: Text, labelIndex: nat)

  function DigitChar(d: nat): char
    requires d < 10
  {
    "0123456789"[d]
  }

  /** `str(n)` for a natural number. */
  function Decimal(n: nat): string
    decreases n
  {
    if n < 10 then [DigitChar(n)] else Decimal(n / 10) + [DigitChar(n % 10)]
  }

  /** The guid `"%s-%s-%s" % (set_type, i, k)`. */
  function Guid(setType: string, i: nat, k: nat): string
  {
    setType + "-" + Decimal(i) + "-" + Decimal(k)
  }

  /** The four examples of record `i`, one per choice slot, all labelled `gold`. */
  function RecordExamples(r: Record, setType: string, i: nat, gold: nat): seq<Example>
  {
    seq(4, k requires 0 <= k < 4 => Example(Guid(setType, i, k), r[0], Choice(r, k), r[1], gold))
  }

  /** The examples of the first `n` records, each labelled with `answer` as the scan leaves it. */
  function ExpectedExamples(data: seq<Record>, setType: string, n: nat): seq<Example>
    requires n <= |data|
    requires data != [] ==> LastMatch(data[0]).Some?
  {
    if n == 0 then []
    else
      LabelBound(data, n - 1);
      ExpectedExamples(data, setType, n - 1)
        + RecordExamples(data[n - 1], setType, n - 1, LabelAt(data, n - 1).value)
  }

  /**
   * `_create_examples`: four examples per record, in record order. The caller
   * must not pass a first record without a match: the source then reads the
   * unbound `answer` and fails with UnboundLocalError.
   */
  method CreateExamples(data: seq<Record>, setType: string) returns (examples: seq<Example>)
    requires data != [] ==> LastMatch(data[0]).Some?
    ensures examples == ExpectedExamples(data, setType, |data|)
  {
    examples := [];
    var answer: Option<nat> := None;
    for i := 0 to |data|
      invariant examples == ExpectedExamples(data, setType, i)
      invariant answer == if i == 0 then None else LabelAt(data, i - 1)
    {
      ghost var previous := answer;
      for k := 0 to 4
        invariant answer == Or(LastMatchBelow(data[i], k), previous)
      {
        if data[i][2 + k] == data[i][6] {
          answer := Some(k);
        }
      }
      LabelBound(data, i);
      var gold := answer.value;
      ghost var block := RecordExamples(data[i], setType, i, gold);
      for k := 0 to 4
        invariant examples == ExpectedExamples(data, setType, i) + block[..k]
      {
        examples := examples + [Example(Guid(setType, i, k), data[i][0], data[i][k + 2], data[i][1], gold)];
      }
    }
  }

  /** Once the first record matches, `answer` is bound after every record. */
  lemma {:induction false} LabelBound(data: seq<Record>, i: nat)
    requires i < |data| && LastMatch(data[0]).Some?
    ensures LabelAt(data, i).Some?
  {
    if i > 0 {
      LabelBound(data, i - 1);
    }
  }

  /**
   * Example `4 * i + k` belongs to record `i` and slot `k`: its guid is
   * `<set>-<i>-<k>`, it carries the record's context, choice `k` and question,
   * and its label is `answer` as left after record `i`. So each record yields
   * exactly four examples and all four share one label.
   */
  lemma {:induction false} ExampleAt(data: seq<Record>, setType: string, n: nat, i: nat, k: nat)
    requires data != [] ==> LastMatch(data[0]).Some?
    requires n <= |data| && i < n && k < 4
    ensures |ExpectedExamples(data, setType, n)| == 4 * n
    ensures var e := ExpectedExamples(data, setType, n)[4 * i + k];
            e.guid == Guid(setType, i, k) && e.textA == data[i][0] && e.textB == Choice(data[i], k)
            && e.textC == data[i][1] && LabelAt(data, i) == Some(e.labelIndex)
  {
    ExamplesCount(data, setType, n - 1);
    LabelBound(data, n - 1);
    var prefix := ExpectedExamples(data, setType, n - 1);
    var block := RecordExamples(data[n - 1], setType, n - 1, LabelAt(data, n - 1).value);
    assert ExpectedExamples(data, setType, n) == prefix + block;
    if i < n - 1 {
      ExampleAt(data, setType, n - 1, i, k);
      assert ExpectedExamples(data, setType, n)[4 * i + k] == prefix[4 * i + k];
    } else {
      assert ExpectedExamples(data, setType, n)[4 * i + k] == block[k];
    }
  }

  lemma {:induction false} ExamplesCount(data: seq<Record>, setType: string, n: nat)
    requires n <= |data| && (data != [] ==> LastMatch(data[0]).Some?)
    ensures |ExpectedExamples(data, setType, n)| == 4 * n
  {
    if n > 0 {
      ExamplesCount(data, setType, n - 1);
    }
  }
}
