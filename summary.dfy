/**
 The template policy of get_previous_summary: the previous questions and
 answers are paired up in order and written, one line per pair, under a fixed
 prompt that names the current question.
 */
module Summary {
  import opened Chat

  /** Python's `zip`: pairs the two lists element by element and stops at the
      end of the shorter one. */
  function Zip<A, B>(xs: seq<A>, ys: seq<B>): (r: seq<(A, B)>)
    ensures |r| == if |xs| <= |ys| then |xs| else |ys|
    ensures forall i :: 0 <= i < |r| ==> r[i] == (xs[i], ys[i])
  {
    if xs == [] || ys == [] then []
    else [(xs[0], ys[0])] + Zip(xs[1..], ys[1..])
  }

  /** One line of the history block, as the f-string writes it (note the
      blank before the newline). */
  function QaLine(question: string, answer: string): (line: string)
    // the question and the answer stand unchanged at fixed places of the line
    ensures |line| == |question| + |answer| + 22
    ensures line[10..10 + |question|] == question
    ensures line[20 + |question|..20 + |question| + |answer|] == answer
  {
    "Question: " + question + ", Answer: " + answer + " \n"
  }

  /** The lines of the history block, one per zipped (question, answer) pair. */
  function QaLines(h: seq<Message>): (lines: seq<string>)
    // one line per matched pair; unmatched messages of either role are dropped
    ensures |lines| == if |ContentsOf(h, User)| <= |ContentsOf(h, Assistant)|
                       then |ContentsOf(h, User)| else |ContentsOf(h, Assistant)|
  {
    var pairs := Zip(ContentsOf(h, User), ContentsOf(h, Assistant));
    seq(|pairs|, i requires 0 <= i < |pairs| => QaLine(pairs[i].0, pairs[i].1))
  }

  /** The total length of `lines`. */
  function TotalLength(lines: seq<string>): nat
  {
    if lines == [] then 0 else TotalLength(lines[..|lines| - 1]) + |lines[|lines| - 1]|
  }

  /** The strings of `lines` written one after another, as repeated `+=` does. */
  function Concat(lines: seq<string>): (r: string)
    // nothing is lost or added: the text is as long as all the lines together
    ensures |r| == TotalLength(lines)
  {
    if lines == [] then "" else Concat(lines[..|lines| - 1]) + lines[|lines| - 1]
  }

  /** `prev_qa` after the loop: every line of the history block, in order. */
  function PrevQa(h: seq<Message>): (r: string)
    // the block is empty exactly when no USER/ASSISTANT pair can be formed
    ensures r == "" <==> ContentsOf(h, User) == [] || ContentsOf(h, Assistant) == []
  {
    var lines := QaLines(h);
    assert lines != [] ==> TotalLength(lines) >= |lines[|lines| - 1]| > 0;
    Concat(lines)
  }

  /** The fixed part of the prompt that comes before `prev_qa`; the two
      continuation lines of the triple-quoted string are indented by 17 blanks. */
  function TemplateHead(currentQuestion: string): (head: string)
    // the head names the current question right after " Answer question "
    ensures |head| == |currentQuestion| + 85
    ensures head[17..17 + |currentQuestion|] == currentQuestion
  {
    " Answer question " + currentQuestion + ",\n"
    + "                 Previous Questions and Answers:\n"
    + "                 "
  }

  /** The effective query for `currentQuestion` given the history `h`: the
      question unchanged when there is no history, the template otherwise. */
  function PreviousSummary(h: seq<Message>, currentQuestion: string): (r: string)
    // the question passes through unchanged exactly when there is no history
    ensures h == [] ==> r == currentQuestion
    ensures h != [] ==> |r| > |currentQuestion|
  {
    if h == [] then currentQuestion
    else TemplateHead(currentQuestion) + PrevQa(h)
  }

  /** For a non-empty history the prompt is the template head naming the
      current question followed by the history block, even when that block is
      empty. */
  lemma TemplateUsed(h: seq<Message>, q: string)
    requires h != []
    ensures var r, head := PreviousSummary(h, q), TemplateHead(q);
            |head| <= |r| && r[..|head|] == head && r[|head|..] == PrevQa(h)
  {
    var r, head := PreviousSummary(h, q), TemplateHead(q);
    assert r == head + PrevQa(h);
  }

  /** The history block has one line per matched pair: as many lines as the
      smaller of the USER and ASSISTANT counts, the i-th line pairing the i-th
      USER content with the i-th ASSISTANT content. */
  lemma QaLinesPairUp(h: seq<Message>)
    ensures var qs, ans := ContentsOf(h, User), ContentsOf(h, Assistant);
            |QaLines(h)| == (if |qs| <= |ans| then |qs| else |ans|)
            && forall i :: 0 <= i < |QaLines(h)| ==> QaLines(h)[i] == QaLine(qs[i], ans[i])
  {
  }

  /** Concatenation of line lists is concatenation of their texts. */
  lemma {:induction false} ConcatAppend(a: seq<string>, b: seq<string>)
    ensures Concat(a + b) == Concat(a) + Concat(b)
    decreases |b|
  {
    if b == [] {
      assert a + b == a;
    } else {
      var b' := b[..|b| - 1];
      assert (a + b)[..|a + b| - 1] == a + b';
      ConcatAppend(a, b');
    }
  }

  /** Line i of a block stands right after lines 0..i-1 and unchanged: the
      lines appear in order and are not interleaved. */
  lemma ConcatAt(lines: seq<string>, i: nat)
    requires i < |lines|
    ensures var off := |Concat(lines[..i])|;
            off + |lines[i]| <= |Concat(lines)|
            && Concat(lines)[off..off + |lines[i]|] == lines[i]
  {
    assert lines == lines[..i] + [lines[i]] + lines[i + 1..];
    ConcatAppend(lines[..i] + [lines[i]], lines[i + 1..]);
    ConcatAppend(lines[..i], [lines[i]]);
    assert Concat([lines[i]]) == Concat([]) + lines[i];
  }

  /** The i-th line of the history block (by QaLinesPairUp, the i-th USER
      content paired with the i-th ASSISTANT content) stands in `prev_qa`
      right after the lines before it; by TemplateUsed, `prev_qa` follows the
      template head in the prompt. */
  lemma PrevQaHoldsLine(h: seq<Message>, i: nat)
    requires i < |QaLines(h)|
    ensures var off := |Concat(QaLines(h)[..i])|;
            off + |QaLines(h)[i]| <= |PrevQa(h)|
            && PrevQa(h)[off..off + |QaLines(h)[i]|] == QaLines(h)[i]
  {
    ConcatAt(QaLines(h), i);
  }

  /** In the prompt for a non-empty history, the i-th line of the history
      block starts right after the template head and the lines before it. */
  lemma SummaryHoldsLine(h: seq<Message>, q: string, i: nat)
    requires h != [] && i < |QaLines(h)|
    ensures var off := |TemplateHead(q)| + |Concat(QaLines(h)[..i])|;
            off + |QaLines(h)[i]| <= |PreviousSummary(h, q)|
            && PreviousSummary(h, q)[off..off + |QaLines(h)[i]|] == QaLines(h)[i]
  {
    PromptLine(PreviousSummary(h, q), TemplateHead(q), QaLines(h), i);
  }

  /** Line i of `lines`, written after `head`, starts right after `head` and
      lines 0..i-1. */
  lemma PromptLine(r: string, head: string, lines: seq<string>, i: nat)
    requires r == head + Concat(lines) && i < |lines|
    ensures var off := |head| + |Concat(lines[..i])|;
            off + |lines[i]| <= |r| && r[off..off + |lines[i]|] == lines[i]
  {
    ConcatAt(lines, i);
    SliceOfSuffix(r, |head|, |Concat(lines[..i])|, lines[i]);
  }

  /** A slice found at `off` in the suffix of `r` from `a` is found at
      `a + off` in `r`. */
  lemma SliceOfSuffix(r: string, a: nat, off: nat, s: string)
    requires a <= |r| && off + |s| <= |r[a..]| && r[a..][off..off + |s|] == s
    ensures a + off + |s| <= |r| && r[a + off..a + off + |s|] == s
  {
    assert r[a + off..a + off + |s|] == r[a..][off..off + |s|];
  }

  /** A non-empty history with no USER or no ASSISTANT message (for instance
      one holding only system messages) still produces the template, with an
      empty history block. */
  lemma TemplateWithoutPairs(h: seq<Message>, q: string)
    requires h != []
    requires ContentsOf(h, User) == [] || ContentsOf(h, Assistant) == []
    ensures PreviousSummary(h, q) == TemplateHead(q)
  {
    assert QaLines(h) == [];
  }

  /** Messages of any role other than USER and ASSISTANT contribute nothing:
      removing one from a history that stays non-empty leaves the prompt as
      it was. */
  lemma OtherRolesIgnored(a: seq<Message>, m: Message, b: seq<Message>, q: string)
    requires m.role.OtherRole? && a + b != []
    ensures PreviousSummary(a + [m] + b, q) == PreviousSummary(a + b, q)
  {
    ContentsOfSkips(a, m, b, User);
    ContentsOfSkips(a, m, b, Assistant);
  }

  /** `zip` ignores an element appended to the longer (or equal) first list. */
  lemma ZipIgnoresLeftExtra<A, B>(xs: seq<A>, x: A, ys: seq<B>)
    requires |xs| >= |ys|
    ensures Zip(xs + [x], ys) == Zip(xs, ys)
  {
    var z, z' := Zip(xs, ys), Zip(xs + [x], ys);
    assert forall i :: 0 <= i < |z| ==> z'[i] == z[i];
  }

  /** `zip` ignores an element appended to the longer (or equal) second list. */
  lemma ZipIgnoresRightExtra<A, B>(xs: seq<A>, ys: seq<B>, y: B)
    requires |ys| >= |xs|
    ensures Zip(xs, ys + [y]) == Zip(xs, ys)
  {
    var z, z' := Zip(xs, ys), Zip(xs, ys + [y]);
    assert forall i :: 0 <= i < |z| ==> z'[i] == z[i];
  }

  /** A USER message without an ASSISTANT partner is dropped: appending a
      question when no answer is outstanding leaves the history block as it was. */
  lemma UnansweredQuestionDropped(h: seq<Message>, question: string)
    requires |ContentsOf(h, User)| >= |ContentsOf(h, Assistant)|
    ensures PrevQa(h + [Message(User, question)]) == PrevQa(h)
  {
    var m := Message(User, question);
    ContentsOfAppend(h, [m], User);
    ContentsOfAppend(h, [m], Assistant);
    assert ContentsOf([m], User) == [question] by {
      assert [m][..0] == [];
    }
    assert ContentsOf([m], Assistant) == [] by {
      assert [m][..0] == [];
    }
    ZipIgnoresLeftExtra(ContentsOf(h, User), question, ContentsOf(h, Assistant));
    assert QaLines(h + [m]) == QaLines(h);
  }

  /** An ASSISTANT message without a USER partner is dropped in the same way. */
  lemma UnpromptedAnswerDropped(h: seq<Message>, answer: string)
    requires |ContentsOf(h, Assistant)| >= |ContentsOf(h, User)|
    ensures PrevQa(h + [Message(Assistant, answer)]) == PrevQa(h)
  {
    var m := Message(Assistant, answer);
    ContentsOfAppend(h, [m], User);
    ContentsOfAppend(h, [m], Assistant);
    assert ContentsOf([m], Assistant) == [answer] by {
      assert [m][..0] == [];
    }
    assert ContentsOf([m], User) == [] by {
      assert [m][..0] == [];
    }
    ZipIgnoresRightExtra(ContentsOf(h, User), ContentsOf(h, Assistant), answer);
    assert QaLines(h + [m]) == QaLines(h);
  }
}
