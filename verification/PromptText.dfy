/** What a rendered judge prompt says, text by text. */
module PromptText {
  import opened Prelude
  import opened Calls
  import T = Template

  // ---- Numerals ----------------------------------------------------------------------------

  /** The number that a row of decimal digits stands for. */
  function Numeral(s: string): int {
    if s == "" then 0 else 10 * Numeral(s[..|s| - 1]) + (s[|s| - 1] as int - '0' as int)
  }

  /** A numeral reads back as its number, consists of digits, and has no leading zero. */
  lemma {:induction false} DecimalReadsBack(n: nat)
    ensures Numeral(Decimal(n)) == n
    ensures forall k :: 0 <= k < |Decimal(n)| ==> '0' <= Decimal(n)[k] <= '9'
    ensures n > 0 ==> Decimal(n)[0] != '0'
  {
    if n >= 10 {
      DecimalReadsBack(n / 10);
      assert Decimal(n)[..|Decimal(n)| - 1] == Decimal(n / 10);
    } else {
      assert Numeral("") == 0;
      assert Decimal(n)[..0] == "";
    }
  }

  // ---- The texts that are inserted ---------------------------------------------------------

  /** Answer `n` as it stands among the others. */
  function Block(n: nat, answer: (string, string)): string {
    "【回答 " + Decimal(n) + "】\n" + answer.1
  }

  function Line(message: Message): string {
    "[" + message.role + "] " + message.content
  }

  /** Each answer behind its heading, numbered from 1, a blank line between two of them. */
  function AnswerBlocks(answers: seq<(string, string)>): string {
    if answers == [] then ""
    else
      var n := |answers|;
      AnswerBlocks(answers[..n - 1]) + (if n > 1 then "\n\n" else "") + Block(n, answers[n - 1])
  }

  /** One line for each message. */
  function MessageLines(messages: seq<Message>): string {
    if messages == [] then ""
    else
      var n := |messages|;
      MessageLines(messages[..n - 1]) + (if n > 1 then "\n" else "") + Line(messages[n - 1])
  }

  lemma {:induction false} JoinAppend(separator: string, parts: seq<string>, last: string)
    ensures Join(separator, parts + [last]) == Join(separator, parts) + (if parts != [] then separator else "") + last
  {
    if |parts| > 1 {
      JoinAppend(separator, parts[1..], last);
      assert (parts + [last])[1..] == parts[1..] + [last];
    } else if |parts| == 1 {
      assert (parts + [last])[1..] == [last];
    }
  }

  lemma {:induction false} AnswerAppended(front: seq<(string, string)>, last: (string, string))
    ensures CandidateAnswers(front + [last])
         == CandidateAnswers(front) + (if front != [] then "\n\n" else "") + Block(|front| + 1, last)
  {
    hide Join, Decimal;
    var all := front + [last];
    var parts := seq(|front|, i requires 0 <= i < |front| => "【回答 " + Decimal(i + 1) + "】\n" + front[i].1);
    assert seq(|all|, i requires 0 <= i < |all| => "【回答 " + Decimal(i + 1) + "】\n" + all[i].1)
        == parts + [Block(|front| + 1, last)];
    JoinAppend("\n\n", parts, Block(|front| + 1, last));
  }

  lemma {:induction false} AnswersAreBlocks(answers: seq<(string, string)>)
    ensures CandidateAnswers(answers) == AnswerBlocks(answers)
  {
    if answers != [] {
      hide CandidateAnswers, Decimal;
      SplitLast([], answers);
      AnswersAreBlocks(answers[..|answers| - 1]);
      AnswerAppended(answers[..|answers| - 1], answers[|answers| - 1]);
    }
  }

  lemma {:induction false} MessageAppended(front: seq<Message>, last: Message)
    ensures SerializeMessages(front + [last]) == SerializeMessages(front) + (if front != [] then "\n" else "") + Line(last)
  {
    hide Join;
    var all := front + [last];
    var parts := seq(|front|, i requires 0 <= i < |front| => "[" + front[i].role + "] " + front[i].content);
    assert seq(|all|, i requires 0 <= i < |all| => "[" + all[i].role + "] " + all[i].content) == parts + [Line(last)];
    JoinAppend("\n", parts, Line(last));
  }

  lemma {:induction false} LinesAreMessages(messages: seq<Message>)
    ensures SerializeMessages(messages) == MessageLines(messages)
  {
    if messages != [] {
      hide SerializeMessages;
      SplitLast([], messages);
      LinesAreMessages(messages[..|messages| - 1]);
      MessageAppended(messages[..|messages| - 1], messages[|messages| - 1]);
    }
  }

  // ---- The rendered prompt -----------------------------------------------------------------

  /** No placeholder stands anywhere in `t`. */
  ghost predicate Plain(t: string) {
    forall i {:trigger t[i..]} :: 0 <= i < |t| ==>
      !("{{original_messages}}" <= t[i..]) && !("{{candidate_answers}}" <= t[i..]) && !("{{critique}}" <= t[i..])
  }

  /** A template without placeholders is the prompt. */
  lemma {:induction false} PlainIsKept(t: string, messages: seq<Message>, answers: seq<(string, string)>, critique: string)
    requires Plain(t)
    ensures RenderJudgePrompt(t, messages, answers, critique) == t
  {
    T.PlaceholdersShape();
    hide T.Render, SerializeMessages, CandidateAnswers;
    forall i {:trigger t[i..]} | 0 <= i < |t| ensures T.MatchHead(T.PLACEHOLDERS, t[i..]).None? {
      assert forall p :: 0 <= p < 3 ==> !(T.PLACEHOLDERS[p] <= t[i..]);
    }
    T.NoPlaceholderUnchanged(T.PLACEHOLDERS, t, [SerializeMessages(messages), CandidateAnswers(answers), critique]);
  }

  /** Where `{{critique}}` stands in a template, the prompt has the critique; around it, it is what the rest
      of the template gives. */
  lemma {:induction false} CritiqueStands(pre: string, post: string, messages: seq<Message>, answers: seq<(string, string)>,
        critique: string)
    ensures RenderJudgePrompt(pre + "{{critique}}" + post, messages, answers, critique)
         == RenderJudgePrompt(pre, messages, answers, critique) + critique + RenderJudgePrompt(post, messages, answers, critique)
    ensures Plain(pre) && Plain(post) ==>
      RenderJudgePrompt(pre + "{{critique}}" + post, messages, answers, critique) == pre + critique + post
  {
    T.PlaceholdersShape();
    hide T.Render, SerializeMessages, CandidateAnswers, T.Braced, T.PrefixFree, Plain;
    T.ValueInsertedVerbatim(T.PLACEHOLDERS, pre, 2, post, [SerializeMessages(messages), CandidateAnswers(answers), critique]);
    if Plain(pre) && Plain(post) {
      PlainIsKept(pre, messages, answers, critique);
      PlainIsKept(post, messages, answers, critique);
    }
  }

  /** Where `{{candidate_answers}}` stands, the prompt has the numbered answers. */
  lemma {:induction false} AnswersStand(pre: string, post: string, messages: seq<Message>, answers: seq<(string, string)>,
        critique: string)
    ensures RenderJudgePrompt(pre + "{{candidate_answers}}" + post, messages, answers, critique)
         == RenderJudgePrompt(pre, messages, answers, critique) + AnswerBlocks(answers)
            + RenderJudgePrompt(post, messages, answers, critique)
    ensures Plain(pre) && Plain(post) ==>
      RenderJudgePrompt(pre + "{{candidate_answers}}" + post, messages, answers, critique) == pre + AnswerBlocks(answers) + post
  {
    T.PlaceholdersShape();
    AnswersAreBlocks(answers);
    hide T.Render, SerializeMessages, CandidateAnswers, AnswerBlocks, T.Braced, T.PrefixFree, Plain;
    T.ValueInsertedVerbatim(T.PLACEHOLDERS, pre, 1, post, [SerializeMessages(messages), CandidateAnswers(answers), critique]);
    if Plain(pre) && Plain(post) {
      PlainIsKept(pre, messages, answers, critique);
      PlainIsKept(post, messages, answers, critique);
    }
  }

  /** Where `{{original_messages}}` stands, the prompt has the conversation, a line for each message. */
  lemma {:induction false} MessagesStand(pre: string, post: string, messages: seq<Message>, answers: seq<(string, string)>,
        critique: string)
    ensures RenderJudgePrompt(pre + "{{original_messages}}" + post, messages, answers, critique)
         == RenderJudgePrompt(pre, messages, answers, critique) + MessageLines(messages)
            + RenderJudgePrompt(post, messages, answers, critique)
    ensures Plain(pre) && Plain(post) ==>
      RenderJudgePrompt(pre + "{{original_messages}}" + post, messages, answers, critique) == pre + MessageLines(messages) + post
  {
    T.PlaceholdersShape();
    LinesAreMessages(messages);
    hide T.Render, SerializeMessages, CandidateAnswers, MessageLines, T.Braced, T.PrefixFree, Plain;
    T.ValueInsertedVerbatim(T.PLACEHOLDERS, pre, 0, post, [SerializeMessages(messages), CandidateAnswers(answers), critique]);
    if Plain(pre) && Plain(post) {
      PlainIsKept(pre, messages, answers, critique);
      PlainIsKept(post, messages, answers, critique);
    }
  }

  /** The arbiter cannot tell the members apart: prompts with the same texts from other models are equal. */
  lemma {:induction false} PromptIsAnonymous(template: string, messages: seq<Message>, a: seq<(string, string)>,
        b: seq<(string, string)>, critique: string)
    requires |a| == |b| && forall i :: 0 <= i < |a| ==> a[i].1 == b[i].1
    ensures RenderJudgePrompt(template, messages, a, critique) == RenderJudgePrompt(template, messages, b, critique)
  {
    hide T.Render, SerializeMessages, CandidateAnswers;
    AnswersAreBlocks(a);
    AnswersAreBlocks(b);
    BlocksAnonymous(a, b);
  }

  lemma {:induction false} BlocksAnonymous(a: seq<(string, string)>, b: seq<(string, string)>)
    requires |a| == |b| && forall i :: 0 <= i < |a| ==> a[i].1 == b[i].1
    ensures AnswerBlocks(a) == AnswerBlocks(b)
  {
    if a != [] {
      hide Decimal;
      BlocksAnonymous(a[..|a| - 1], b[..|b| - 1]);
    }
  }
}
