/** The two requests of a rejudge, against the requests of the live strategies. */
module RejudgeRequests {
  import opened Prelude
  import opened Calls
  import Council
  import Drivers = IceDrivers
  import Ice
  import Rejudge

  /** `PreparedRejudge`, as far as it makes requests. */
  datatype Plan = Plan(upstreamId: string, messages: seq<Message>, answers: seq<(string, string)>, template: string,
                       merged: Params, critique: Request)

  /** What a rejudge takes from the trace, from the pipeline as it is now and from the chosen arbiter. */
  datatype Source = Source(messages: seq<Message>, params: Params, calls: seq<Outcome>, pipelineTemplate: string, prompts: Prompts,
                           upstreamId: string, judgeDefaults: Params)

  /** `prepare_rejudge` behind its checks. */
  function Prepare(s: Source): Plan {
    var answers := Ice.Answers(Rejudge.RebuiltRows(s.calls));
    var merged := MergeParams(s.judgeDefaults, s.params);
    var prompt := RenderJudgePrompt(s.prompts.critique, s.messages, answers, "");
    Plan(s.upstreamId, s.messages, answers,
         if s.pipelineTemplate != "" then s.pipelineTemplate else s.prompts.defaultJudge,
         merged, BuildRequest(s.upstreamId, [Message("user", prompt)], merged))
  }

  /** `final_request`: the session of the critique goes on. */
  function FinalRequest(p: Plan, critique: string): Request {
    var instruction := RenderJudgePrompt(p.template, p.messages, p.answers, critique);
    BuildRequest(p.upstreamId, p.critique.messages + [Message("assistant", critique), Message("user", instruction)], p.merged)
  }

  /** A rejudge with the arbiter and the template of the original call. */
  function SameArbiter(ctx: Context, calls: seq<Outcome>): Source {
    Source(ctx.messages, ctx.userParams, calls, ctx.judgeTemplate, ctx.prompts, ctx.judgeUpstreamId, ctx.judgeDefaults)
  }

  ghost predicate MemberRows(rows: seq<Outcome>) {
    forall c :: c in rows ==> c.role == Member
  }

  ghost predicate JudgeRows(rows: seq<Outcome>) {
    forall c :: c in rows ==> c.role != Member
  }

  lemma {:induction false} JudgeRowsIgnored(r: Rejudge.Replay, rows: seq<Outcome>)
    requires JudgeRows(rows)
    ensures Rejudge.Replayed(r, rows) == r
  {
    if rows != [] {
      var init, last := rows[..|rows| - 1], rows[|rows| - 1];
      assert last in rows && forall c :: c in init ==> c in rows;
      JudgeRowsIgnored(r, init);
      Rejudge.SkipFailed(r, last);
    }
  }

  /** A log with one row for each member gives the survivors back, in the order in which they stand,
      exactly when their model ids are distinct. */
  lemma {:induction false} OneRoundRebuiltIff(rows: seq<Outcome>, rest: seq<Outcome>)
    requires MemberRows(rows) && JudgeRows(rest)
    ensures Ice.Answers(Rejudge.RebuiltRows(rows + rest)) == Ice.Answers(Survivors(rows)) <==> Rejudge.DistinctIds(Survivors(rows))
  {
    var ok := Survivors(rows);
    var r := Rejudge.Replayed(Rejudge.NOTHING, rows + rest);
    Rejudge.ReplayedConcat(Rejudge.NOTHING, rows, rest);
    JudgeRowsIgnored(Rejudge.Replayed(Rejudge.NOTHING, rows), rest);
    hide Rejudge.Replayed, Rejudge.RebuiltRows, Rejudge.Holds;
    if Rejudge.DistinctIds(ok) {
      Rejudge.FirstRoundNoted(rows);
      Rejudge.RowsInOrder(rows + rest, ok);
    } else {
      TooFewRows(rows, rest);
      assert |Ice.Answers(Rejudge.RebuiltRows(rows + rest))| == |r.order|;
    }
  }

  lemma {:induction false} TooFewRows(rows: seq<Outcome>, rest: seq<Outcome>)
    requires MemberRows(rows) && JudgeRows(rest) && !Rejudge.DistinctIds(Survivors(rows))
    ensures |Rejudge.Replayed(Rejudge.NOTHING, rows + rest).order| < |Survivors(rows)|
  {
    var ok := Survivors(rows);
    var order := Rejudge.Replayed(Rejudge.NOTHING, rows + rest).order;
    Rejudge.ReplayedCoherent(Rejudge.NOTHING, rows + rest);
    Rejudge.OrderComesFromRows(rows + rest);
    SurvivorsAre(rows);
    hide Rejudge.Replayed;
    forall id | id in order ensures id in Rejudge.Ids(ok) {
      var c :| c in rows + rest && c.role == Member && Ok(c) && c.modelId == id;
      assert c in ok;
      Rejudge.IdOfMember(ok, c);
    }
    if |order| >= |ok| {
      Rejudge.OrderTooShort(order, Rejudge.Ids(ok));
    }
  }

  /** Rejudging a council call from its log, with the same arbiter: the answers are the ones the arbiter
      saw exactly when the surviving members have distinct model ids; then the critique is asked for with
      the same request, and for the same critique text the final request is the same, too. */
  lemma {:induction false} CouncilReproduced(c: Council.Setup, judge: Outcome)
    requires Council.Open(c).Opened? && c.tools.None? && judge.role == Judge
    ensures var o := Council.Open(c); var plan := Prepare(SameArbiter(c.ctx, o.members + [o.critique, judge]));
      && (plan.answers == o.shown <==> Rejudge.DistinctIds(o.ok))
      && (Rejudge.DistinctIds(o.ok) ==>
           plan.critique == Council.CritiqueRequest(c, o.shown) && FinalRequest(plan, o.critique.content) == Council.LastRequest(c, o))
  {
    var o := Council.Open(c);
    CouncilRows(c);
    OneRoundRebuiltIff(o.members, [o.critique, judge]);
    assert o.shown == Ice.Answers(o.ok);
    hide RenderJudgePrompt, Rejudge.RebuiltRows, Rejudge.DistinctIds, MergeParams, BuildRequest, Survivors, Council.Members;
    assert o.critique.payload == Council.CritiqueRequest(c, o.shown);
  }

  lemma {:induction false} CouncilRows(c: Council.Setup)
    requires Council.Open(c).Opened?
    ensures MemberRows(Council.Open(c).members) && Council.Open(c).critique.role == JudgeCritique
    ensures Council.Open(c).ok == Survivors(Council.Open(c).members)
  {
    hide Survivors, Council.Shown, Council.CritiqueRequest, Council.MemberRequest;
  }

  /** Rejudging an ICE run: with distinct ids the final instruction is the one the run ended with, when
      the new critique says what the last one said. */
  lemma {:induction false} IceInstructionReproduced(run: Ice.Run, final: Outcome)
    requires Drivers.Open(run).Opened? && final.role == Judge && Rejudge.DistinctIds(Drivers.Open(run).ok)
    ensures var o := Drivers.Open(run); var it := Ice.Iterate(run, o.start);
      var plan := Prepare(SameArbiter(run.ctx, o.round0 + [o.critique] + Ice.RoundCalls(it.rounds) + [final]));
      var live, again := Drivers.LastRequest(run, it.last).messages, FinalRequest(plan, it.last.critiqueText).messages;
      live != [] && again != [] && live[|live| - 1] == again[|again| - 1]
  {
    hide Ice.Iterate, RenderJudgePrompt, Rejudge.RebuiltRows, Rejudge.DistinctIds, MergeParams, Drivers.Open;
    Rejudge.ReplayAgreesIff(run, final);
  }
}
