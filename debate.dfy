/** `WorkingMultiAgentDebate.run_debate`: the debate driver. The model is an
    oracle: the outcomes of its calls are given as a sequence and consumed in
    call order. The driver builds the role sequence, runs `rounds` rounds of
    the non-terminal roles and one Judge round, keeps the response log, and
    summarises the Judge's verdict. */
module Debate {
  import opened Text
  import opened Quality
  import opened Prompts

  /** What one call of `generate_content` yields, as the driver inspects it:
      an exception, no candidates, a first candidate without content parts
      (with its finish reason), or the text of the first part. */
  datatype Outcome = Raised(msg: string) | NoCandidates | NoParts(finishReason: string) | Generated(text: string)

  const ErrorPrefix: string := "Error: "
  const NoContentPrefix: string := "No content generated (finish_reason: "
  const NoVerdictPrefix: string := "No verdict generated (finish_reason: "

  /** The text a non-terminal agent contributes for one outcome. */
  function ResponseText(o: Outcome): string {
    match o
    case Generated(t) => t
    case NoParts(reason) => NoContentPrefix + reason + ")"
    case NoCandidates => "No response candidates generated"
    case Raised(msg) => ErrorPrefix + msg
  }

  /** The verdict text the Judge's outcome yields. */
  function VerdictText(o: Outcome): string {
    match o
    case Generated(t) => t
    case NoParts(reason) => NoVerdictPrefix + reason + ")"
    case NoCandidates => "No verdict candidates generated"
    case Raised(msg) => ErrorPrefix + msg
  }

  /** A generated text is passed on unchanged; every other outcome becomes a
      placeholder naming what went wrong, so no failure escapes the driver. */
  lemma ExtractionCases(o: Outcome)
    ensures o.Generated? ==> ResponseText(o) == o.text && VerdictText(o) == o.text
    ensures o.Raised? ==> IsPrefix(ErrorPrefix, ResponseText(o)) && IsPrefix(ErrorPrefix, VerdictText(o))
                          && ResponseText(o)[|ErrorPrefix|..] == o.msg && VerdictText(o)[|ErrorPrefix|..] == o.msg
    ensures o.NoParts? ==> IsPrefix(NoContentPrefix, ResponseText(o)) && IsPrefix(NoVerdictPrefix, VerdictText(o))
                           && ResponseText(o)[|NoContentPrefix|..] == o.finishReason + ")"
                           && VerdictText(o)[|NoVerdictPrefix|..] == o.finishReason + ")"
    ensures o.NoCandidates? ==> ResponseText(o) == "No response candidates generated"
                                && VerdictText(o) == "No verdict candidates generated"
  {
    match o
    case Raised(msg) =>
      assert (ErrorPrefix + msg)[..|ErrorPrefix|] == ErrorPrefix;
    case NoParts(reason) =>
      assert (NoContentPrefix + reason + ")")[..|NoContentPrefix|] == NoContentPrefix;
      assert (NoVerdictPrefix + reason + ")")[..|NoVerdictPrefix|] == NoVerdictPrefix;
    case _ =>
  }

  function Min(a: int, b: int): int { if a < b then a else b }
  function Max(a: int, b: int): int { if a < b then b else a }

  /** Python's `xs[:stop]`, negative `stop` counting from the end. */
  function SliceTo<T>(xs: seq<T>, stop: int): seq<T> {
    xs[..if stop >= 0 then Min(stop, |xs|) else Max(0, |xs| + stop)]
  }

  /** Python's `xs[start:]`, negative `start` counting from the end. */
  function SliceFrom<T>(xs: seq<T>, start: int): seq<T> {
    xs[if start >= 0 then Min(start, |xs|) else Max(0, |xs| + start)..]
  }

  const AllRoles: seq<Role> := [Researcher, Critic, Synthesizer, Judge]

  /** `["Researcher", "Critic", "Synthesizer", "Judge"][:agent_count]`, with
      `"Judge"` appended when `agent_count < 4`. The Judge is always last and
      never among the others, which are the first roles of Researcher, Critic,
      Synthesizer; there are min(agent_count, 3) of them for a non-negative
      count, and 4 + agent_count (at least 0) for a negative one. */
  function Roles(agentCount: int): (roles: seq<Role>)
    ensures |roles| >= 1 && roles[|roles| - 1] == Judge
    ensures |roles| - 1 <= 3 && roles[..|roles| - 1] == AllRoles[..|roles| - 1]
    ensures Judge !in roles[..|roles| - 1]
    ensures agentCount >= 0 ==> |roles| - 1 == Min(agentCount, 3)
    ensures agentCount < 0 ==> |roles| - 1 == Max(0, 4 + agentCount)
  {
    var base := SliceTo(AllRoles, agentCount);
    if agentCount < 4 then base + [Judge] else base
  }

  /** The number of model calls a debate makes. */
  function CallCount(agentCount: int, rounds: nat): nat {
    rounds * (|Roles(agentCount)| - 1) + 1
  }

  /** With 2 agents the roles are Researcher, Critic, Judge: a 2-round debate
      makes 2 calls per round and one Judge call, 5 in all. */
  lemma TwoAgentsTwoRounds()
    ensures Roles(2) == [Researcher, Critic, Judge]
    ensures CallCount(2, 2) == 5
  {
  }

  /** One call: whose turn and in which round. */
  datatype Turn = Turn(role: Role, roundNum: int)

  /** The turns of one non-terminal round. */
  function RoundTurns(nonTerminal: seq<Role>, roundNum: int): (ts: seq<Turn>)
    ensures |ts| == |nonTerminal|
  {
    seq(|nonTerminal|, i requires 0 <= i < |nonTerminal| => Turn(nonTerminal[i], roundNum))
  }

  /** The turns of rounds 1 to `rounds`, round after round. */
  function InteriorTurns(nonTerminal: seq<Role>, rounds: nat): (ts: seq<Turn>)
    ensures |ts| == rounds * |nonTerminal|
    decreases rounds
  {
    if rounds == 0 then []
    else InteriorTurns(nonTerminal, rounds - 1) + RoundTurns(nonTerminal, rounds)
  }

  /** The order of the model calls: every non-terminal role in every round,
      then the Judge once, in round `rounds + 1`. */
  function Schedule(roles: seq<Role>, rounds: nat): seq<Turn>
    requires |roles| >= 1
  {
    InteriorTurns(roles[..|roles| - 1], rounds) + [Turn(Judge, rounds + 1)]
  }

  lemma {:induction false} InteriorTurnsAt(nonTerminal: seq<Role>, rounds: nat, r: nat, i: nat)
    requires r < rounds && i < |nonTerminal|
    ensures r * |nonTerminal| + i < |InteriorTurns(nonTerminal, rounds)|
    ensures InteriorTurns(nonTerminal, rounds)[r * |nonTerminal| + i] == Turn(nonTerminal[i], r + 1)
    decreases rounds
  {
    var n := |nonTerminal|;
    var before := InteriorTurns(nonTerminal, rounds - 1);
    assert (rounds - 1) * n + n == rounds * n;
    if r == rounds - 1 {
      assert r * n + i == |before| + i;
    } else {
      InteriorTurnsAt(nonTerminal, rounds - 1, r, i);
    }
  }

  /** Round-major, role-minor order: the call numbered `r * n + i` (counting
      from 0, `n` non-terminal roles) is role `i` in round `r + 1`, and the
      Judge's call comes last. */
  lemma ScheduleAt(roles: seq<Role>, rounds: nat, r: nat, i: nat)
    requires |roles| >= 1 && r < rounds && i < |roles| - 1
    ensures |Schedule(roles, rounds)| == rounds * (|roles| - 1) + 1
    ensures r * (|roles| - 1) + i < rounds * (|roles| - 1)
    ensures Schedule(roles, rounds)[r * (|roles| - 1) + i] == Turn(roles[i], r + 1)
  {
    InteriorTurnsAt(roles[..|roles| - 1], rounds, r, i);
  }

  /** The Judge's call is the last one, in round `rounds + 1`. */
  lemma ScheduleEndsWithJudge(roles: seq<Role>, rounds: nat)
    requires |roles| >= 1
    ensures |Schedule(roles, rounds)| == rounds * (|roles| - 1) + 1
    ensures Schedule(roles, rounds)[rounds * (|roles| - 1)] == Turn(Judge, rounds + 1)
  {
  }

  /** Every interior turn belongs to a non-terminal role and to a round from 1 to `rounds`. */
  lemma {:induction false} InteriorTurnsRange(nonTerminal: seq<Role>, rounds: nat, k: nat)
    requires k < |InteriorTurns(nonTerminal, rounds)|
    ensures InteriorTurns(nonTerminal, rounds)[k].role in nonTerminal
    ensures 1 <= InteriorTurns(nonTerminal, rounds)[k].roundNum <= rounds
    decreases rounds
  {
    var before := InteriorTurns(nonTerminal, rounds - 1);
    if k >= |before| {
      assert InteriorTurns(nonTerminal, rounds)[k] == RoundTurns(nonTerminal, rounds)[k - |before|];
    } else {
      InteriorTurnsRange(nonTerminal, rounds - 1, k);
    }
  }

  /** The Judge speaks exactly once, last: no earlier call is the Judge's, and
      every earlier call falls in one of the `rounds` non-terminal rounds. */
  lemma JudgeOnlyLast(agentCount: int, rounds: nat, k: nat)
    requires k < CallCount(agentCount, rounds) - 1
    ensures Schedule(Roles(agentCount), rounds)[k].role != Judge
    ensures 1 <= Schedule(Roles(agentCount), rounds)[k].roundNum <= rounds
  {
    var roles := Roles(agentCount);
    InteriorTurnsRange(roles[..|roles| - 1], rounds, k);
  }

  /** What a non-terminal agent receives: `all_responses[-len(roles)+1:]`
      when the log holds more than `len(roles) - 1` entries, else `None`. */
  function Window(log: seq<string>, roleCount: int): Option<seq<string>> {
    if |log| > roleCount - 1 then Some(SliceFrom(log, -roleCount + 1)) else None
  }

  /** The window in plain terms: the `n` entries before position `k`, provided
      strictly more than `n` entries precede it. */
  function LastEntries(log: seq<string>, k: nat, n: nat): Option<seq<string>>
    requires k <= |log|
  {
    if k > n then Some(log[k - n..k]) else None
  }

  /** With at least one non-terminal role, the window is the last
      `len(roles) - 1` log entries, or nothing while the log is that short. */
  lemma WindowIsLastEntries(log: seq<string>, roleCount: int)
    requires roleCount >= 2
    ensures Window(log, roleCount) == LastEntries(log, |log|, roleCount - 1)
    ensures Window(log, roleCount).Some? ==> |Window(log, roleCount).value| == roleCount - 1
  {
    if |log| > roleCount - 1 {
      assert SliceFrom(log, -roleCount + 1) == log[|log| - (roleCount - 1)..|log|];
    }
  }

  /** Appending to the log does not change what earlier positions saw. */
  lemma LastEntriesAppend(log: seq<string>, x: string, n: nat, k: nat)
    requires k <= |log|
    ensures LastEntries(log + [x], k, n) == LastEntries(log, k, n)
  {
    if k > n {
      assert (log + [x])[k - n..k] == log[k - n..k];
    }
  }

  const ConsensusWords: seq<string> := ["consensus", "agreement", "conclusion", "verdict", "decision"]

  /** `any(word in text for word in words)`. */
  predicate AnyPresent(words: seq<string>, text: string)
    decreases |words|
  {
    |words| > 0 && (Contains(text, words[0]) || AnyPresent(words[1..], text))
  }

  lemma {:induction false} AnyPresentIff(words: seq<string>, text: string)
    ensures AnyPresent(words, text) <==> exists k :: 0 <= k < |words| && Contains(text, words[k])
    decreases |words|
  {
    if |words| > 0 {
      AnyPresentIff(words[1..], text);
      if exists k :: 0 <= k < |words| && Contains(text, words[k]) {
        var k :| 0 <= k < |words| && Contains(text, words[k]);
        if k > 0 {
          assert words[1..][k - 1] == words[k];
        }
      }
      if exists k :: 0 <= k < |words[1..]| && Contains(text, words[1..][k]) {
        var k :| 0 <= k < |words[1..]| && Contains(text, words[1..][k]);
        assert words[k + 1] == words[1..][k];
      }
    }
  }

  /** The convergence flag of a verdict. */
  predicate Converged(verdict: string) {
    AnyPresent(ConsensusWords, Lower(verdict))
  }

  /** The verdict converged exactly when one of the consensus words occurs in
      it, letters compared without regard to case. */
  lemma ConvergedIff(verdict: string)
    ensures Converged(verdict)
        <==> exists k :: 0 <= k < |ConsensusWords| && Contains(Lower(verdict), ConsensusWords[k])
  {
    AnyPresentIff(ConsensusWords, Lower(verdict));
  }

  /** A verdict announcing a consensus is flagged as converged. */
  lemma ConsensusVerdictConverges()
    ensures Converged("The committee reached a consensus")
  {
    var v := "The committee reached a consensus";
    assert Lower(v)[24..33] == "consensus";
    ContainsAt(Lower(v), "consensus", 24);
    ConvergedIff(v);
  }

  const ExcerptPrefix: string := "Final verdict: "

  /** The second excerpt: the verdict, cut to 200 characters plus `"..."` when longer. */
  function VerdictExcerpt(verdict: string): string {
    if |verdict| > 200 then ExcerptPrefix + verdict[..200] + "..."
    else ExcerptPrefix + verdict
  }

  function Excerpts(verdict: string): seq<string> {
    ["Debate completed successfully", VerdictExcerpt(verdict)]
  }

  /** The excerpt list has two entries; the second opens with
      `"Final verdict: "` and gives back the whole verdict when it has at most
      200 characters, else its first 200 followed by `"..."`. */
  lemma ExcerptsShape(verdict: string)
    ensures |Excerpts(verdict)| == 2 && Excerpts(verdict)[0] == "Debate completed successfully"
    ensures IsPrefix(ExcerptPrefix, Excerpts(verdict)[1])
    ensures |verdict| <= 200 ==> Excerpts(verdict)[1][|ExcerptPrefix|..] == verdict
    ensures |verdict| > 200 ==> Excerpts(verdict)[1][|ExcerptPrefix|..] == verdict[..200] + "..."
    ensures |Excerpts(verdict)[1]| <= |ExcerptPrefix| + 200 + 3
  {
    var e := VerdictExcerpt(verdict);
    var head := ExcerptPrefix;
    var rest := if |verdict| > 200 then verdict[..200] + "..." else verdict;
    assert e == head + rest;
    assert e[..|head|] == head && e[|head|..] == rest;
  }

  /** `DebateResult`. */
  datatype DebateResult = DebateResult(
    topic: string,
    agentsCount: int,
    rounds: int,
    finalVerdict: string,
    qualityScores: Scores,
    convergence: bool,
    executionTime: real,
    excerpts: seq<string>)

  /** One model call as the driver made it. */
  datatype Call = Call(turn: Turn, context: Option<seq<string>>, prompt: string)

  /** The first `|calls|` calls followed the schedule, sent the prompt
      `render` gives for their turn and context, and the first `interior` of
      them (the non-terminal ones) were given the window of the log and logged
      their reply. */
  ghost predicate Recorded(calls: seq<Call>, log: seq<string>, render: (Turn, Option<seq<string>>) -> string,
                           n: nat, oracle: seq<Outcome>, schedule: seq<Turn>, interior: nat)
  {
    |calls| == |log| <= |schedule| && |log| <= |oracle|
    && (forall k | 0 <= k < |calls| :: calls[k].turn == schedule[k])
    && (forall k | 0 <= k < |calls| :: calls[k].prompt == render(calls[k].turn, calls[k].context))
    && (forall k | 0 <= k < |calls| && k < interior ::
          calls[k].context == LastEntries(log, k, n) && log[k] == ResponseText(oracle[k]))
  }

  /** Recording the next non-terminal call keeps the record. */
  lemma RecordInterior(calls: seq<Call>, log: seq<string>, render: (Turn, Option<seq<string>>) -> string,
                       n: nat, oracle: seq<Outcome>, schedule: seq<Turn>, interior: nat, c: Call)
    requires Recorded(calls, log, render, n, oracle, schedule, interior)
    requires |log| < interior && |log| < |schedule| && |log| < |oracle|
    requires c.turn == schedule[|log|] && c.context == LastEntries(log, |log|, n)
    requires c.prompt == render(c.turn, c.context)
    ensures Recorded(calls + [c], log + [ResponseText(oracle[|log|])], render, n, oracle, schedule, interior)
  {
    forall k | 0 <= k <= |log|
      ensures LastEntries(log + [ResponseText(oracle[|log|])], k, n) == LastEntries(log, k, n)
    {
      LastEntriesAppend(log, ResponseText(oracle[|log|]), n, k);
    }
  }

  /** Recording the Judge's call keeps the record. */
  lemma RecordJudge(calls: seq<Call>, log: seq<string>, render: (Turn, Option<seq<string>>) -> string,
                    n: nat, oracle: seq<Outcome>, schedule: seq<Turn>, c: Call)
    requires Recorded(calls, log, render, n, oracle, schedule, |log|)
    requires |log| < |schedule| && |log| < |oracle|
    requires c.turn == schedule[|log|] && c.prompt == render(c.turn, c.context)
    ensures Recorded(calls + [c], log + [VerdictText(oracle[|log|])], render, n, oracle, schedule, |log|)
  {
    forall k | 0 <= k < |log|
      ensures LastEntries(log + [VerdictText(oracle[|log|])], k, n) == LastEntries(log, k, n)
    {
      LastEntriesAppend(log, VerdictText(oracle[|log|]), n, k);
    }
  }

  /** Round `r + 1` of `rounds` takes the `n` turns of the schedule from
      position `start = r * n` on, one per non-terminal role in order; the
      next round starts at `(r + 1) * n`. */
  lemma RoundTurnsAt(roles: seq<Role>, rounds: nat, r: nat, start: nat)
    requires |roles| >= 1 && r < rounds && start == r * (|roles| - 1)
    ensures start + (|roles| - 1) == (r + 1) * (|roles| - 1) <= rounds * (|roles| - 1)
    ensures forall i | 0 <= i < |roles| - 1 :: Schedule(roles, rounds)[start + i] == Turn(roles[i], r + 1)
  {
    forall i | 0 <= i < |roles| - 1
      ensures Schedule(roles, rounds)[start + i] == Turn(roles[i], r + 1)
    {
      ScheduleAt(roles, rounds, r, i);
    }
  }

  /** The prompt a turn gets with a given context. */
  function RenderFor(topic: string): (Turn, Option<seq<string>>) -> string {
    (t: Turn, context: Option<seq<string>>) => RolePrompt(t.role, topic, t.roundNum, context)
  }

  /** A prompt rendered for a role is the prompt `get_agent_prompt` gives for the role's name. */
  lemma PromptsByName(calls: seq<Call>, render: (Turn, Option<seq<string>>) -> string, topic: string)
    requires render == RenderFor(topic)
    requires forall k | 0 <= k < |calls| :: calls[k].prompt == render(calls[k].turn, calls[k].context)
    ensures forall k | 0 <= k < |calls| ::
      calls[k].prompt == GetAgentPrompt(Name(calls[k].turn.role), topic, calls[k].turn.roundNum, calls[k].context)
  {
    forall k | 0 <= k < |calls|
      ensures calls[k].prompt
           == GetAgentPrompt(Name(calls[k].turn.role), topic, calls[k].turn.roundNum, calls[k].context)
    {
      PromptOfName(calls[k].turn.role, topic, calls[k].turn.roundNum, calls[k].context);
    }
  }

  /** The debate system; the model itself is the oracle handed to `RunDebate`. */
  class DebateEngine {
    const modelName: string
    const temperature: real

    constructor(modelName: string := "gemini-2.0-flash-exp", temperature: real := 0.7)
      ensures this.modelName == modelName && this.temperature == temperature
    {
      this.modelName := modelName;
      this.temperature := temperature;
    }

    /** One non-terminal round: each role but the Judge, in order, is given
        the window of the log, prompted, and its reply logged, as the next
        `|roles| - 1` turns of the schedule require. */
    method RunRound(topic: string, roles: seq<Role>, roundNum: nat, oracle: seq<Outcome>,
                    ghost render: (Turn, Option<seq<string>>) -> string, ghost schedule: seq<Turn>, ghost interior: nat,
                    calls0: seq<Call>, log0: seq<string>)
      returns (calls: seq<Call>, log: seq<string>)
      requires |roles| >= 1
      requires |log0| + (|roles| - 1) <= interior < |schedule| && interior < |oracle|
      requires forall i | 0 <= i < |roles| - 1 :: schedule[|log0| + i] == Turn(roles[i], roundNum + 1)
      requires render == RenderFor(topic)
      requires Recorded(calls0, log0, render, |roles| - 1, oracle, schedule, interior)
      ensures |log| == |log0| + (|roles| - 1)
      ensures Recorded(calls, log, render, |roles| - 1, oracle, schedule, interior)
    {
      var n := |roles| - 1;
      calls, log := calls0, log0;
      var i := 0;
      while i < n
        invariant 0 <= i <= n
        invariant |log| == |log0| + i
        invariant Recorded(calls, log, render, n, oracle, schedule, interior)
      {
        var role := roles[i];
        var previous := Window(log, |roles|);
        var prompt := GetAgentPrompt(Name(role), topic, roundNum + 1, previous);
        PromptOfName(role, topic, roundNum + 1, previous);
        var text := ResponseText(oracle[|log|]);
        WindowIsLastEntries(log, |roles|);
        var call := Call(Turn(role, roundNum + 1), previous, prompt);
        RecordInterior(calls, log, render, n, oracle, schedule, interior, call);
        calls := calls + [call];
        log := log + [text];
        i := i + 1;
      }
    }

    /** The final round: the Judge is given the whole log, and its reply is
        the verdict, which is logged too. */
    method RunJudge(topic: string, roundNum: int, oracle: seq<Outcome>,
                    ghost render: (Turn, Option<seq<string>>) -> string, ghost n: nat, ghost schedule: seq<Turn>,
                    calls0: seq<Call>, log0: seq<string>)
      returns (verdict: string, calls: seq<Call>, log: seq<string>)
      requires render == RenderFor(topic)
      requires |log0| < |schedule| && |log0| < |oracle| && schedule[|log0|] == Turn(Judge, roundNum + 1)
      requires Recorded(calls0, log0, render, n, oracle, schedule, |log0|)
      ensures verdict == VerdictText(oracle[|log0|]) && log == log0 + [verdict]
      ensures |calls| == |calls0| + 1 && calls[|calls0|].context == Some(log0)
      ensures Recorded(calls, log, render, n, oracle, schedule, |log0|)
    {
      var prompt := GetAgentPrompt(Name(Judge), topic, roundNum + 1, Some(log0));
      PromptOfName(Judge, topic, roundNum + 1, Some(log0));
      verdict := VerdictText(oracle[|log0|]);
      var call := Call(Turn(Judge, roundNum + 1), Some(log0), prompt);
      RecordJudge(calls0, log0, render, n, oracle, schedule, call);
      calls := calls0 + [call];
      log := log0 + [verdict];
    }

    /** `for round_num in range(rounds + 1)`: `rounds` rounds of the
        non-terminal roles, then the Judge. Returns the verdict, the calls and
        the log. */
    method Converse(topic: string, roles: seq<Role>, rounds: nat, oracle: seq<Outcome>,
                    ghost render: (Turn, Option<seq<string>>) -> string)
      returns (verdict: string, calls: seq<Call>, log: seq<string>)
      requires |roles| >= 1 && render == RenderFor(topic)
      requires |oracle| > rounds * (|roles| - 1)
      ensures |log| == rounds * (|roles| - 1) + 1
      ensures Recorded(calls, log, render, |roles| - 1, oracle, Schedule(roles, rounds), rounds * (|roles| - 1))
      ensures calls[|log| - 1].context == Some(log[..|log| - 1])
      ensures verdict == log[|log| - 1] == VerdictText(oracle[|log| - 1])
    {
      var n := |roles| - 1;
      ghost var schedule := Schedule(roles, rounds);
      ScheduleEndsWithJudge(roles, rounds);
      log := [];
      calls := [];
      verdict := "";
      var roundNum := 0;
      while roundNum < rounds + 1
        invariant 0 <= roundNum <= rounds + 1
        invariant roundNum <= rounds ==> |log| == roundNum * n
        invariant Recorded(calls, log, render, n, oracle, schedule, rounds * n)
        invariant roundNum == rounds + 1 ==>
          |log| == rounds * n + 1
          && calls[rounds * n].context == Some(log[..rounds * n])
          && verdict == log[rounds * n] == VerdictText(oracle[rounds * n])
      {
        if roundNum <= rounds - 1 {
          RoundTurnsAt(roles, rounds, roundNum, |log|);
          calls, log := RunRound(topic, roles, roundNum, oracle, render, schedule, rounds * n, calls, log);
        } else {
          ghost var log0 := log;
          verdict, calls, log := RunJudge(topic, roundNum, oracle, render, n, schedule, calls, log);
          assert log[..|log0|] == log0;
        }
        roundNum := roundNum + 1;
      }
    }

    /** Runs a debate. `oracle[k]` is the outcome of the k-th model call and
        `elapsed` stands for the measured wall-clock time. Besides the result,
        returns every call made (`calls`) and the response log (`log`). */
    method RunDebate(topic: string, agentCount: int := 4, rounds: int := 2, oracle: seq<Outcome>, elapsed: real)
      returns (result: DebateResult, calls: seq<Call>, log: seq<string>)
      requires rounds >= 0
      requires |oracle| >= CallCount(agentCount, rounds)
      // one call per turn of the schedule, one log entry per call
      ensures |calls| == |log| == CallCount(agentCount, rounds)
      ensures forall k | 0 <= k < |calls| :: calls[k].turn == Schedule(Roles(agentCount), rounds)[k]
      ensures forall k | 0 <= k < |calls| ::
        calls[k].prompt == GetAgentPrompt(Name(calls[k].turn.role), topic, calls[k].turn.roundNum, calls[k].context)
      // non-terminal calls see a window of the log and log their reply
      ensures forall k | 0 <= k < |calls| - 1 ::
        calls[k].context == LastEntries(log, k, |Roles(agentCount)| - 1) && log[k] == ResponseText(oracle[k])
      // the Judge sees the whole log, and its reply is the verdict
      ensures calls[|calls| - 1].context == Some(log[..|log| - 1])
      ensures result.finalVerdict == log[|log| - 1] == VerdictText(oracle[|log| - 1])
      // the summary
      ensures result.topic == topic && result.agentsCount == agentCount && result.rounds == rounds
      ensures result.executionTime == elapsed
      ensures result.qualityScores == AssessQuality(result.finalVerdict)
      ensures result.convergence == Converged(result.finalVerdict)
      ensures result.excerpts == Excerpts(result.finalVerdict)
    {
      var roles := Roles(agentCount);
      ghost var render := RenderFor(topic);
      var verdict;
      verdict, calls, log := Converse(topic, roles, rounds, oracle, render);
      PromptsByName(calls, render, topic);
      result := DebateResult(topic, agentCount, rounds, verdict, AssessQuality(verdict),
                             Converged(verdict), elapsed, Excerpts(verdict));
    }
  }
}
