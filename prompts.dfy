/** `WorkingMultiAgentDebate.get_agent_prompt`: the role-specific instruction
    text sent to the model. The role arrives as a string, as in the source; a
    name other than the four known ones falls back to a one-line prompt. */
module Prompts {
  import opened Text

  datatype Option<+T> = None | Some(value: T)

  /** The four roles the engine knows. */
  datatype Role = Researcher | Critic | Synthesizer | Judge

  /** The name the source uses for a role. */
  function Name(r: Role): string {
    match r
    case Researcher => "Researcher"
    case Critic => "Critic"
    case Synthesizer => "Synthesizer"
    case Judge => "Judge"
  }

  /** The role a name stands for; `None` for a name the engine does not know. */
  function RoleOf(name: string): (r: Option<Role>)
    ensures r.Some? ==> Name(r.value) == name
  {
    if name == "Researcher" then Some(Researcher)
    else if name == "Critic" then Some(Critic)
    else if name == "Synthesizer" then Some(Synthesizer)
    else if name == "Judge" then Some(Judge)
    else None
  }

  /** Every role is recognised again from its name. */
  lemma RoleOfName(r: Role)
    ensures RoleOf(Name(r)) == Some(r)
  {
  }

  /** The prompt for a role's name is that role's template. */
  lemma PromptOfName(r: Role, topic: string, roundNum: int, prev: Option<seq<string>>)
    ensures GetAgentPrompt(Name(r), topic, roundNum, prev) == RolePrompt(r, topic, roundNum, prev)
  {
    RoleOfName(r);
  }

  /** Python truthiness of `previous_responses`: both `None` and `[]` are false. */
  predicate HasHistory(prev: Option<seq<string>>) {
    prev.Some? && |prev.value| > 0
  }

  /** How many characters of each earlier response a role's prompt quotes. */
  function QuoteLimit(role: Role): nat {
    if role == Judge then 300 else 200
  }

  /** `f"- {resp[:limit]}..."`. */
  function Bullet(resp: string, limit: nat): string {
    "- " + Take(resp, limit) + "..."
  }

  /** The newline-joined bullet list, or `""` when there is no history. */
  function HistoryBlock(prev: Option<seq<string>>, limit: nat): string {
    if HasHistory(prev) then
      Join(seq(|prev.value|, i requires 0 <= i < |prev.value| => Bullet(prev.value[i], limit)), "\n")
    else ""
  }

  function HistoryHeading(prev: Option<seq<string>>): string {
    if HasHistory(prev) then "Previous responses:" else ""
  }

  /** The template the Researcher, Critic and Synthesizer prompts share. */
  function Framed(intro: string, topic: string, roundNum: int, prev: Option<seq<string>>, instructions: string): string {
    intro + topic + "\n\nRound: " + IntToString(roundNum) + "\n\n"
    + HistoryHeading(prev) + "\n" + HistoryBlock(prev, 200) + "\n\n"
    + instructions + "\n\nWrite 2-3 paragraphs."
  }

  /** Instructions whose three items depend on whether a later round reacts to earlier output. */
  function Steps(lead: string, later: bool, laterSteps: seq<string>, firstSteps: seq<string>): string
    requires |laterSteps| == 3 && |firstSteps| == 3
  {
    var s := if later then laterSteps else firstSteps;
    lead + "\n1. " + s[0] + "\n2. " + s[1] + "\n3. " + s[2]
  }

  const ResearcherIntro: string := "You are a researcher analyzing this topic: "
  const CriticIntro: string := "You are a critic analyzing this topic: "
  const SynthesizerIntro: string := "You are a synthesizer analyzing this topic: "
  const JudgeIntro: string := "You are a judge evaluating this topic: "
  const FallbackIntro: string := "Please provide your analysis on: "

  const CriticLaterLead: string := "As a critic, analyze the previous responses and:"
  const CriticFirstLead: string := "As a critic, provide your analysis:"
  const SynthesizerLaterLead: string := "As a synthesizer, review all responses and:"
  const SynthesizerFirstLead: string := "As a synthesizer, provide your analysis:"

  /** The numbered instructions of a non-Judge role; Critic and Synthesizer
      react to earlier output from round 2 on. */
  function Instructions(role: Role, roundNum: int): string
    requires role != Judge
  {
    match role
    case Researcher =>
      "As a researcher, provide your analysis:\n1. Your position on this topic\n"
      + "2. Supporting evidence or examples\n3. Consider potential counterarguments"
    case Critic =>
      Steps(if roundNum > 1 then CriticLaterLead else CriticFirstLead, roundNum > 1,
        ["Identify any issues or gaps", "Suggest improvements", "Highlight important considerations"],
        ["Your position", "Supporting points", "Important considerations"])
    case Synthesizer =>
      Steps(if roundNum > 1 then SynthesizerLaterLead else SynthesizerFirstLead, roundNum > 1,
        ["Find common themes", "Propose balanced solutions", "Highlight key benefits"],
        ["Your position", "Supporting points", "Key benefits"])
  }

  /** The Judge's prompt: every earlier response, no round number. */
  function JudgePrompt(topic: string, prev: Option<seq<string>>): string {
    JudgeIntro + topic + "\n\nFinal Round\n\nAll previous responses:\n"
    + HistoryBlock(prev, 300) + "\n\n"
    + "As a judge, evaluate all responses and provide your final assessment:\n"
    + "1. Summarize the main points\n2. Evaluate the reasoning\n"
    + "3. Provide your conclusion\n4. Explain your reasoning\n\nWrite 3-4 paragraphs."
  }

  /** The prompt of a known role. */
  function RolePrompt(role: Role, topic: string, roundNum: int, prev: Option<seq<string>>): string {
    if role == Judge then JudgePrompt(topic, prev)
    else Framed(Intro(Some(role)), topic, roundNum, prev, Instructions(role, roundNum))
  }

  /** `get_agent_prompt(role, topic, round_num, previous_responses)`. */
  function GetAgentPrompt(role: string, topic: string, roundNum: int, prev: Option<seq<string>> := None): string {
    match RoleOf(role)
    case Some(r) => RolePrompt(r, topic, roundNum, prev)
    case None => Intro(None) + topic
  }

  /** The opening line that names the role and the topic. */
  function Intro(role: Option<Role>): string {
    match role
    case Some(Researcher) => ResearcherIntro
    case Some(Critic) => CriticIntro
    case Some(Synthesizer) => SynthesizerIntro
    case Some(Judge) => JudgeIntro
    case None => FallbackIntro
  }

  /** Every known role's prompt opens with its framing followed by the topic. */
  lemma PromptOpensWithTopic(role: Role, topic: string, roundNum: int, prev: Option<seq<string>>)
    ensures IsPrefix(Intro(Some(role)) + topic, GetAgentPrompt(Name(role), topic, roundNum, prev))
  {
    RoleOfName(role);
    if role == Judge {
      var p := JudgePrompt(topic, prev);
      OpensWith(JudgeIntro + topic, p[|JudgeIntro + topic|..], p);
    } else {
      FramedOpens(Intro(Some(role)), topic, roundNum, prev, Instructions(role, roundNum));
    }
  }

  /** A name outside the four known ones gets the one-line prompt, whatever
      the round and the history. */
  lemma UnknownRoleFallback(name: string, topic: string, roundNum: int, prev: Option<seq<string>>)
    requires name != "Researcher" && name != "Critic" && name != "Synthesizer" && name != "Judge"
    ensures GetAgentPrompt(name, topic, roundNum, prev) == FallbackIntro + topic
  {
  }

  /** The shared template opens with its intro and the topic. */
  lemma FramedOpens(intro: string, topic: string, roundNum: int, prev: Option<seq<string>>, instructions: string)
    ensures IsPrefix(intro + topic, Framed(intro, topic, roundNum, prev, instructions))
  {
    var p := Framed(intro, topic, roundNum, prev, instructions);
    OpensWith(intro + topic, p[|intro + topic|..], p);
  }

  /** A string built as `head + rest` opens with `head`. */
  lemma OpensWith(head: string, rest: string, p: string)
    requires p == head + rest
    ensures IsPrefix(head, p)
  {
    assert p[..|head|] == head;
  }

  /** The k-th bullet of a non-empty history occurs in the history block. */
  lemma BulletInBlock(prev: Option<seq<string>>, limit: nat, k: nat)
    requires HasHistory(prev) && k < |prev.value|
    ensures Contains(HistoryBlock(prev, limit), Bullet(prev.value[k], limit))
  {
    var bullets := seq(|prev.value|, i requires 0 <= i < |prev.value| => Bullet(prev.value[i], limit));
    JoinContainsPart(bullets, "\n", k);
  }

  /** `x` occurs in `a + x + b`. */
  lemma Middle(a: string, x: string, b: string, p: string)
    requires p == a + x + b
    ensures Contains(p, x)
  {
    ContainsSelf(x);
    ContainsInContext(a, x, b, x);
  }

  /** The shared template holds its round line. */
  lemma FramedStatesRound(intro: string, topic: string, roundNum: int, prev: Option<seq<string>>, instructions: string)
    ensures Contains(Framed(intro, topic, roundNum, prev, instructions), "Round: " + IntToString(roundNum))
  {
    var line := "Round: " + IntToString(roundNum);
    var s0 := intro + topic + "\n\nRound: " + IntToString(roundNum);
    var k := |intro + topic| + 2;
    assert s0[k..k + |line|] == line;
    ContainsAt(s0, line, k);
    var s1 := s0 + "\n\n" + HistoryHeading(prev);
    ContainsAppend(s0, "\n\n", line);
    ContainsAppend(s0 + "\n\n", HistoryHeading(prev), line);
    var s2 := s1 + "\n" + HistoryBlock(prev, 200);
    ContainsAppend(s1, "\n", line);
    ContainsAppend(s1 + "\n", HistoryBlock(prev, 200), line);
    var s3 := s2 + "\n\n" + instructions;
    ContainsAppend(s2, "\n\n", line);
    ContainsAppend(s2 + "\n\n", instructions, line);
    ContainsAppend(s3, "\n\nWrite 2-3 paragraphs.", line);
  }

  /** The shared template holds its history block. */
  lemma FramedHoldsHistory(intro: string, topic: string, roundNum: int, prev: Option<seq<string>>, instructions: string)
    ensures Contains(Framed(intro, topic, roundNum, prev, instructions), HistoryBlock(prev, 200))
  {
    var p := Framed(intro, topic, roundNum, prev, instructions);
    var block := HistoryBlock(prev, 200);
    var a := intro + topic + "\n\nRound: " + IntToString(roundNum) + "\n\n" + HistoryHeading(prev) + "\n";
    Middle(a, block, p[|a| + |block|..], p);
  }

  /** The shared template holds its instructions. */
  lemma FramedHoldsInstructions(intro: string, topic: string, roundNum: int, prev: Option<seq<string>>, instructions: string)
    ensures Contains(Framed(intro, topic, roundNum, prev, instructions), instructions)
  {
    var p := Framed(intro, topic, roundNum, prev, instructions);
    var tail := "\n\nWrite 2-3 paragraphs.";
    var a := p[..|p| - |tail| - |instructions|];
    Middle(a, instructions, tail, p);
  }

  /** The Judge's prompt holds its history block. */
  lemma JudgeHoldsHistory(topic: string, prev: Option<seq<string>>)
    ensures Contains(JudgePrompt(topic, prev), HistoryBlock(prev, 300))
  {
    var p := JudgePrompt(topic, prev);
    var block := HistoryBlock(prev, 300);
    var a := JudgeIntro + topic + "\n\nFinal Round\n\nAll previous responses:\n";
    Middle(a, block, p[|a| + |block|..], p);
  }

  /** With history, a role's prompt quotes every earlier response as a bullet
      holding the start of that response, cut at the role's limit (300
      characters for the Judge, 200 otherwise). */
  lemma PromptQuotesHistory(role: Role, topic: string, roundNum: int, prev: Option<seq<string>>, k: nat)
    requires HasHistory(prev) && k < |prev.value|
    ensures Contains(GetAgentPrompt(Name(role), topic, roundNum, prev), Bullet(prev.value[k], QuoteLimit(role)))
    ensures |Take(prev.value[k], QuoteLimit(role))| <= QuoteLimit(role)
    ensures IsPrefix(Take(prev.value[k], QuoteLimit(role)), prev.value[k])
  {
    PromptOfName(role, topic, roundNum, prev);
    RoleQuotesHistory(role, topic, roundNum, prev, k);
  }

  /** The same, for the role's own template. */
  lemma RoleQuotesHistory(role: Role, topic: string, roundNum: int, prev: Option<seq<string>>, k: nat)
    requires HasHistory(prev) && k < |prev.value|
    ensures Contains(RolePrompt(role, topic, roundNum, prev), Bullet(prev.value[k], QuoteLimit(role)))
  {
    var limit := QuoteLimit(role);
    BulletInBlock(prev, limit, k);
    if role == Judge {
      JudgeHoldsHistory(topic, prev);
    } else {
      FramedHoldsHistory(Intro(Some(role)), topic, roundNum, prev, Instructions(role, roundNum));
    }
    ContainsTrans(RolePrompt(role, topic, roundNum, prev), HistoryBlock(prev, limit), Bullet(prev.value[k], limit));
  }

  /** Without history (None or an empty list) the prompt is the one for None:
      no heading and no bullets. */
  lemma NoHistoryNoQuotes(name: string, topic: string, roundNum: int, prev: Option<seq<string>>)
    requires !HasHistory(prev)
    ensures HistoryHeading(prev) == "" && HistoryBlock(prev, 200) == "" && HistoryBlock(prev, 300) == ""
    ensures GetAgentPrompt(name, topic, roundNum, prev) == GetAgentPrompt(name, topic, roundNum, None)
  {
    assert HistoryBlock(prev, 200) == HistoryBlock(None, 200) && HistoryBlock(prev, 300) == HistoryBlock(None, 300);
    assert HistoryHeading(prev) == HistoryHeading(None);
  }

  /** The Judge's prompt does not depend on the round number. */
  lemma JudgeIgnoresRound(topic: string, r1: int, r2: int, prev: Option<seq<string>>)
    ensures GetAgentPrompt(Name(Judge), topic, r1, prev) == GetAgentPrompt(Name(Judge), topic, r2, prev)
  {
    RoleOfName(Judge);
  }

  /** The instructions open with their lead line. */
  lemma StepsOpenWithLead(lead: string, later: bool, laterSteps: seq<string>, firstSteps: seq<string>)
    requires |laterSteps| == 3 && |firstSteps| == 3
    ensures Contains(Steps(lead, later, laterSteps, firstSteps), lead)
  {
    var s := Steps(lead, later, laterSteps, firstSteps);
    assert s == lead + s[|lead|..];
    ContainsSelf(lead);
    ContainsAppend(lead, s[|lead|..], lead);
  }

  /** Critic and Synthesizer ask to react to earlier output from round 2 on,
      and to open fresh in round 1 (or earlier). */
  lemma LaterRoundsReact(role: Role, topic: string, roundNum: int, prev: Option<seq<string>>)
    requires role == Critic || role == Synthesizer
    ensures roundNum > 1 ==> Contains(GetAgentPrompt(Name(role), topic, roundNum, prev),
                                      if role == Critic then CriticLaterLead else SynthesizerLaterLead)
    ensures roundNum <= 1 ==> Contains(GetAgentPrompt(Name(role), topic, roundNum, prev),
                                       if role == Critic then CriticFirstLead else SynthesizerFirstLead)
  {
    RoleOfName(role);
    var ins := Instructions(role, roundNum);
    var lead := if role == Critic then (if roundNum > 1 then CriticLaterLead else CriticFirstLead)
                else (if roundNum > 1 then SynthesizerLaterLead else SynthesizerFirstLead);
    if role == Critic {
      StepsOpenWithLead(lead, roundNum > 1,
        ["Identify any issues or gaps", "Suggest improvements", "Highlight important considerations"],
        ["Your position", "Supporting points", "Important considerations"]);
    } else {
      StepsOpenWithLead(lead, roundNum > 1,
        ["Find common themes", "Propose balanced solutions", "Highlight key benefits"],
        ["Your position", "Supporting points", "Key benefits"]);
    }
    FramedHoldsInstructions(Intro(Some(role)), topic, roundNum, prev, ins);
    ContainsTrans(RolePrompt(role, topic, roundNum, prev), ins, lead);
  }

  /** Researcher, Critic and Synthesizer prompts state the round number. */
  lemma PromptStatesRound(role: Role, topic: string, roundNum: int, prev: Option<seq<string>>)
    requires role != Judge
    ensures Contains(GetAgentPrompt(Name(role), topic, roundNum, prev), "Round: " + IntToString(roundNum))
  {
    RoleOfName(role);
    FramedStatesRound(Intro(Some(role)), topic, roundNum, prev, Instructions(role, roundNum));
  }
}
