# Multi-agent debate engine, modelled in Dafny

This project models the debate engine of `multi_agent_debate.py`. A topic is
debated by up to three non-terminal agents (Researcher, Critic, Synthesizer)
over a number of rounds. A Judge then reads everything that was said and gives
a final verdict. The verdict is scored by a keyword rubric, checked for
"convergence" words and summarised in a `DebateResult`.

The model has four modules, one file each:

- `text.dfy` (`Text`): the Python string operations the engine relies on.
  These are substring search (`p in s`), `str.lower()`, the word count of
  `str.split()`, `s[:n]`, `sep.join(parts)` and `str(n)`.
- `quality.dfy` (`Quality`): `QualityRubric.assess_quality`, the four-dimension
  score of a text.
- `prompts.dfy` (`Prompts`): `get_agent_prompt`, the prompt text of each role.
  The role arrives as a string, and an unknown name gets the one-line fallback.
- `debate.dfy` (`Debate`): the reply extraction, the role list, the order of
  the model calls, the window of earlier responses each agent sees, the
  convergence flag, the excerpts, `DebateResult`, and the class
  `DebateEngine`. The class holds the constructor, `run_debate` (`RunDebate`)
  and the two loops inside it.

The language model is an oracle. `RunDebate` receives the outcomes of its
calls as a sequence `oracle`, consumed in call order. It returns the
`DebateResult` and, besides it, the list of calls made (turn, context, prompt)
and the response log (`all_responses`). Its contract ties each call to the
schedule, each prompt to `get_agent_prompt`, each context to the window of the
log, and each log entry and the verdict to the oracle's outcome.

With `agent_count = 2` the roles are Researcher, Critic, Judge: the Judge is
appended to the two sliced roles. So 2 rounds make 2 · 2 + 1 = 5 model calls
(`Debate.TwoAgentsTwoRounds`).

The result of a debate is the record `DebateResult` (lines 16-26 of
`multi_agent_debate.py`), a Dafny datatype with the same eight fields.

The window an agent sees is `all_responses[-len(roles)+1:]`, taken only when
the log is strictly longer than `len(roles) - 1`. So the first agent of round 2
still gets no history, and the window holds `len(roles) - 1` entries.

## Model

| member | source | states |
|---|---|---|
| Text.Contains | multi_agent_debate.py:46 | Python's `p in s`, searched position by position; `ContainsAt` and `ContainsWitness` tie it to an occurrence at some index, in both directions |
| Text.ContainsAt | multi_agent_debate.py:46 | an occurrence of `p` at a known index of `s` makes `p in s` true |
| Text.ContainsWitness | multi_agent_debate.py:46 | when `p in s` holds, `p` occurs at some index of `s` |
| Text.Lower | multi_agent_debate.py:42 | `str.lower()` character by character (ASCII letters); `LowerAppend` and `LowerKeepsSpaces` state its properties |
| Text.LowerAppend | multi_agent_debate.py:42 | lowering distributes over concatenation |
| Text.LowerKeepsSpaces | multi_agent_debate.py:42 | lowering never turns a character into, or out of, a whitespace separator |
| Text.WordCount | multi_agent_debate.py:62 | `len(content.split())`: the number of maximal runs of non-whitespace; `WordCountBySpaces` and `WordCountAppend` state its properties |
| Text.WordCountBySpaces | multi_agent_debate.py:62 | strings with whitespace at the same positions have the same word count |
| Text.WordCountAppend | multi_agent_debate.py:62 | appending text never lowers the word count |
| Text.Join | multi_agent_debate.py:100 | `chr(10).join(bullets)`; `JoinContainsPart` states it |
| Text.JoinContainsPart | multi_agent_debate.py:100 | every part occurs in the joined text |
| Text.NatToString | multi_agent_debate.py:97 | `str(n)` for `n >= 0`: a non-empty string of decimal digits whose first digit is `0` exactly when `n == 0` |
| Text.NatToStringValue | multi_agent_debate.py:97 | the digits of `str(n)` denote `n` again |
| Text.IntToString | multi_agent_debate.py:97 | `str(round_num)`: non-empty, opening with `-` exactly when the number is negative |
| Text.IntToStringValue | multi_agent_debate.py:97 | `str(n)` is the digits of `n` for `n >= 0`, and `-` followed by the digits of `-n` otherwise; either way the digits denote the magnitude |
| Text.Take | multi_agent_debate.py:100 | `resp[:n]` is a prefix of `resp` of at most `n` characters, the whole string when it is that short and exactly `n` characters otherwise |
| Quality.AssessQuality | multi_agent_debate.py:32-64 | each of the four scores lies in [0, 5]; evidence and feasibility are half the indicator count of the lower-cased text and at most 3.5, risks likewise and at most 3.0 |
| Quality.ClarityBlend | multi_agent_debate.py:59-62 | clarity is `min(5, 0.3 * d + words / 50)`, where `d` is the number of distinct clarity indicators in the lower-cased text |
| Quality.CountPresent | multi_agent_debate.py:46 | the generator sum counts at most one per indicator; `CountIsDistinctPresent` gives its meaning |
| Quality.CountIsDistinctPresent | multi_agent_debate.py:46 | the indicator count equals the number of distinct indicators occurring in the text, however often each occurs |
| Quality.KeywordScoreCountsDistinct | multi_agent_debate.py:44-57 | each keyword-only score is 0.5 times the number of distinct indicators present |
| Quality.EmptyTextScoresZero | multi_agent_debate.py:34-64 | the empty text scores 0 in all four dimensions |
| Quality.ScoresIgnoreCase | multi_agent_debate.py:42-62 | texts equal after lower-casing get identical scores (indicators are matched on the lowered text, words counted on the original) |
| Quality.AppendNeverLowersScores | multi_agent_debate.py:42-62 | appending text never lowers any of the four scores |
| Quality.AddedIndicatorRaisesScore | multi_agent_debate.py:44-62 | appending text that brings an indicator the text lacked raises that score by its weight (0.5, or 0.3 for clarity), up to the cap of 5 |
| Prompts.GetAgentPrompt | multi_agent_debate.py:91-156 | the prompt of a role name (history defaults to `None`); its properties are the lemmas below: `PromptOfName`, `PromptOpensWithTopic`, `UnknownRoleFallback`, `PromptQuotesHistory`, `NoHistoryNoQuotes`, `JudgeIgnoresRound`, `LaterRoundsReact`, `PromptStatesRound` |
| Prompts.RoleOf | multi_agent_debate.py:94-156 | a recognised name is exactly the name of the role it maps to |
| Prompts.RoleOfName | multi_agent_debate.py:94-139 | each of the four role names is recognised as its own role |
| Prompts.PromptOfName | multi_agent_debate.py:94-153 | the prompt for a role's name is that role's template |
| Prompts.PromptOpensWithTopic | multi_agent_debate.py:94-153 | every known role's prompt opens with its framing line ("You are a researcher analyzing this topic: ", …) followed by the topic |
| Prompts.UnknownRoleFallback | multi_agent_debate.py:155-156 | any other name gets "Please provide your analysis on: " + topic, whatever the round and history |
| Prompts.PromptQuotesHistory | multi_agent_debate.py:99-145 | with non-empty history, a role's prompt contains every earlier response as a bullet `- <start>...`, where the start is a prefix of at most 300 characters for the Judge and 200 otherwise |
| Prompts.RoleQuotesHistory | multi_agent_debate.py:99-145 | the same for the role's template |
| Prompts.NoHistoryNoQuotes | multi_agent_debate.py:99-145 | without history (`None` or `[]`) the heading and both bullet blocks are empty, and the prompt equals the one for `None` |
| Prompts.JudgeIgnoresRound | multi_agent_debate.py:139-153 | the Judge's prompt does not depend on the round number |
| Prompts.LaterRoundsReact | multi_agent_debate.py:117-135 | from round 2 on, Critic and Synthesizer ask to analyse or review the earlier responses; in round 1 or earlier, they ask for a fresh analysis |
| Prompts.PromptStatesRound | multi_agent_debate.py:97-127 | the Researcher, Critic and Synthesizer prompts contain `Round: <n>` |
| Debate.ResponseText | multi_agent_debate.py:187-199 | the text an agent's outcome yields; `ExtractionCases` states each case |
| Debate.VerdictText | multi_agent_debate.py:216-228 | the verdict the Judge's outcome yields; `ExtractionCases` states each case |
| Debate.ExtractionCases | multi_agent_debate.py:187-228 | generated text passes unchanged; an exception becomes `Error: <message>`; a candidate without content parts becomes a placeholder naming its finish reason and closing with `)` (`No content generated (finish_reason: <reason>)` for an agent, `No verdict generated …` for the Judge); no candidates become the fixed messages of agent and Judge |
| Debate.Roles | multi_agent_debate.py:163-165 | the role list ends with the Judge, which occurs nowhere else; the others are the first of Researcher, Critic, Synthesizer: min(count, 3) of them, or 4 + count (at least 0) for a negative count |
| Debate.TwoAgentsTwoRounds | multi_agent_debate.py:163-177 | 2 agents give Researcher, Critic, Judge, and 2 rounds make 5 calls |
| Debate.InteriorTurns | multi_agent_debate.py:170-177 | the non-terminal turns, round after round: `rounds * n` of them for `n` non-terminal roles |
| Debate.Schedule | multi_agent_debate.py:170-215 | the order of all calls; `ScheduleAt`, `ScheduleEndsWithJudge` and `JudgeOnlyLast` state it |
| Debate.ScheduleAt | multi_agent_debate.py:170-177 | the calls run round by round and role by role: call `r * n + i` is role `i` in round `r + 1`, and there are `rounds * n + 1` calls |
| Debate.ScheduleEndsWithJudge | multi_agent_debate.py:170-213 | the last call is the Judge's, in round `rounds + 1` |
| Debate.JudgeOnlyLast | multi_agent_debate.py:170-213 | no call before the last is the Judge's, and each falls in a round from 1 to `rounds` |
| Debate.RoundTurnsAt | multi_agent_debate.py:170-177 | round `r + 1` takes the `n` schedule slots from `r * n` on, one per non-terminal role in order |
| Debate.Window | multi_agent_debate.py:181 | `all_responses[-len(roles)+1:]` if the log is longer than `len(roles) - 1`, else `None`, with Python's negative slicing; `WindowIsLastEntries` states it in plain terms |
| Debate.WindowIsLastEntries | multi_agent_debate.py:181 | the context is the last `len(roles) - 1` log entries when the log is longer than that, else `None` |
| Debate.Converged | multi_agent_debate.py:239-240 | the convergence flag; `ConvergedIff` states it |
| Debate.ConvergedIff | multi_agent_debate.py:239-240 | convergence holds exactly when one of consensus, agreement, conclusion, verdict or decision occurs in the lower-cased verdict |
| Debate.ConsensusVerdictConverges | multi_agent_debate.py:239-240 | a verdict mentioning a consensus is flagged as converged |
| Debate.VerdictExcerpt | multi_agent_debate.py:245 | the second excerpt; `ExcerptsShape` states it |
| Debate.Excerpts | multi_agent_debate.py:243-246 | the excerpt list; `ExcerptsShape` states it |
| Debate.ExcerptsShape | multi_agent_debate.py:243-246 | two excerpts: the fixed completion line, then "Final verdict: " with the whole verdict when it has at most 200 characters, else its first 200 followed by "..." |
| Debate.PromptsByName | multi_agent_debate.py:184 | prompts rendered per role equal `get_agent_prompt` applied to the role's name |
| Debate.DebateEngine.constructor | multi_agent_debate.py:69-89 | the model name and temperature are stored, with the source's defaults |
| Debate.DebateEngine.RunRound | multi_agent_debate.py:177-205 | one round adds one call and one log entry per non-terminal role; each call has its schedule turn, its prompt and the log window as context, and logs the reply its outcome yields |
| Debate.DebateEngine.RunJudge | multi_agent_debate.py:207-229 | the Judge is given the whole log, and its verdict is the text its outcome yields, appended to the log |
| Debate.DebateEngine.Converse | multi_agent_debate.py:170-229 | the rounds loop makes `rounds * n + 1` calls that follow the schedule; every non-terminal call saw its window and logged its reply; the Judge saw the whole earlier log and its reply is the verdict |
| Debate.DebateEngine.RunDebate | multi_agent_debate.py:158-257 | `agent_count` defaults to 4 and `rounds` to 2; one call per schedule turn, `rounds * (len(roles) - 1) + 1` in all; each prompt is `get_agent_prompt` for the turn's role, round and context; non-terminal calls see the log window and log their reply; the Judge sees the whole log; the result echoes topic, agent count and rounds, and its verdict, scores, convergence flag and excerpts are computed from the Judge's outcome |

## Left out

- Configuring the client (`genai.configure`, the `GOOGLE_API_KEY` variable, the generation config and safety settings of lines 72-87) talks to an external service. `DebateEngine` keeps only the model name and temperature.
- The model call `generate_content` is an oracle: its outcomes are a given sequence and do not depend on the prompt. The prompts are returned in `calls`, so a caller can still relate outcomes to them.
- `time.time()` is replaced by the parameter `elapsed`. `time.sleep(1)` and every `print` are left out, because they change no result.
- `round_responses` is left out: it is filled but never read.
- `main()` and the other files of the repository (`run_experiments.py`, `setup.py`, `demo.py`) are not part of this model.
- Floating point: scores are exact reals, while Python's floats may round the last digit of values such as `0.3 * 3`.
- Text.LowerChar: maps only ASCII `A`-`Z`. Python's `str.lower()` also lowers other letters, which can matter for which indicators match.
- Debate.DebateEngine.RunDebate: requires `rounds >= 0`. For negative `rounds` the source never runs the Judge round and fails on the unbound `final_verdict_text`.
- Debate.DebateEngine.RunDebate: requires at least one oracle outcome per call. This bounds the given outcomes and adds nothing the source demands.
- The finish reason and exception message are modelled as the strings Python would format; how `str()` renders them is not modelled.
