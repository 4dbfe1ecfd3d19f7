# AI Debate Arena — verified model of the game rules

AI Debate Arena is a debate game. A user argues a topic against a language-model
opponent, a language-model judge scores every argument, and the scores cost
health. This project models the three pieces of the repository that have exact
rules:

- **The two-health match** (`streamlit_app.py`, module `Arena`). The user and
  the AI each start with 100 health. Each turn the judge's `TurnScore` gives
  each side damage: 20 for relevance below 50, 10 for logic below 50, and 10
  more when the judge names the other side the winner. Each health is reduced
  with a floor at 0. The match is over as soon as either health is at or below
  0. The winner is DRAW when both are at 0, YOU when only the AI's is, and AI
  otherwise. "Start Debate" resets the match. "End & Analyze" forces the
  user's health to 0, so a forced end when the AI's health is already 0
  gives DRAW. When the judge fails, a neutral score (all 50, "draw") is used.
  Scores are not clamped: the model takes them as arbitrary integers. An
  empty argument is skipped, as the page's chat input is.
- **The single-health dojo** (`frontend/app.py`, module `Dojo`). Only the user
  has health. Each analysed argument costs 20 for relevance below 50, 10 for
  logic below 50 and 10 for civility below 40. The radar chart is replaced by
  the five latest scores. A failed analysis changes neither health nor chart.
  A rebuttal is asked for only while the user still has health, and at 0
  health no further argument is taken. "Enter Arena" resets health, round and
  the game-over flag, and leaves one opening message. It does not reset the
  radar chart or the last coaching tip. The page never sets `game_over` to
  true and never advances `round`, so the invariant records both as constant.
- **The rebuttal prompt helpers** (`backend/services.py`, module `Prompts`).
  The conversation history is cut to its last five entries. Each entry becomes
  a `role: content` line, with "unknown" and "" standing in for missing keys,
  and the lines are joined by newlines. Two fixed tables give the persona and
  difficulty instructions, with "Skilled debater." and "Standard level." as the
  fallbacks.

Each Streamlit page is a class (`Arena.ArenaSession`, `Dojo.DojoSession`) whose
fields are the page's session-state entries. Each button or chat input is a
method. Each method is proved to leave the state that a function on the
state's value (`Arena.Match`, `Dojo.Dojo`) describes. The game's properties
are lemmas about those functions: single turns, and whole sequences of turns
(`Play`). Everything coming from a language model or an HTTP call (openings,
rebuttals, judge scores, analyses) is a parameter of type `Option`, where
`None` means the call raised or answered with a status other than 200.

The files are `common.dfy` (shared `Option`, `Message`, `Max`, `Count`, `Hit`),
`prompts.dfy`, `arena.dfy` and `dojo.dfy`.

## Model

| member | source | states |
|---|---|---|
| Common.Hit | streamlit_app.py:259-260 | `max(0, hp - dmg)` is never negative; it is 0 exactly when the damage covers the health; otherwise it is `hp - dmg`; with non-negative inputs it never exceeds `hp` |
| Arena.Fallback | streamlit_app.py:108 | the judge's fallback is a draw (every score 50) that deals no damage to either side |
| Arena.ScorePenalty | streamlit_app.py:249-255 | the score part of a side's damage is one of 0, 10, 20, 30, and is 0 exactly when relevance and logic are both at least 50 |
| Arena.UserDamage | streamlit_app.py:245-251 | the user's damage is one of 0, 10, 20, 30, 40, and is 0 exactly when relevance ≥ 50, logic ≥ 50 and the winner is not "ai" |
| Arena.AiDamage | streamlit_app.py:253-256 | the AI's damage is one of 0, 10, 20, 30, 40, and is 0 exactly when its relevance ≥ 50, logic ≥ 50 and the winner is not "user" |
| Arena.DamageIsSymmetric | streamlit_app.py:248-256 | the AI's damage equals the user's damage of the mirrored score (sides and winner swapped), and the other way round |
| Arena.AtMostOneWinnerPenalty | streamlit_app.py:251-256 | the two winner penalties of a turn add up to at most 10; a winner other than "ai" or "user" penalises neither side |
| Arena.GameOver | streamlit_app.py:196 | the match is over when either health is at or below 0; on floored healths, exactly when one of them is 0 |
| Arena.Winner | streamlit_app.py:196-198 | in a finished match the verdict is DRAW iff both healths are ≤ 0, YOU iff the user's health is > 0, AI iff only the user's is ≤ 0 |
| Arena.Initial | streamlit_app.py:131-140 | a fresh session is valid, not started, with both healths at 100 |
| Arena.AfterStart | streamlit_app.py:151-164 | starting gives a valid, running match: both healths 100, empty turn log, the chosen settings, and as the only message the assistant's opening ("Let's debate." when generation fails) |
| Arena.StartForgetsPast | streamlit_app.py:151-164 | the state after starting does not depend on the state before it |
| Arena.AfterEnd | streamlit_app.py:184-185 | in a started match the forced end sets the user's health to 0, so the match is over and its winner is never YOU; the match stays started with its settings, history, log and AI health; before a start nothing changes; the invariant holds |
| Arena.AfterRestart | streamlit_app.py:216-218 | restarting a finished match only leaves the setup screen (not started), every other field kept; in any other state nothing changes |
| Arena.AcceptsTurn | streamlit_app.py:191-196 | in a valid match the chat input is reached exactly when the match is started and both healths are above 0, and then the assistant's opening is present |
| Common.Count | streamlit_app.py:227 | the number of inputs the submission gate lets through: at most their number, 0 exactly when none passes, all of them exactly when all pass |
| Arena.AfterTurn | streamlit_app.py:227-267 | outside a running match, or for an empty argument, nothing changes; otherwise the score is logged, the user's argument and then the rebuttal ("I disagree." when generation fails) are appended, each health becomes `Hit(hp, damage)`, and the match stays started with its settings |
| Arena.TurnPreservesValid | streamlit_app.py:227-267 | a turn keeps both healths in [0, 100] and the messages alternating, never raises either health, and appends the user's argument before the assistant's reply |
| Arena.FallbackTurnKeepsHealth | streamlit_app.py:242-260 | a turn whose judging failed leaves both healths unchanged |
| Arena.PlayPreservesValid | streamlit_app.py:259-267 | over any sequence of turns the invariant holds, neither health rises, the log only grows and by at most one entry per turn |
| Arena.NoTurnAfterGameOver | streamlit_app.py:196-219 | once the match is over (or not started), no sequence of submissions changes it |
| Arena.FallbacksNeverEnd | streamlit_app.py:242-260 | a running match fed only failed judgings logs every submitted turn, keeps both healths and never ends |
| Arena.LosingTurnsDrainUser | streamlit_app.py:251-259 | while the match runs, every submitted turn the AI wins costs the user at least 10 health |
| Arena.TenLosingTurnsEndTheMatch | streamlit_app.py:251-259 | ten submitted turns won by the AI always end the match |
| Arena.ArenaSession.constructor | streamlit_app.py:131-140 | the session fields start as the initial match |
| Arena.ArenaSession.StartDebate | streamlit_app.py:151-165 | the new session state is `AfterStart` of the old one |
| Arena.ArenaSession.EndAndAnalyze | streamlit_app.py:184-186 | the new session state is `AfterEnd` of the old one |
| Arena.ArenaSession.RestartDebate | streamlit_app.py:216-218 | the new session state is `AfterRestart` of the old one |
| Arena.ArenaSession.Result | streamlit_app.py:196-200 | a verdict is announced exactly when a started match is over, and it is `Winner` of the two healths |
| Arena.ArenaSession.SubmitArgument | streamlit_app.py:227-267 | the damage accumulated step by step gives the state `AfterTurn` describes; the invariant is kept; neither health rises; a turn is applied exactly when the match is running and the argument is non-empty |
| Dojo.SkillDamage | frontend/app.py:127-137 | damage is one of 0, 10, 20, 30, 40, and is 0 exactly when relevance ≥ 50, logic ≥ 50 and civility ≥ 40 |
| Dojo.DamageIgnoresOtherFields | frontend/app.py:127-137 | two analyses that agree on relevance, logic and civility deal the same damage, whatever their evidence, conciseness, fallacies and texts |
| Dojo.RadarOf | frontend/app.py:116-123 | the radar chart has exactly the five axes, each holding the matching score |
| Dojo.SidebarOptionsAreKnown | frontend/app.py:37-41 | every persona and difficulty the sidebar offers has its own backend instruction, never the fallback |
| Dojo.Initial | frontend/app.py:19-30 | a fresh session is valid, not started, at 100 health, with every radar axis at 50 |
| Dojo.AfterEnter | frontend/app.py:46-63 | entering the arena gives health 100, round 1, not over, the chosen settings, and as the only message the model's opening ("Let's debate." when it cannot be fetched); the radar and the last tip are kept |
| Dojo.AfterRestart | frontend/app.py:92-97 | restarting at 0 health only leaves the setup screen, every other field (tip and settings included) kept; in any other state nothing changes |
| Dojo.AcceptsArgument | frontend/app.py:88-92 | in a valid session the chat input is reached exactly when it is started and health has not reached 0, and then the model's opening is first |
| Dojo.AfterAnalysis | frontend/app.py:110-141 | a failed analysis changes nothing; a successful one sets the radar to the analysis' scores, the tip to its coaching tip (or ""), and the health to `Hit(hp, damage)`, keeping messages, settings, round and game-over flag |
| Dojo.RebuttalRequested | frontend/app.py:144 | a rebuttal is requested exactly for an accepted, non-empty argument after whose analysis the session still accepts arguments |
| Dojo.AfterArgument | frontend/app.py:105-158 | outside a running game, or for an empty argument, nothing changes; otherwise the argument is appended, the analysis' health, radar and tip are taken, the session stays started with its settings, and the model's rebuttal is appended exactly when it was requested and delivered |
| Dojo.ArgumentPreservesValid | frontend/app.py:110-141 | an argument keeps the invariant and never raises the health; after a successful analysis the radar equals its scores; after a failed one health and radar are unchanged |
| Dojo.PlayPreservesValid | frontend/app.py:139 | over any sequence of arguments the invariant holds and the health never rises |
| Dojo.NoArgumentAfterGameOver | frontend/app.py:92-97 | at 0 health (or before entering), no sequence of arguments changes the session |
| Dojo.OffTopicArgumentsDrain | frontend/app.py:129-139 | while the game runs, every submitted off-topic argument costs at least 20 health |
| Dojo.FiveOffTopicArgumentsEndTheGame | frontend/app.py:129-139 | five submitted off-topic arguments always end the game |
| Dojo.DojoSession.constructor | frontend/app.py:19-30 | the session fields start as the initial dojo |
| Dojo.DojoSession.EnterArena | frontend/app.py:46-64 | the new session state is `AfterEnter` of the old one |
| Dojo.DojoSession.Restart | frontend/app.py:94-96 | the new session state is `AfterRestart` of the old one |
| Dojo.DojoSession.SubmitArgument | frontend/app.py:105-158 | the damage accumulated step by step gives the state `AfterArgument` describes; the invariant is kept; health never rises; a rebuttal is requested exactly when a non-empty argument was accepted and left health above 0 |
| Prompts.Get | backend/services.py:47 | `dict.get`: the stored value for a present key, the default otherwise |
| Prompts.Window | backend/services.py:47 | `history[-5:]` has min(5, len) entries and is the tail of the history |
| Prompts.FormatLine | backend/services.py:47 | a line is `role + ": " + content`; a missing role gives "unknown: " + content, a missing content gives role + ": " |
| Prompts.FormatLines | backend/services.py:47 | the comprehension yields one line per window entry, line i being the formatted entry i |
| Prompts.Join | backend/services.py:47 | joining no lines gives ""; joining lines starts with the first line |
| Prompts.HistoryText | backend/services.py:44-47 | the history text is "" exactly when the history is empty |
| Prompts.SplitJoin | backend/services.py:47 | splitting on newlines undoes the join when no line holds a newline |
| Prompts.HistoryTextLines | backend/services.py:44-47 | for a non-empty history of single-line entries the text has exactly min(5, len) lines, the formatted tail entries in original order |
| Prompts.FormatLineSingle | backend/services.py:47 | an entry whose role and content hold no newline gives a line without newline, the defaults included |
| Prompts.PersonaInstruction | backend/services.py:49-64 | each of the five known personas gets its fixed text; the text is "Skilled debater." exactly for unknown personas |
| Prompts.DifficultyInstruction | backend/services.py:57-65 | each of the four known levels gets its fixed text; the text is "Standard level." exactly for unknown levels |

## Left out

- Language-model calls (openings, rebuttals, judging, analysis, final reports) and HTTP requests are not modelled. Their results are `Option` parameters, and every such value is accepted.
- The judge's success branch in `streamlit_app.py` returns a composed chain rather than a score. The model takes the judge to return some `TurnScore`, or the fallback of line 108.
- `time.sleep` on the last line of a turn in `streamlit_app.py` is called without importing `time`. The error comes after every state update of the turn, so the model's state is unaffected; the missing refresh is not modelled.
- The final coaching report, its display, session ids, API keys, CSS, charts, toasts, spinners and `st.rerun` are rendering or glue and are not modelled.
- In `frontend/app.py` the rebuttal request is not guarded by `try`. An exception there ends the run with the same session state as a non-200 answer, which the model has.
- An analysis response with missing score keys raises before any field is assigned, because the radar dictionary is built first. The model therefore treats every failed analysis as one atomic failure.
- The history formatting inside the Streamlit app's own rebuttal and report prompts only builds prompt text and is not modelled. The `Prompts` module models the backend's version.
- `Prompts.HistoryText` takes a list. `if history:` would also treat `None` as empty, but the request schema defaults the history to an empty list.
- History contents that are not strings (any JSON value formatted by an f-string) are not modelled; entries are maps from strings to strings.
- `backend/main.py` (endpoint glue) and `backend/schemas.py` (data shapes only) are not part of this model.
