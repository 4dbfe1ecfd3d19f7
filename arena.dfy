/** The two-health debate match of the single-script Streamlit app: the user
    and the AI each hold a health counter; every turn the judge scores both
    sides and the scores decide how much damage each side takes; the match
    is over once either counter reaches 0.

    The Streamlit session state is the class `ArenaSession`; its abstract
    value is a `Match`, and each button or chat input of the page is a
    method whose new state is given by a function on `Match` (`AfterStart`,
    `AfterEnd`, `AfterRestart`, `AfterTurn`). The lemmas about those
    functions are the properties of the match. */
module Arena {
  import opened Common

  /** The judge's verdict on one exchange. None of the scores is clamped or
      validated, so they are arbitrary integers; `winner` is free text that
      is meant to be "user", "ai" or "draw". */
  datatype TurnScore = TurnScore(
    userLogic: int, userRelevance: int,
    aiLogic: int, aiRelevance: int,
    winner: string, reasoning: string)

  /** The record the judge returns when its call fails: a draw with every
      score at 50. It deals no damage to either side, since 50 is not below
      50 and a draw names no winner. */
  function Fallback(): (r: TurnScore)
    ensures r.winner == "draw"
    ensures UserDamage(r) == 0 && AiDamage(r) == 0
  {
    TurnScore(50, 50, 50, 50, "draw", "Error")
  }

  /** Text used when the opening or the rebuttal cannot be generated. */
  const OpeningFallback: string := "Let's debate."
  const RebuttalFallback: string := "I disagree."

  /** The score-based part of a side's damage: 20 for relevance below 50,
      10 for logic below 50. */
  function ScorePenalty(relevance: int, logic: int): (dmg: int)
    ensures dmg in {0, 10, 20, 30}
    ensures dmg == 0 <==> relevance >= 50 && logic >= 50
  {
    (if relevance < 50 then 20 else 0) + (if logic < 50 then 10 else 0)
  }

  /** Damage the user takes in a turn: the score penalty of the user's own
      scores, plus 10 when the judge names the AI the winner. */
  function UserDamage(s: TurnScore): (dmg: int)
    ensures dmg in {0, 10, 20, 30, 40}
    ensures dmg == 0 <==> s.userRelevance >= 50 && s.userLogic >= 50 && s.winner != "ai"
  {
    ScorePenalty(s.userRelevance, s.userLogic) + (if s.winner == "ai" then 10 else 0)
  }

  /** Damage the AI takes in a turn: the score penalty of the AI's scores,
      plus 10 when the judge names the user the winner. */
  function AiDamage(s: TurnScore): (dmg: int)
    ensures dmg in {0, 10, 20, 30, 40}
    ensures dmg == 0 <==> s.aiRelevance >= 50 && s.aiLogic >= 50 && s.winner != "user"
  {
    ScorePenalty(s.aiRelevance, s.aiLogic) + (if s.winner == "user" then 10 else 0)
  }

  /** The same turn seen from the other side: scores and winner swapped. */
  function Mirror(s: TurnScore): TurnScore
  {
    TurnScore(s.aiLogic, s.aiRelevance, s.userLogic, s.userRelevance,
      if s.winner == "ai" then "user" else if s.winner == "user" then "ai" else s.winner,
      s.reasoning)
  }

  /** The damage rule treats both sides alike. */
  lemma DamageIsSymmetric(s: TurnScore)
    ensures AiDamage(s) == UserDamage(Mirror(s))
    ensures UserDamage(s) == AiDamage(Mirror(s))
  {
  }

  /** At most one side pays the winner penalty in a turn, and a winner other
      than "ai" or "user" (a draw, or any stray text) penalises neither. */
  lemma AtMostOneWinnerPenalty(s: TurnScore)
    ensures (UserDamage(s) - ScorePenalty(s.userRelevance, s.userLogic))
          + (AiDamage(s) - ScorePenalty(s.aiRelevance, s.aiLogic)) <= 10
    ensures s.winner != "ai" && s.winner != "user" ==>
      UserDamage(s) == ScorePenalty(s.userRelevance, s.userLogic) &&
      AiDamage(s) == ScorePenalty(s.aiRelevance, s.aiLogic)
  {
  }

  /** The outcome announced on the game-over screen. */
  datatype Verdict = You | AI | Draw

  /** The game-over gate: either health at or below 0. Healths are floored
      at 0, so on them this means that one of the two has reached exactly 0. */
  predicate GameOver(userHp: int, aiHp: int)
    ensures 0 <= userHp && 0 <= aiHp ==> (GameOver(userHp, aiHp) <==> userHp == 0 || aiHp == 0)
  {
    userHp <= 0 || aiHp <= 0
  }

  /** The winner of a finished match, decided by the final healths alone. */
  function Winner(userHp: int, aiHp: int): (v: Verdict)
    requires GameOver(userHp, aiHp)
    ensures v == Draw <==> userHp <= 0 && aiHp <= 0
    ensures v == You <==> userHp > 0
    ensures v == AI <==> userHp <= 0 < aiHp
  {
    var w := if userHp > 0 then You else AI;
    if userHp <= 0 && aiHp <= 0 then Draw else w
  }

  /** The settings chosen in the sidebar when the debate starts. Before the
      first start only the stance has a value; the other three are never
      read until then and are modelled as "". */
  datatype Config = Config(topic: string, persona: string, difficulty: string, aiSide: string)

  /** The session state of one browser session. */
  datatype Match = Match(
    messages: seq<Message>,
    userHp: int,
    aiHp: int,
    started: bool,
    turnLog: seq<TurnScore>,
    config: Config)

  /** Messages alternate: the opening and every rebuttal are at even
      positions, the user's arguments at odd ones. */
  predicate Alternating(msgs: seq<Message>)
  {
    forall i :: 0 <= i < |msgs| ==> msgs[i].role == (if i % 2 == 0 then "assistant" else "user")
  }

  /** The invariant of the session state: both healths within [0, 100]; the
      message list is either empty with no turns, or the opening followed by
      two messages per logged turn; a started match has its opening. */
  predicate Valid(m: Match)
  {
    && 0 <= m.userHp <= 100
    && 0 <= m.aiHp <= 100
    && Alternating(m.messages)
    && ((m.messages == [] && m.turnLog == []) || |m.messages| == 1 + 2 * |m.turnLog|)
    && (m.started ==> m.messages != [])
  }

  /** The state of a fresh session. */
  function Initial(): (m: Match)
    ensures Valid(m) && !m.started
    ensures m.userHp == 100 && m.aiHp == 100
  {
    Match([], 100, 100, false, [], Config("", "", "", "AGAINST the Topic"))
  }

  /** "Start Debate": a new match with full health, no turns and only the
      opening message (or its fallback), whatever state came before. */
  function AfterStart(m: Match, config: Config, opening: Option<string>): (r: Match)
    ensures Valid(r) && r.started && !GameOver(r.userHp, r.aiHp)
    ensures r.userHp == 100 && r.aiHp == 100 && r.turnLog == [] && r.config == config
    ensures r.messages == [Message("assistant", opening.GetOr(OpeningFallback))]
    ensures opening.None? ==> r.messages[0].content == "Let's debate."
  {
    Match([Message("assistant", opening.GetOr(OpeningFallback))], 100, 100, true, [], config)
  }

  /** Starting forgets everything about the previous match. */
  lemma StartForgetsPast(m1: Match, m2: Match, config: Config, opening: Option<string>)
    ensures AfterStart(m1, config, opening) == AfterStart(m2, config, opening)
  {
  }

  /** "End & Analyze" (shown only once the debate has started): the user's
      health drops to 0, which ends the match with the AI or a draw as
      winner, never the user. */
  function AfterEnd(m: Match): (r: Match)
    ensures Valid(m) ==> Valid(r)
    ensures m.started ==> GameOver(r.userHp, r.aiHp) && Winner(r.userHp, r.aiHp) != You
    ensures r.messages == m.messages && r.turnLog == m.turnLog && r.aiHp == m.aiHp
    ensures r.started == m.started && r.config == m.config
    ensures r.userHp == (if m.started then 0 else m.userHp)
  {
    if m.started then m.(userHp := 0) else m
  }

  /** "Restart Debate" (shown only on the game-over screen): back to the
      setup screen; healths and history stay until the next start. */
  function AfterRestart(m: Match): (r: Match)
    ensures Valid(m) ==> Valid(r)
    ensures m.started && GameOver(m.userHp, m.aiHp) ==> r == m.(started := false)
    ensures !(m.started && GameOver(m.userHp, m.aiHp)) ==> r == m
    ensures r.userHp == m.userHp && r.aiHp == m.aiHp && r.turnLog == m.turnLog
  {
    if m.started && GameOver(m.userHp, m.aiHp) then m.(started := false) else m
  }

  /** The chat input is reached only in a started match that is not over:
      in a valid match, one that has its opening and where both sides still
      have health. */
  predicate AcceptsTurn(m: Match)
    ensures Valid(m) ==> (AcceptsTurn(m) <==> m.started && m.userHp > 0 && m.aiHp > 0)
    ensures Valid(m) && AcceptsTurn(m) ==> m.messages != [] && m.messages[0].role == "assistant"
  {
    m.started && !GameOver(m.userHp, m.aiHp)
  }

  /** What one chat submission brings from the outside: the user's text,
      the generated rebuttal (None if generation raised) and the judge's
      score (None if judging failed). */
  datatype TurnInput = TurnInput(prompt: string, rebuttal: Option<string>, judged: Option<TurnScore>)

  /** A turn is played only for a non-empty argument: the page's
      `if prompt := st.chat_input(...)` skips an empty (falsy) prompt. */
  predicate Submitted(t: TurnInput)
  {
    t.prompt != ""
  }

  /** The score the turn is judged with: the judge's, or the fallback. */
  function ScoreOf(t: TurnInput): TurnScore
  {
    t.judged.GetOr(Fallback())
  }

  /** One chat submission: the argument and the rebuttal are appended, both
      sides take their damage with a floor at 0, and the score is logged.
      Outside an accepting state, or for an empty argument, nothing
      happens. */
  function AfterTurn(m: Match, t: TurnInput): (r: Match)
    ensures !(AcceptsTurn(m) && Submitted(t)) ==> r == m
    ensures AcceptsTurn(m) && Submitted(t) ==>
      && r.turnLog == m.turnLog + [ScoreOf(t)]
      && r.messages == m.messages + [Message("user", t.prompt), Message("assistant", t.rebuttal.GetOr(RebuttalFallback))]
      && r.userHp == Hit(m.userHp, UserDamage(ScoreOf(t)))
      && r.aiHp == Hit(m.aiHp, AiDamage(ScoreOf(t)))
      && r.started && r.config == m.config
  {
    if !AcceptsTurn(m) || !Submitted(t) then m
    else
      var score := ScoreOf(t);
      m.(messages := m.messages + [Message("user", t.prompt), Message("assistant", t.rebuttal.GetOr(RebuttalFallback))],
         userHp := Hit(m.userHp, UserDamage(score)),
         aiHp := Hit(m.aiHp, AiDamage(score)),
         turnLog := m.turnLog + [score])
  }

  /** A turn keeps the invariant, never raises either health, and the new
      messages are the user's argument followed by the assistant's reply. */
  lemma TurnPreservesValid(m: Match, t: TurnInput)
    requires Valid(m)
    ensures Valid(AfterTurn(m, t))
    ensures AfterTurn(m, t).userHp <= m.userHp && AfterTurn(m, t).aiHp <= m.aiHp
    ensures AcceptsTurn(m) && Submitted(t) ==>
      AfterTurn(m, t).messages[|m.messages|].role == "user" &&
      AfterTurn(m, t).messages[|m.messages| + 1].role == "assistant"
  {
  }

  /** A turn judged with the fallback leaves both healths as they were. */
  lemma FallbackTurnKeepsHealth(m: Match, t: TurnInput)
    requires t.judged.None?
    requires Valid(m)
    ensures AfterTurn(m, t).userHp == m.userHp && AfterTurn(m, t).aiHp == m.aiHp
  {
  }

  /** A sequence of chat submissions, applied in order. */
  function Play(m: Match, turns: seq<TurnInput>): Match
    decreases |turns|
  {
    if turns == [] then m else Play(AfterTurn(m, turns[0]), turns[1..])
  }

  /** Over any sequence of submissions the invariant holds, neither health
      rises, the turn log only grows, by at most one entry per submission,
      and the match stays started. */
  lemma {:induction false} PlayPreservesValid(m: Match, turns: seq<TurnInput>)
    requires Valid(m)
    ensures var r := Play(m, turns);
      && Valid(r)
      && r.userHp <= m.userHp && r.aiHp <= m.aiHp
      && m.turnLog <= r.turnLog
      && |r.turnLog| <= |m.turnLog| + |turns|
      && r.started == m.started
    decreases |turns|
  {
    if turns != [] {
      var m1 := AfterTurn(m, turns[0]);
      TurnPreservesValid(m, turns[0]);
      PlayPreservesValid(m1, turns[1..]);
    }
  }

  /** Once the match is over (or not started), no submission changes it. */
  lemma {:induction false} NoTurnAfterGameOver(m: Match, turns: seq<TurnInput>)
    requires !AcceptsTurn(m)
    ensures Play(m, turns) == m
    decreases |turns|
  {
    if turns != [] {
      NoTurnAfterGameOver(AfterTurn(m, turns[0]), turns[1..]);
    }
  }

  /** Turns the judge failed on never change either health, so a match
      played only with such turns logs every submitted one and never ends. */
  lemma {:induction false} FallbacksNeverEnd(m: Match, turns: seq<TurnInput>)
    requires Valid(m) && AcceptsTurn(m)
    requires forall i :: 0 <= i < |turns| ==> turns[i].judged.None?
    ensures var r := Play(m, turns);
      r.userHp == m.userHp && r.aiHp == m.aiHp && AcceptsTurn(r) &&
      |r.turnLog| == |m.turnLog| + Count(turns, Submitted)
    decreases |turns|
  {
    if turns != [] {
      var m1 := AfterTurn(m, turns[0]);
      FallbackTurnKeepsHealth(m, turns[0]);
      TurnPreservesValid(m, turns[0]);
      FallbacksNeverEnd(m1, turns[1..]);
    }
  }

  /** Every submitted turn the AI wins costs the user at least 10 health,
      so until the match ends the user loses 10 per such turn. */
  lemma {:induction false} LosingTurnsDrainUser(m: Match, turns: seq<TurnInput>)
    requires Valid(m) && m.started
    requires forall i :: 0 <= i < |turns| ==> turns[i].judged.Some? && turns[i].judged.value.winner == "ai"
    ensures var r := Play(m, turns);
      GameOver(r.userHp, r.aiHp) || r.userHp <= m.userHp - 10 * Count(turns, Submitted)
    decreases |turns|
  {
    if turns != [] {
      var m1 := AfterTurn(m, turns[0]);
      TurnPreservesValid(m, turns[0]);
      if !AcceptsTurn(m) {
        NoTurnAfterGameOver(m, turns);
      } else {
        assert Submitted(turns[0]) ==> UserDamage(ScoreOf(turns[0])) >= 10;
        LosingTurnsDrainUser(m1, turns[1..]);
      }
    }
  }

  /** Ten submitted turns won by the AI always end the match. */
  lemma TenLosingTurnsEndTheMatch(m: Match, turns: seq<TurnInput>)
    requires Valid(m) && m.started
    requires Count(turns, Submitted) >= 10
    requires forall i :: 0 <= i < |turns| ==> turns[i].judged.Some? && turns[i].judged.value.winner == "ai"
    ensures GameOver(Play(m, turns).userHp, Play(m, turns).aiHp)
  {
    LosingTurnsDrainUser(m, turns);
  }

  /** The Streamlit session state of the two-health match. */
  class ArenaSession {
    var messages: seq<Message>
    var userHp: int
    var aiHp: int
    var started: bool
    var turnLog: seq<TurnScore>
    var config: Config

    /** The session state as a value. */
    function View(): Match
      reads this
    {
      Match(messages, userHp, aiHp, started, turnLog, config)
    }

    /** First page load of a session. */
    constructor ()
      ensures View() == Initial()
    {
      messages := [];
      userHp := 100;
      aiHp := 100;
      started := false;
      turnLog := [];
      config := Config("", "", "", "AGAINST the Topic");
    }

    /** The "Start Debate" button; `opening` is the generated opening line. */
    method StartDebate(newConfig: Config, opening: Option<string>)
      modifies this
      ensures View() == AfterStart(old(View()), newConfig, opening)
    {
      messages := [];
      userHp := 100;
      aiHp := 100;
      started := true;
      turnLog := [];
      config := newConfig;
      var text := opening.GetOr(OpeningFallback);
      messages := messages + [Message("assistant", text)];
    }

    /** The "End & Analyze" button of the live scoreboard. */
    method EndAndAnalyze()
      modifies this
      ensures View() == AfterEnd(old(View()))
    {
      if started {
        userHp := 0;
      }
    }

    /** The "Restart Debate" button of the game-over screen. */
    method RestartDebate()
      modifies this
      ensures View() == AfterRestart(old(View()))
    {
      if started && GameOver(userHp, aiHp) {
        started := false;
      }
    }

    /** The game-over screen: the announced winner, or None while the match
      is not over (or not started). */
    method Result() returns (winner: Option<Verdict>)
      ensures winner.Some? <==> started && GameOver(userHp, aiHp)
      ensures winner.Some? ==> winner.value == Winner(userHp, aiHp)
    {
      if !started || !(userHp <= 0 || aiHp <= 0) {
        return None;
      }
      var w := if userHp > 0 then You else AI;
      if userHp <= 0 && aiHp <= 0 {
        w := Draw;
      }
      winner := Some(w);
    }

    /** One chat submission. The damage of each side is accumulated rule by
      rule and then subtracted with a floor at 0. */
    method SubmitArgument(prompt: string, rebuttal: Option<string>, judged: Option<TurnScore>)
      returns (applied: bool)
      requires Valid(View())
      modifies this
      ensures View() == AfterTurn(old(View()), TurnInput(prompt, rebuttal, judged))
      ensures Valid(View())
      ensures userHp <= old(userHp) && aiHp <= old(aiHp)
      ensures applied == (AcceptsTurn(old(View())) && prompt != "")
    {
      TurnPreservesValid(View(), TurnInput(prompt, rebuttal, judged));
      if !started || userHp <= 0 || aiHp <= 0 {
        return false;
      }
      if prompt == "" {
        return false;
      }
      messages := messages + [Message("user", prompt)];
      var reply := rebuttal.GetOr(RebuttalFallback);
      messages := messages + [Message("assistant", reply)];
      var score := judged.GetOr(Fallback());

      var userDmg := 0;
      var aiDmg := 0;
      if score.userRelevance < 50 { userDmg := userDmg + 20; }
      if score.userLogic < 50 { userDmg := userDmg + 10; }
      if score.winner == "ai" { userDmg := userDmg + 10; }
      if score.aiRelevance < 50 { aiDmg := aiDmg + 20; }
      if score.aiLogic < 50 { aiDmg := aiDmg + 10; }
      if score.winner == "user" { aiDmg := aiDmg + 10; }

      userHp := Max(0, userHp - userDmg);
      aiHp := Max(0, aiHp - aiDmg);
      turnLog := turnLog + [score];
      applied := true;
    }
  }
}
