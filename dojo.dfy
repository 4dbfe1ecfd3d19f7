/** The single-health "dojo" front end: the user argues against an opponent
    served by the backend; each argument is analysed for five skills, the
    scores replace the radar chart, and weak relevance, logic or civility
    costs the user health. At 0 health the game is over.

    The Streamlit session state is the class `DojoSession`; its abstract
    value is a `Dojo`, and each button or chat input is a method whose new
    state is given by a function on `Dojo` (`AfterEnter`, `AfterRestart`,
    `AfterArgument`). The session fields `round` and `game_over` are kept
    as the page keeps them: they are reset on entering the arena and never
    changed otherwise; the game-over gate reads the health alone. */
module Dojo {
  import opened Common
  import Prompts

  /** The backend's analysis of one argument. The scores are arbitrary
      integers (nothing clamps them); the coaching tip may be absent from
      the response. */
  datatype Analysis = Analysis(
    logicScore: int, relevanceScore: int, evidenceScore: int,
    civilityScore: int, concisenessScore: int,
    fallacies: seq<string>, coachingTip: Option<string>, factCheck: string)

  /** Damage for one analysed argument: 20 for relevance below 50, 10 for
      logic below 50, 10 for civility below 40. */
  function SkillDamage(a: Analysis): (dmg: int)
    ensures dmg in {0, 10, 20, 30, 40}
    ensures dmg == 0 <==> a.relevanceScore >= 50 && a.logicScore >= 50 && a.civilityScore >= 40
  {
    (if a.relevanceScore < 50 then 20 else 0)
    + (if a.logicScore < 50 then 10 else 0)
    + (if a.civilityScore < 40 then 10 else 0)
  }

  /** Evidence, conciseness, fallacies and the text fields never affect
      damage. */
  lemma DamageIgnoresOtherFields(a: Analysis, b: Analysis)
    requires a.relevanceScore == b.relevanceScore
    requires a.logicScore == b.logicScore
    requires a.civilityScore == b.civilityScore
    ensures SkillDamage(a) == SkillDamage(b)
  {
  }

  /** The five axes of the radar chart. */
  const RadarKeys: set<string> := {"Logic", "Relevance", "Evidence", "Civility", "Conciseness"}

  /** The radar chart shown before any argument has been analysed. */
  const InitialRadar: map<string, int> :=
    map["Logic" := 50, "Relevance" := 50, "Evidence" := 50, "Civility" := 50, "Conciseness" := 50]

  /** The radar chart for an analysis: exactly the five axes, each holding
      the matching score. */
  function RadarOf(a: Analysis): (radar: map<string, int>)
    ensures radar.Keys == RadarKeys
    ensures radar["Logic"] == a.logicScore && radar["Relevance"] == a.relevanceScore
    ensures radar["Evidence"] == a.evidenceScore && radar["Civility"] == a.civilityScore
    ensures radar["Conciseness"] == a.concisenessScore
  {
    map["Logic" := a.logicScore, "Relevance" := a.relevanceScore, "Evidence" := a.evidenceScore,
        "Civility" := a.civilityScore, "Conciseness" := a.concisenessScore]
  }

  /** Text used when the opening cannot be fetched. */
  const OpeningFallback: string := "Let's debate."

  /** The opponent personas and difficulty levels the sidebar offers. */
  const PersonaOptions: seq<string> :=
    ["Logical Vulcan", "Aggressive Troll", "Socratic Teacher", "Devil's Advocate", "The Bureaucrat"]
  const DifficultyOptions: seq<string> := ["Easy", "Medium", "Hard", "God Mode"]

  /** Every persona and difficulty the sidebar offers has its own
      instruction in the backend, never the fallback text. */
  lemma SidebarOptionsAreKnown()
    ensures forall i :: 0 <= i < |PersonaOptions| ==>
      Prompts.PersonaInstruction(PersonaOptions[i]) != "Skilled debater."
    ensures forall i :: 0 <= i < |DifficultyOptions| ==>
      Prompts.DifficultyInstruction(DifficultyOptions[i]) != "Standard level."
  {
  }

  /** The settings chosen when entering the arena; unset (modelled as "")
      before the first entry, and never read until then. */
  datatype Config = Config(topic: string, persona: string, difficulty: string)

  /** The session state of one browser session. */
  datatype Dojo = Dojo(
    messages: seq<Message>,
    userHp: int,
    round: int,
    gameOver: bool,
    lastFeedback: string,
    started: bool,
    radar: map<string, int>,
    config: Config)

  /** The invariant of the session state: health within [0, 100]; the
      radar chart has exactly the five axes; `round` and `gameOver` keep
      their reset values; a started session has its opening message first. */
  predicate Valid(d: Dojo)
  {
    && 0 <= d.userHp <= 100
    && d.radar.Keys == RadarKeys
    && d.round == 1 && !d.gameOver
    && (d.started ==> d.messages != [])
    && (d.messages != [] ==> d.messages[0].role == "model")
  }

  /** The state of a fresh session: full health, round 1, not over, every
      radar axis at 50. */
  function Initial(): (d: Dojo)
    ensures Valid(d) && !d.started && d.userHp == 100
    ensures forall k :: k in RadarKeys ==> k in d.radar && d.radar[k] == 50
  {
    Dojo([], 100, 1, false, "Welcome. Configure settings to start.", false, InitialRadar,
      Config("", "", ""))
  }

  /** "Enter Arena": full health, round 1, not over, and only the opening
      message (or its fallback). The radar chart and the last coaching tip
      are left as they were. */
  function AfterEnter(d: Dojo, config: Config, opening: Option<string>): (r: Dojo)
    ensures Valid(d) ==> Valid(r)
    ensures r.started && r.userHp == 100 && r.round == 1 && !r.gameOver && r.config == config
    ensures r.messages == [Message("model", opening.GetOr(OpeningFallback))]
    ensures opening.None? ==> r.messages[0].content == "Let's debate."
    ensures r.radar == d.radar && r.lastFeedback == d.lastFeedback
  {
    Dojo([Message("model", opening.GetOr(OpeningFallback))], 100, 1, false, d.lastFeedback, true,
      d.radar, config)
  }

  /** The chat input is reached only in a started session with health left:
      in a valid session, one that has the model's opening and whose health
      has not reached 0. */
  predicate AcceptsArgument(d: Dojo)
    ensures Valid(d) ==> (AcceptsArgument(d) <==> d.started && d.userHp != 0)
    ensures Valid(d) && AcceptsArgument(d) ==> d.messages != [] && d.messages[0].role == "model"
  {
    d.started && d.userHp > 0
  }

  /** "Restart" (shown only on the game-over screen): back to the setup
      screen, everything else kept. */
  function AfterRestart(d: Dojo): (r: Dojo)
    ensures Valid(d) ==> Valid(r)
    ensures d.started && d.userHp <= 0 ==> r == d.(started := false)
    ensures !(d.started && d.userHp <= 0) ==> r == d
    ensures r.userHp == d.userHp && r.radar == d.radar && r.messages == d.messages
  {
    if d.started && d.userHp <= 0 then d.(started := false) else d
  }

  /** What one chat submission brings from the outside: the user's text,
      the analysis (None if the request raised or did not answer 200) and
      the rebuttal (None if that request did not answer 200). */
  datatype ArgumentInput = ArgumentInput(prompt: string, analysis: Option<Analysis>, rebuttal: Option<string>)

  /** An argument is processed only when it is non-empty: the page's
      `if prompt := st.chat_input(...)` skips an empty (falsy) prompt. */
  predicate Submitted(t: ArgumentInput)
  {
    t.prompt != ""
  }

  /** The analysis step: on success the radar is replaced, the tip kept
      (or "" when absent), and the damage subtracted with a floor at 0;
      on failure nothing changes. */
  function AfterAnalysis(d: Dojo, analysis: Option<Analysis>): (r: Dojo)
    ensures analysis.None? ==> r == d
    ensures analysis.Some? ==>
      && r.radar == RadarOf(analysis.value)
      && r.userHp == Hit(d.userHp, SkillDamage(analysis.value))
      && r.lastFeedback == analysis.value.coachingTip.GetOr("")
      && r.messages == d.messages && r.started == d.started
      && r.config == d.config && r.round == d.round && r.gameOver == d.gameOver
  {
    match analysis
    case None => d
    case Some(a) =>
      d.(radar := RadarOf(a), lastFeedback := a.coachingTip.GetOr(""),
         userHp := Hit(d.userHp, SkillDamage(a)))
  }

  /** Whether the page asks the backend for a rebuttal: only for an
      accepted, non-empty argument that left the user with health. */
  predicate RebuttalRequested(d: Dojo, t: ArgumentInput)
    ensures RebuttalRequested(d, t) <==>
      AcceptsArgument(d) && Submitted(t) && AcceptsArgument(AfterAnalysis(d, t.analysis))
  {
    AcceptsArgument(d) && Submitted(t) && AfterAnalysis(d, t.analysis).userHp > 0
  }

  /** One chat submission: the argument is appended, analysed, and, if the
      user still has health, the opponent's rebuttal is appended when the
      backend delivers one. Outside an accepting state, or for an empty
      argument, nothing happens. */
  function AfterArgument(d: Dojo, t: ArgumentInput): (r: Dojo)
    ensures !(AcceptsArgument(d) && Submitted(t)) ==> r == d
    ensures AcceptsArgument(d) && Submitted(t) ==>
      && |r.messages| == |d.messages| + (if RebuttalRequested(d, t) && t.rebuttal.Some? then 2 else 1)
      && r.messages[..|d.messages| + 1] == d.messages + [Message("user", t.prompt)]
      && r.userHp == AfterAnalysis(d, t.analysis).userHp
      && r.radar == AfterAnalysis(d, t.analysis).radar
      && r.lastFeedback == AfterAnalysis(d, t.analysis).lastFeedback
      && r.started && r.config == d.config && r.round == d.round && r.gameOver == d.gameOver
      && (RebuttalRequested(d, t) && t.rebuttal.Some? ==>
            r.messages[|d.messages| + 1] == Message("model", t.rebuttal.value))
  {
    if !AcceptsArgument(d) || !Submitted(t) then d
    else
      var argued := d.(messages := d.messages + [Message("user", t.prompt)]);
      var analysed := AfterAnalysis(argued, t.analysis);
      if analysed.userHp > 0 && t.rebuttal.Some? then
        analysed.(messages := analysed.messages + [Message("model", t.rebuttal.value)])
      else
        analysed
  }

  /** An argument keeps the invariant and never raises the health; after a
      successful analysis the radar holds exactly its five scores; after a
      failed one health and radar are unchanged. */
  lemma ArgumentPreservesValid(d: Dojo, t: ArgumentInput)
    requires Valid(d)
    ensures Valid(AfterArgument(d, t))
    ensures AfterArgument(d, t).userHp <= d.userHp
    ensures AcceptsArgument(d) && Submitted(t) && t.analysis.Some? ==> AfterArgument(d, t).radar == RadarOf(t.analysis.value)
    ensures t.analysis.None? ==>
      AfterArgument(d, t).userHp == d.userHp && AfterArgument(d, t).radar == d.radar
  {
  }

  /** A sequence of chat submissions, applied in order. */
  function Play(d: Dojo, args: seq<ArgumentInput>): Dojo
    decreases |args|
  {
    if args == [] then d else Play(AfterArgument(d, args[0]), args[1..])
  }

  /** Over any sequence of submissions the invariant holds, the health
      never rises and the session stays started. */
  lemma {:induction false} PlayPreservesValid(d: Dojo, args: seq<ArgumentInput>)
    requires Valid(d)
    ensures Valid(Play(d, args))
    ensures Play(d, args).userHp <= d.userHp
    ensures Play(d, args).started == d.started
    decreases |args|
  {
    if args != [] {
      ArgumentPreservesValid(d, args[0]);
      PlayPreservesValid(AfterArgument(d, args[0]), args[1..]);
    }
  }

  /** Once the health is gone (or before entering the arena), no further
      argument is processed. */
  lemma {:induction false} NoArgumentAfterGameOver(d: Dojo, args: seq<ArgumentInput>)
    requires !AcceptsArgument(d)
    ensures Play(d, args) == d
    decreases |args|
  {
    if args != [] {
      NoArgumentAfterGameOver(AfterArgument(d, args[0]), args[1..]);
    }
  }

  /** Every submitted off-topic argument (relevance below 50) costs at
      least 20 health, so five of them end the game. */
  lemma {:induction false} OffTopicArgumentsDrain(d: Dojo, args: seq<ArgumentInput>)
    requires Valid(d) && d.started
    requires forall i :: 0 <= i < |args| ==> args[i].analysis.Some? && args[i].analysis.value.relevanceScore < 50
    ensures Play(d, args).userHp <= 0 || Play(d, args).userHp <= d.userHp - 20 * Count(args, Submitted)
    decreases |args|
  {
    if args != [] {
      var d1 := AfterArgument(d, args[0]);
      ArgumentPreservesValid(d, args[0]);
      if !AcceptsArgument(d) {
        NoArgumentAfterGameOver(d, args);
      } else {
        assert Submitted(args[0]) ==> SkillDamage(args[0].analysis.value) >= 20;
        OffTopicArgumentsDrain(d1, args[1..]);
        PlayPreservesValid(d1, args[1..]);
      }
    }
  }

  /** Five submitted off-topic arguments always end the game. */
  lemma FiveOffTopicArgumentsEndTheGame(d: Dojo, args: seq<ArgumentInput>)
    requires Valid(d) && d.started
    requires Count(args, Submitted) >= 5
    requires forall i :: 0 <= i < |args| ==> args[i].analysis.Some? && args[i].analysis.value.relevanceScore < 50
    ensures !AcceptsArgument(Play(d, args))
  {
    OffTopicArgumentsDrain(d, args);
    PlayPreservesValid(d, args);
  }

  /** The Streamlit session state of the dojo. */
  class DojoSession {
    var messages: seq<Message>
    var userHp: int
    var round: int
    var gameOver: bool
    var lastFeedback: string
    var started: bool
    var radar: map<string, int>
    var config: Config

    /** The session state as a value. */
    function View(): Dojo
      reads this
    {
      Dojo(messages, userHp, round, gameOver, lastFeedback, started, radar, config)
    }

    /** First page load of a session. */
    constructor ()
      ensures View() == Initial()
    {
      messages := [];
      userHp := 100;
      round := 1;
      gameOver := false;
      lastFeedback := "Welcome. Configure settings to start.";
      started := false;
      radar := InitialRadar;
      config := Config("", "", "");
    }

    /** The "Enter Arena" button; `opening` is the backend's opening line. */
    method EnterArena(newConfig: Config, opening: Option<string>)
      modifies this
      ensures View() == AfterEnter(old(View()), newConfig, opening)
    {
      messages := [];
      userHp := 100;
      round := 1;
      gameOver := false;
      config := newConfig;
      started := true;
      var intro := opening.GetOr(OpeningFallback);
      messages := messages + [Message("model", intro)];
    }

    /** The "Restart" button of the game-over screen. */
    method Restart()
      modifies this
      ensures View() == AfterRestart(old(View()))
    {
      if started && userHp <= 0 {
        started := false;
      }
    }

    /** One chat submission. The damage is accumulated rule by rule and
      then subtracted with a floor at 0; the result says whether a
      rebuttal was requested. */
    method SubmitArgument(prompt: string, analysis: Option<Analysis>, rebuttal: Option<string>)
      returns (rebuttalRequested: bool)
      requires Valid(View())
      modifies this
      ensures View() == AfterArgument(old(View()), ArgumentInput(prompt, analysis, rebuttal))
      ensures Valid(View())
      ensures userHp <= old(userHp)
      ensures rebuttalRequested == RebuttalRequested(old(View()), ArgumentInput(prompt, analysis, rebuttal))
      ensures rebuttalRequested ==> userHp > 0
    {
      ArgumentPreservesValid(View(), ArgumentInput(prompt, analysis, rebuttal));
      if !started || userHp <= 0 {
        return false;
      }
      if prompt == "" {
        return false;
      }
      messages := messages + [Message("user", prompt)];

      if analysis.Some? {
        var data := analysis.value;
        radar := map["Logic" := data.logicScore, "Relevance" := data.relevanceScore,
                     "Evidence" := data.evidenceScore, "Civility" := data.civilityScore,
                     "Conciseness" := data.concisenessScore];
        lastFeedback := data.coachingTip.GetOr("");
        var damage := 0;
        if data.relevanceScore < 50 { damage := damage + 20; }
        if data.logicScore < 50 { damage := damage + 10; }
        if data.civilityScore < 40 { damage := damage + 10; }
        userHp := Max(0, userHp - damage);
      }

      rebuttalRequested := userHp > 0;
      if rebuttalRequested && rebuttal.Some? {
        messages := messages + [Message("model", rebuttal.value)];
      }
    }
  }
}
