/** The prompt-input helpers of the debate backend's rebuttal generator
    (`DebateService.generate_rebuttal`): the sliding window over the
    conversation history rendered as `role: content` lines, and the fixed
    persona and difficulty instruction tables with their fallbacks.
    Everything here is pure string and lookup logic. */
module Prompts {
  import opened Common

  /** A history entry as the backend receives it: a JSON object whose
      `role` and `content` keys may be missing. */
  type Dict = map<string, string>

  /** Python's `dict.get(k, default)`. */
  function Get<K, V>(m: map<K, V>, k: K, default: V): (r: V)
    ensures k in m ==> r == m[k]
    ensures k !in m ==> r == default
  {
    if k in m then m[k] else default
  }

  /** How many history entries the rebuttal prompt shows. */
  const WindowSize: nat := 5

  /** Python's `history[-5:]`: the last (at most) five entries, in order. */
  function Window<T>(history: seq<T>): (w: seq<T>)
    ensures |w| == if |history| < WindowSize then |history| else WindowSize
    ensures w == history[|history| - |w|..]
  {
    if |history| <= WindowSize then history else history[|history| - WindowSize..]
  }

  /** One prompt line `f"{role}: {content}"`, with "unknown" for a missing
      role and "" for missing content. */
  function FormatLine(msg: Dict): (line: string)
    ensures "role" !in msg ==> line == "unknown: " + Get(msg, "content", "")
    ensures "content" !in msg ==> line == Get(msg, "role", "unknown") + ": "
    ensures "role" in msg && "content" in msg ==> line == msg["role"] + ": " + msg["content"]
  {
    Get(msg, "role", "unknown") + ": " + Get(msg, "content", "")
  }

  /** The list comprehension over the window: one line per entry. */
  function FormatLines(window: seq<Dict>): (lines: seq<string>)
    ensures |lines| == |window|
    ensures forall i :: 0 <= i < |window| ==> lines[i] == FormatLine(window[i])
  {
    seq(|window|, i requires 0 <= i < |window| => FormatLine(window[i]))
  }

  /** Python's `"\n".join(lines)`. */
  function Join(lines: seq<string>): (s: string)
    ensures lines == [] ==> s == ""
    ensures lines != [] ==> lines[0] <= s
  {
    if lines == [] then ""
    else if |lines| == 1 then lines[0]
    else lines[0] + "\n" + Join(lines[1..])
  }

  /** The history text put into the rebuttal prompt: empty for an empty
      history, otherwise the window's lines joined by newlines. A
      non-empty history never renders as "", since every line holds ": ". */
  function HistoryText(history: seq<Dict>): (text: string)
    ensures text == "" <==> history == []
  {
    if history == [] then ""
    else
      var lines := FormatLines(Window(history));
      assert lines[0] == FormatLine(Window(history)[0]);
      Join(lines)
  }

  /** Python's `s.split("\n")`: the inverse of `Join` on newline-free lines.
      Always at least one part. */
  function Split(s: string): (parts: seq<string>)
    ensures |parts| >= 1
  {
    if s == [] then [""]
    else if s[0] == '\n' then [""] + Split(s[1..])
    else
      var rest := Split(s[1..]);
      [[s[0]] + rest[0]] + rest[1..]
  }

  /** Neither the role nor the content of an entry holds a newline. */
  predicate SingleLine(msg: Dict)
  {
    ("role" in msg ==> '\n' !in msg["role"]) && ("content" in msg ==> '\n' !in msg["content"])
  }

  /** A line of an entry without newlines holds no newline either. */
  lemma FormatLineSingle(msg: Dict)
    requires SingleLine(msg)
    ensures '\n' !in FormatLine(msg)
  {
  }

  /** Splitting a newline-free prefix followed by more text extends the
      first part of the rest. */
  lemma {:induction false} SplitPrefix(a: string, t: string)
    requires '\n' !in a
    ensures Split(a + t) == [a + Split(t)[0]] + Split(t)[1..]
  {
    if a != [] {
      assert (a + t)[0] == a[0];
      assert (a + t)[1..] == a[1..] + t;
      assert a[0] != '\n' by { assert a[0] in a; }
      SplitPrefix(a[1..], t);
      assert [a[0]] + (a[1..] + Split(t)[0]) == a + Split(t)[0];
    } else {
      assert a + t == t && a + Split(t)[0] == Split(t)[0];
      assert Split(t) == [Split(t)[0]] + Split(t)[1..];
    }
  }

  /** Splitting undoes joining, as long as no line holds a newline and
      there is at least one line. */
  lemma {:induction false} SplitJoin(lines: seq<string>)
    requires lines != []
    requires forall i :: 0 <= i < |lines| ==> '\n' !in lines[i]
    ensures Split(Join(lines)) == lines
  {
    if |lines| == 1 {
      SplitPrefix(lines[0], "");
      assert lines[0] + "" == lines[0];
    } else {
      var rest := Join(lines[1..]);
      assert Join(lines) == lines[0] + ("\n" + rest);
      SplitPrefix(lines[0], "\n" + rest);
      assert ("\n" + rest)[1..] == rest;
      SplitJoin(lines[1..]);
      assert Split("\n" + rest) == [""] + lines[1..];
      assert lines[0] + "" == lines[0];
    }
  }

  /** The history text of a non-empty history of single-line entries
      consists of exactly min(5, |history|) lines, the formatted tail
      entries in their original order. */
  lemma HistoryTextLines(history: seq<Dict>)
    requires history != []
    requires forall i :: 0 <= i < |history| ==> SingleLine(history[i])
    ensures var lines := Split(HistoryText(history));
      && |lines| == (if |history| < WindowSize then |history| else WindowSize)
      && forall i :: 0 <= i < |lines| ==> lines[i] == FormatLine(history[|history| - |lines| + i])
  {
    var w := Window(history);
    var lines := FormatLines(w);
    forall i | 0 <= i < |lines|
      ensures w[i] == history[|history| - |w| + i]
      ensures '\n' !in lines[i]
    {
      FormatLineSingle(w[i]);
    }
    SplitJoin(lines);
    assert Split(HistoryText(history)) == lines;
  }

  /** The instruction text for each opponent persona. */
  const PersonaInstructions: map<string, string> := map[
    "Logical Vulcan" := "Purely logical, cold, focuses on data and contradictions.",
    "Aggressive Troll" := "Emotional, interruptive, sarcastic. Try to flush the user.",
    "Socratic Teacher" := "Ask probing questions to make the user realize their own errors.",
    "Devil's Advocate" := "Contrarian but polite. Always find the opposing view.",
    "The Bureaucrat" := "Obsessed with definitions and citations. Demand proof for everything."
  ]

  /** The instruction text for each difficulty level. */
  const DifficultyPrompts: map<string, string> := map[
    "Easy" := "Use simple language. Make occasional logical errors.",
    "Medium" := "Standard debate level. Competent and clear.",
    "Hard" := "Use complex vocabulary. Be ruthless about weak points.",
    "God Mode" := "You are omniscient. Point out every micro-contradiction. You never lose."
  ]

  /** The role instruction for a persona: each of the five known personas
      has its own text, any other persona gets "Skilled debater.", and
      only an unknown persona gets that default. */
  function PersonaInstruction(persona: string): (inst: string)
    ensures persona == "Logical Vulcan" ==> inst == "Purely logical, cold, focuses on data and contradictions."
    ensures persona == "Aggressive Troll" ==> inst == "Emotional, interruptive, sarcastic. Try to flush the user."
    ensures persona == "Socratic Teacher" ==> inst == "Ask probing questions to make the user realize their own errors."
    ensures persona == "Devil's Advocate" ==> inst == "Contrarian but polite. Always find the opposing view."
    ensures persona == "The Bureaucrat" ==> inst == "Obsessed with definitions and citations. Demand proof for everything."
    ensures inst == "Skilled debater." <==>
      persona !in {"Logical Vulcan", "Aggressive Troll", "Socratic Teacher", "Devil's Advocate", "The Bureaucrat"}
  {
    Get(PersonaInstructions, persona, "Skilled debater.")
  }

  /** The difficulty instruction: each of the four known levels has its own
      text, any other level gets "Standard level.", and only an unknown
      level gets that default. */
  function DifficultyInstruction(difficulty: string): (inst: string)
    ensures difficulty == "Easy" ==> inst == "Use simple language. Make occasional logical errors."
    ensures difficulty == "Medium" ==> inst == "Standard debate level. Competent and clear."
    ensures difficulty == "Hard" ==> inst == "Use complex vocabulary. Be ruthless about weak points."
    ensures difficulty == "God Mode" ==> inst == "You are omniscient. Point out every micro-contradiction. You never lose."
    ensures inst == "Standard level." <==> difficulty !in {"Easy", "Medium", "Hard", "God Mode"}
  {
    Get(DifficultyPrompts, difficulty, "Standard level.")
  }
}
