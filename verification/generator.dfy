/**
 * The session content generator (src/utils/ai.ts): a template assembler that
 * looks fixed tables up by goal, branches on the mood and on the first recent
 * note, and joins six segments into the spoken script.
 *
 * The two `Math.random()` picks become the index parameters `bodyIx` and
 * `promptIx`; with them in range the generator is a total pure function.
 */
module Generator {

  datatype Goal = Relax | Focus | Sleep

  /** The generator's input; `length` is carried but never read. */
  datatype GeneratePayload = GeneratePayload(
    name: string,
    goal: Goal,
    mood: int,
    length: int,
    recentNotes: seq<string>)

  datatype GeneratedSession = GeneratedSession(
    script: string,
    reflection: string,
    microTip: string,
    audioText: string)

  // ---------------------------------------------------------------------------
  // Fixed tables, one entry per goal (each text is a named constant so that
  // proofs only ever see its name)
  // ---------------------------------------------------------------------------

  const RelaxIntro: string := "We will soften your day and invite calm."
  const FocusIntro: string := "We will gather your attention and land in this moment."
  const SleepIntro: string := "We will slow down and drift toward rest."

  function GoalIntro(goal: Goal): string
  {
    match goal
    case Relax => RelaxIntro
    case Focus => FocusIntro
    case Sleep => SleepIntro
  }

  const RelaxBody0: string := "Notice your shoulders, let them drop. Let your breath expand gently, like waves arriving."
  const RelaxBody1: string := "As you breathe in, imagine a cool breeze. As you breathe out, release the weight of the last hour."
  const RelaxBody2: string := "Feel the support beneath you. Each exhale is a soft sigh of relief moving through the body."
  const FocusBody0: string := "Bring your attention to the tip of your nose. Follow the breath in a clean, unbroken line."
  const FocusBody1: string := "Picture a single task glowing ahead. On each inhale, step closer. On each exhale, clear the path."
  const FocusBody2: string := "Let thoughts stream past like leaves in water. Anchor gently in the rhythm of your inhale."
  const SleepBody0: string := "Imagine a warm blanket of dusk settling around you. Your breath is the tide, steady and slow."
  const SleepBody1: string := "Each inhale draws in moonlight. Each exhale melts tension from brow to toes."
  const SleepBody2: string := "Listen for the quiet between breaths. Allow it to widen, holding you in a cradle of night."

  function GoalBodies(goal: Goal): seq<string>
  {
    match goal
    case Relax => [RelaxBody0, RelaxBody1, RelaxBody2]
    case Focus => [FocusBody0, FocusBody1, FocusBody2]
    case Sleep => [SleepBody0, SleepBody1, SleepBody2]
  }

  const RelaxCloser: string := "Carry this softness with you as you move onward."
  const FocusCloser: string := "Let the clarity stay with you as you return to your task."
  const SleepCloser: string := "Allow this stillness to guide you into gentle sleep."

  function GoalCloser(goal: Goal): string
  {
    match goal
    case Relax => RelaxCloser
    case Focus => FocusCloser
    case Sleep => SleepCloser
  }

  const RelaxPrompt0: string := "What can you simplify in the next hour?"
  const RelaxPrompt1: string := "Which part of you feels most at ease right now?"
  const FocusPrompt0: string := "What single action deserves your full attention next?"
  const FocusPrompt1: string := "Which distraction can you let go of today?"
  const SleepPrompt0: string := "What is one thing you are grateful for before you rest?"
  const SleepPrompt1: string := "Which thought can you set down until morning?"

  function GoalPrompts(goal: Goal): seq<string>
  {
    match goal
    case Relax => [RelaxPrompt0, RelaxPrompt1]
    case Focus => [FocusPrompt0, FocusPrompt1]
    case Sleep => [SleepPrompt0, SleepPrompt1]
  }

  const RelaxTip: string := "Unclench your jaw and rest your tongue softly."
  const FocusTip: string := "Relax your brow and feel your feet against the ground."
  const SleepTip: string := "Dim the lights and let screens rest at least 15 minutes before bed."

  function GoalTips(goal: Goal): seq<string>
  {
    match goal
    case Relax => [RelaxTip]
    case Focus => [FocusTip]
    case Sleep => [SleepTip]
  }

  const SettleTemplate: string :=
    "For twenty seconds, settle in. Sit tall yet soft. Breathe in through the nose for four, hold, and breathe out slowly for six."

  const CountReminder: string :=
    "Stay with the count: in for four, hold for four, out for six. Repeat gently."

  const HeavinessLine: string :=
    "Notice any heaviness with kindness. You do not need to change it; simply offer it space."

  const MirrorLine: string :=
    "Let your breath mirror how you would like to feel. Balanced, present, and steady."

  // ---------------------------------------------------------------------------
  // Segments
  // ---------------------------------------------------------------------------

  /** "Hi <name>," when the name is non-empty (a truthy string), "Hi there," otherwise. */
  function Greeting(name: string): string
  {
    if name != "" then "Hi " + name + "," else "Hi there,"
  }

  function Intro(goal: Goal, name: string): string
  {
    GoalIntro(goal) + " " + Greeting(name) + " you are safe here."
  }

  /** `recentNotes[0]` is truthy only when the list has a first element and it is non-empty. */
  function NoteLine(recentNotes: seq<string>): string
  {
    if |recentNotes| > 0 && recentNotes[0] != "" then "Remember: " + recentNotes[0] + ". " else ""
  }

  function MoodLine(mood: int): string
  {
    if mood <= 2 then HeavinessLine else MirrorLine
  }

  /** The note the script's note line quotes: the first recent note, or none (""). */
  function FirstNote(recentNotes: seq<string>): string
  {
    if |recentNotes| > 0 then recentNotes[0] else ""
  }

  predicate IndicesInRange(goal: Goal, bodyIx: nat, promptIx: nat)
  {
    bodyIx < |GoalBodies(goal)| && promptIx < |GoalPrompts(goal)|
  }

  /** The six script segments, in the order the script lists them. */
  function Segments(p: GeneratePayload, bodyIx: nat): seq<string>
    requires bodyIx < |GoalBodies(p.goal)|
  {
    [SettleTemplate,
     Intro(p.goal, p.name),
     NoteLine(p.recentNotes) + MoodLine(p.mood),
     GoalBodies(p.goal)[bodyIx],
     CountReminder,
     GoalCloser(p.goal)]
  }

  /** `Array.prototype.filter(Boolean)` on strings: drops the empty ones. */
  function Truthy(parts: seq<string>): seq<string>
  {
    if parts == [] then []
    else (if parts[0] != "" then [parts[0]] else []) + Truthy(parts[1..])
  }

  /** `Array.prototype.join(' ')`. */
  function JoinSpaces(parts: seq<string>): string
  {
    if |parts| == 0 then ""
    else if |parts| == 1 then parts[0]
    else parts[0] + " " + JoinSpaces(parts[1..])
  }

  /** generateSessionContent with its two random picks made explicit. */
  function Generate(p: GeneratePayload, bodyIx: nat, promptIx: nat): (r: GeneratedSession)
    requires IndicesInRange(p.goal, bodyIx, promptIx)
    ensures r.audioText == r.script
    ensures r.reflection in GoalPrompts(p.goal)
    ensures r.microTip in GoalTips(p.goal)
  {
    var script := JoinSpaces(Truthy(Segments(p, bodyIx)));
    GeneratedSession(script, GoalPrompts(p.goal)[promptIx], GoalTips(p.goal)[0], script)
  }

  // ---------------------------------------------------------------------------
  // Properties
  // ---------------------------------------------------------------------------

  /** Every table has an entry for every goal; one tip, three bodies, two prompts. */
  lemma TablesTotal(goal: Goal)
    ensures |GoalBodies(goal)| == 3 && |GoalPrompts(goal)| == 2 && |GoalTips(goal)| == 1
    ensures forall i :: 0 <= i < 3 ==> GoalBodies(goal)[i] != ""
    ensures GoalCloser(goal) != "" && GoalIntro(goal) != ""
  {
  }

  lemma {:induction false} TruthyKeepsNonEmpty(parts: seq<string>)
    requires forall i :: 0 <= i < |parts| ==> parts[i] != ""
    ensures Truthy(parts) == parts
  {
    if parts != [] {
      TruthyKeepsNonEmpty(parts[1..]);
      assert [parts[0]] + parts[1..] == parts;
    }
  }

  lemma TruthyDropsEmpty(parts: seq<string>)
    ensures forall i :: 0 <= i < |Truthy(parts)| ==> Truthy(parts)[i] != ""
  {
  }

  lemma JoinCons(head: string, rest: seq<string>)
    requires |rest| > 0
    ensures JoinSpaces([head] + rest) == head + " " + JoinSpaces(rest)
  {
    assert ([head] + rest)[1..] == rest;
  }

  lemma JoinSix(s0: string, s1: string, s2: string, s3: string, s4: string, s5: string)
    ensures JoinSpaces([s0, s1, s2, s3, s4, s5]) == s0 + " " + s1 + " " + s2 + " " + s3 + " " + s4 + " " + s5
  {
    JoinCons(s4, [s5]);
    assert [s4, s5] == [s4] + [s5];
    JoinCons(s3, [s4, s5]);
    assert [s3, s4, s5] == [s3] + [s4, s5];
    JoinCons(s2, [s3, s4, s5]);
    assert [s2, s3, s4, s5] == [s2] + [s3, s4, s5];
    JoinCons(s1, [s2, s3, s4, s5]);
    assert [s1, s2, s3, s4, s5] == [s1] + [s2, s3, s4, s5];
    JoinCons(s0, [s1, s2, s3, s4, s5]);
    assert [s0, s1, s2, s3, s4, s5] == [s0] + [s1, s2, s3, s4, s5];
  }

  lemma SegmentsNonEmpty(p: GeneratePayload, bodyIx: nat)
    requires bodyIx < |GoalBodies(p.goal)|
    ensures forall i :: 0 <= i < |Segments(p, bodyIx)| ==> Segments(p, bodyIx)[i] != ""
  {
    TablesTotal(p.goal);
    assert |NoteLine(p.recentNotes) + MoodLine(p.mood)| >= |MoodLine(p.mood)| > 0;
    assert |Intro(p.goal, p.name)| >= |GoalIntro(p.goal)| > 0;
  }

  /** A join starts with its first part and ends with its last part. */
  lemma {:induction false} JoinEnds(parts: seq<string>)
    requires |parts| > 0
    ensures |JoinSpaces(parts)| >= |parts[0]| && |JoinSpaces(parts)| >= |parts[|parts| - 1]|
    ensures |parts| > 1 ==> |JoinSpaces(parts)| > |parts[0]| + |parts[|parts| - 1]|
    ensures JoinSpaces(parts)[..|parts[0]|] == parts[0]
    ensures JoinSpaces(parts)[|JoinSpaces(parts)| - |parts[|parts| - 1]|..] == parts[|parts| - 1]
  {
    if |parts| > 1 {
      JoinEnds(parts[1..]);
      var j := JoinSpaces(parts[1..]);
      assert JoinSpaces(parts) == (parts[0] + " ") + j;
    }
  }

  /**
   * No segment is ever empty, so the filter drops nothing: the script is the
   * six segments, in their fixed order, joined by single spaces (JoinSix).
   */
  lemma ScriptLayout(p: GeneratePayload, bodyIx: nat, promptIx: nat)
    requires IndicesInRange(p.goal, bodyIx, promptIx)
    ensures Generate(p, bodyIx, promptIx).script ==
      JoinSpaces([SettleTemplate, Intro(p.goal, p.name), NoteLine(p.recentNotes) + MoodLine(p.mood),
                  GoalBodies(p.goal)[bodyIx], CountReminder, GoalCloser(p.goal)])
  {
    SegmentsNonEmpty(p, bodyIx);
    TruthyKeepsNonEmpty(Segments(p, bodyIx));
  }

  /**
   * The script spelled out: the greeting (in `Intro`), the note line and the
   * mood line sit in the second and third segments of the generated script,
   * so `GreetingChoice`, `NoteLineChoice` and `MoodLineChoice` describe the
   * output of `Generate` itself.
   */
  lemma ScriptSpelledOut(p: GeneratePayload, bodyIx: nat, promptIx: nat)
    requires IndicesInRange(p.goal, bodyIx, promptIx)
    ensures Generate(p, bodyIx, promptIx).script ==
      SettleTemplate + " " + Intro(p.goal, p.name) + " " + (NoteLine(p.recentNotes) + MoodLine(p.mood)) + " " +
      GoalBodies(p.goal)[bodyIx] + " " + CountReminder + " " + GoalCloser(p.goal)
  {
    ScriptLayout(p, bodyIx, promptIx);
    JoinSix(SettleTemplate, Intro(p.goal, p.name), NoteLine(p.recentNotes) + MoodLine(p.mood),
            GoalBodies(p.goal)[bodyIx], CountReminder, GoalCloser(p.goal));
  }

  /** The script opens with the settling instruction and closes with the goal's closer. */
  lemma ScriptFrame(p: GeneratePayload, bodyIx: nat, promptIx: nat)
    requires IndicesInRange(p.goal, bodyIx, promptIx)
    ensures var s := Generate(p, bodyIx, promptIx).script;
      && |s| > |SettleTemplate| + |GoalCloser(p.goal)|
      && s[..|SettleTemplate|] == SettleTemplate
      && s[|s| - |GoalCloser(p.goal)|..] == GoalCloser(p.goal)
  {
    ScriptLayout(p, bodyIx, promptIx);
    JoinEnds([SettleTemplate, Intro(p.goal, p.name), NoteLine(p.recentNotes) + MoodLine(p.mood),
              GoalBodies(p.goal)[bodyIx], CountReminder, GoalCloser(p.goal)]);
  }

  /** Moods up to 2 get the heaviness line, moods from 3 on the mirror line. */
  lemma MoodLineChoice(mood: int)
    ensures mood <= 2 ==> MoodLine(mood) == HeavinessLine
    ensures mood >= 3 ==> MoodLine(mood) == MirrorLine
  {
  }

  /** "Remember: <note>. " precedes the mood line exactly when the first recent note is non-empty. */
  lemma NoteLineChoice(recentNotes: seq<string>)
    ensures NoteLine(recentNotes) != "" <==> FirstNote(recentNotes) != ""
    ensures FirstNote(recentNotes) != "" ==>
      NoteLine(recentNotes) == "Remember: " + FirstNote(recentNotes) + ". "
  {
    if FirstNote(recentNotes) != "" {
      assert |NoteLine(recentNotes)| > 0;
    }
  }

  /** A non-empty name appears in the greeting between "Hi " and the comma. */
  lemma GreetingChoice(name: string)
    ensures name != "" ==>
      Greeting(name)[..3] == "Hi " && Greeting(name)[3..|Greeting(name)| - 1] == name && Greeting(name)[|Greeting(name)| - 1] == ','
    ensures name == "" ==> Greeting(name) == "Hi there,"
  {
    if name != "" {
      assert Greeting(name) == "Hi " + name + ",";
    }
  }

  /**
   * The output depends on the name, goal, mood, first note and the two picks
   * only: not on `length`, nor on any note after the first.
   */
  lemma GenerateDependencies(p: GeneratePayload, q: GeneratePayload, bodyIx: nat, promptIx: nat)
    requires IndicesInRange(p.goal, bodyIx, promptIx)
    requires p.name == q.name && p.goal == q.goal && (p.mood <= 2 <==> q.mood <= 2)
    requires FirstNote(p.recentNotes) == FirstNote(q.recentNotes)
    ensures Generate(p, bodyIx, promptIx) == Generate(q, bodyIx, promptIx)
  {
    assert NoteLine(p.recentNotes) == NoteLine(q.recentNotes);
    assert MoodLine(p.mood) == MoodLine(q.mood);
  }

  /** The tip is the goal's single tip, whatever the mood, notes and random picks. */
  lemma MicroTipFixed(p: GeneratePayload, bodyIx: nat, promptIx: nat)
    requires IndicesInRange(p.goal, bodyIx, promptIx)
    ensures [Generate(p, bodyIx, promptIx).microTip] == GoalTips(p.goal)
  {
  }

  /** The fourth segment of the script is one of the goal's bodies; the reflection is one of its prompts. */
  lemma PicksFromTables(p: GeneratePayload, bodyIx: nat, promptIx: nat)
    requires IndicesInRange(p.goal, bodyIx, promptIx)
    ensures exists b :: (b in GoalBodies(p.goal) &&
      Generate(p, bodyIx, promptIx).script ==
        JoinSpaces([SettleTemplate, Intro(p.goal, p.name), NoteLine(p.recentNotes) + MoodLine(p.mood),
                    b, CountReminder, GoalCloser(p.goal)]))
    ensures Generate(p, bodyIx, promptIx).reflection in GoalPrompts(p.goal)
  {
    ScriptLayout(p, bodyIx, promptIx);
    assert GoalBodies(p.goal)[bodyIx] in GoalBodies(p.goal);
  }
}
