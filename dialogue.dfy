/**
 * The conversation transcript and the messages sent to the language model:
 * history entries are (speaker, text) pairs, and a phase turn's prompt is the
 * persona, the whole history, and possibly the phase's guiding question.
 */
module Dialogue {
  import opened Registry

  /** One transcript entry: who spoke ("user", "ai", or whatever a stored record holds) and what was said. */
  datatype Entry = Entry(speaker: string, text: string)

  const User: string := "user"
  const Ai: string := "ai"

  /**
   * What a message carries.  The persona, the six guiding questions and the
   * summary instruction are fixed texts of the program; they are kept
   * symbolic here.
   */
  datatype Content =
    | Said(text: string)
    | SystemPersona
    | GuidingQuestion(phase: Phase)
    | SummaryRequest(designDocument: string)

  datatype Message = HumanMessage(content: Content) | AIMessage(content: Content)

  /** The message an entry becomes: user entries are human messages, every other speaker an AI message. */
  function ToMessage(e: Entry): Message
  {
    if e.speaker == User then HumanMessage(Said(e.text)) else AIMessage(Said(e.text))
  }

  /** Formats the transcript for the model, entry by entry and in order. */
  method FormatHistory(history: seq<Entry>) returns (messages: seq<Message>)
    ensures |messages| == |history|
    ensures forall i :: 0 <= i < |history| ==> messages[i] == ToMessage(history[i])
  {
    messages := [];
    for i := 0 to |history|
      invariant |messages| == i
      invariant forall j :: 0 <= j < i ==> messages[j] == ToMessage(history[j])
    {
      var entry := history[i];
      if entry.speaker == User {
        messages := messages + [HumanMessage(Said(entry.text))];
      } else {
        messages := messages + [AIMessage(Said(entry.text))];
      }
    }
  }

  /** A phase turn is a new phase exactly when the last entry is the user's. */
  predicate IsNewPhase(history: seq<Entry>)
    requires |history| > 0
  {
    history[|history| - 1].speaker == User
  }

  /**
   * The prompt of a phase turn: the persona, then the history one message per
   * entry, then the guiding question of the phase if and only if the last
   * entry is the user's.
   */
  predicate IsPhasePrompt(phase: Phase, history: seq<Entry>, prompt: seq<Message>)
    requires |history| > 0
  {
    && |prompt| == |history| + (if IsNewPhase(history) then 2 else 1)
    && prompt[0] == HumanMessage(SystemPersona)
    && (forall i :: 0 <= i < |history| ==> prompt[1..][i] == ToMessage(history[i]))
    && (IsNewPhase(history) ==> prompt[|history| + 1] == HumanMessage(GuidingQuestion(phase)))
  }

  /** Builds the prompt of a phase turn. */
  method BuildPhasePrompt(phase: Phase, history: seq<Entry>) returns (prompt: seq<Message>)
    requires |history| > 0
    ensures IsPhasePrompt(phase, history, prompt)
  {
    var formatted := FormatHistory(history);
    prompt := [HumanMessage(SystemPersona)] + formatted;
    assert prompt[1..] == formatted;
    if history[|history| - 1].speaker == User {
      prompt := prompt + [HumanMessage(GuidingQuestion(phase))];
      assert prompt[1..][..|history|] == formatted;
    }
  }
}
