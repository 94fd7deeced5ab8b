/**
 * The graph nodes: the phase node (one exchange of a discussion phase) and
 * the summary node (the whole design document, summarised).  The model's
 * answer is an input: either its text or a failed call.
 */
module Nodes {
  import opened Wrappers
  import opened Registry
  import opened Routing
  import opened Dialogue
  import opened Session

  /** What the language model gave back for one call. */
  datatype Reply = Answer(text: string) | CallFailed

  /** The reply a phase node records when the model call fails. */
  const Fallback: string := "I seem to be having trouble connecting. Could you try your message again?"

  /** The notice placed before the raw document when the summary call fails. */
  const SummaryErrorNotice: string :=
    "I encountered an error while generating the summary. Here is the raw data:\n\n"

  // ----- The phase node -----

  /** The assistant message of a phase turn. */
  function PhaseReply(reply: Reply): string
  {
    match reply
    case Answer(t) => t
    case CallFailed => Fallback
  }

  /** The document entry of a phase after a turn: the old entry, the last history text, the reply. */
  function PhaseEntry(doc: map<string, string>, phase: Phase, lastText: string, msg: string): (e: string)
    ensures var before := if Name(phase) in doc then doc[Name(phase)] else "";
      && before <= e
      && |e| == |before| + |lastText| + |msg| + 6
      && e[|e| - |msg|..] == msg
  {
    (if Name(phase) in doc then doc[Name(phase)] else "") + "\n" + lastText + "\nAI: " + msg
  }

  /** What a phase node returns for a state and the model's reply. */
  function PhaseOutput(phase: Phase, g: Record, reply: Reply): (out: StepOutput)
    requires |g.history| > 0
    ensures g.history <= out.history && |out.history| == |g.history| + 1
    ensures out.history[|g.history|].speaker == Ai
    ensures out.document.Some? && Name(phase) in out.document.value
  {
    var msg := PhaseReply(reply);
    var entry := PhaseEntry(g.document, phase, g.history[|g.history| - 1].text, msg);
    StepOutput(g.history + [Entry(Ai, msg)], Some(g.document[Name(phase) := entry]))
  }

  /**
   * The phase node: builds the prompt, takes the model's reply, updates the
   * state's design document in place and returns the new history and document.
   */
  method RunPhaseNode(phase: Phase, state: AgentState, reply: Reply) returns (prompt: seq<Message>, out: StepOutput)
    requires |state.history| > 0
    modifies state
    ensures IsPhasePrompt(phase, old(state.history), prompt)
    ensures out == PhaseOutput(phase, old(state.Snapshot()), reply)
    ensures state.Snapshot() == old(state.Snapshot()).(document := out.document.value)
  {
    var history := state.history;
    prompt := BuildPhasePrompt(phase, history);
    var aiMessage: string;
    match reply {
      case Answer(t) => aiMessage := t;
      case CallFailed => aiMessage := Fallback;
    }
    var updatedHistory := history + [Entry(Ai, aiMessage)];
    var key := Name(phase);
    var current := if key in state.document then state.document[key] else "";
    state.document := state.document[key := current + "\n" + history[|history| - 1].text + "\nAI: " + aiMessage];
    out := StepOutput(updatedHistory, Some(state.document));
  }

  /** A phase turn appends exactly one AI entry: the model's text, or the fallback on failure. */
  lemma PhaseTurnAppendsReply(phase: Phase, g: Record, reply: Reply)
    requires |g.history| > 0
    ensures reply.Answer? ==> PhaseOutput(phase, g, reply).history == g.history + [Entry(Ai, reply.text)]
    ensures reply.CallFailed? ==> PhaseOutput(phase, g, reply).history == g.history + [Entry(Ai, Fallback)]
  {
  }

  /**
   * A phase turn extends its own document entry by the last history text and
   * the reply, keeps the old entry as a prefix, and leaves every other key alone.
   */
  lemma PhaseTurnGrowsOwnEntry(phase: Phase, g: Record, reply: Reply)
    requires |g.history| > 0
    ensures var doc := PhaseOutput(phase, g, reply).document.value;
      && doc.Keys == g.document.Keys + {Name(phase)}
      && doc[Name(phase)] ==
         (if Name(phase) in g.document then g.document[Name(phase)] else "")
         + "\n" + g.history[|g.history| - 1].text + "\nAI: " + PhaseReply(reply)
      && (Name(phase) in g.document ==> g.document[Name(phase)] <= doc[Name(phase)])
      && (forall key :: key in g.document && key != Name(phase) ==> doc[key] == g.document[key])
  {
  }

  // ----- The design document as text -----

  /** One section of the summary input: a header line, the phase's entry, a blank line. */
  function Section(p: Phase, body: string): string
  {
    "--- " + Header(p) + " ---\n" + body + "\n\n"
  }

  /** The sections of the phases of `ps` that have an entry, in the order of `ps`. */
  function SectionsOf(doc: map<string, string>, ps: seq<Phase>): string
    decreases |ps|
  {
    if ps == [] then ""
    else
      var p := ps[|ps| - 1];
      SectionsOf(doc, ps[..|ps| - 1]) + (if Name(p) in doc then Section(p, doc[Name(p)]) else "")
  }

  /** The full design-document text handed to the summary. */
  function DocumentText(doc: map<string, string>): string
  {
    SectionsOf(doc, Phases)
  }

  /** Builds the document text phase by phase, as the summary node does. */
  method AssembleDocument(doc: map<string, string>) returns (text: string)
    ensures text == DocumentText(doc)
  {
    text := "";
    for i := 0 to |Phases|
      invariant text == SectionsOf(doc, Phases[..i])
    {
      var phase := Phases[i];
      assert Phases[..i + 1][..i] == Phases[..i];
      if Name(phase) in doc {
        text := text + Section(phase, doc[Name(phase)]);
      }
    }
    assert Phases[..|Phases|] == Phases;
  }

  lemma {:induction false} SectionsOfAgree(d1: map<string, string>, d2: map<string, string>, ps: seq<Phase>)
    requires forall p :: (Name(p) in d1 <==> Name(p) in d2)
    requires forall p :: Name(p) in d1 ==> d1[Name(p)] == d2[Name(p)]
    ensures SectionsOf(d1, ps) == SectionsOf(d2, ps)
    decreases |ps|
  {
    if ps != [] {
      SectionsOfAgree(d1, d2, ps[..|ps| - 1]);
    }
  }

  /** The keys of `doc` that name a phase, with their entries. */
  function PhaseEntries(doc: map<string, string>): (r: map<string, string>)
    ensures forall key :: key in r <==> key in doc && IsPhaseName(key)
  {
    map key | key in doc && IsPhaseName(key) :: doc[key]
  }

  /** Keys that do not name a phase have no effect on the document text. */
  lemma DocumentTextIgnoresOtherKeys(doc: map<string, string>)
    ensures DocumentText(PhaseEntries(doc)) == DocumentText(doc)
  {
    var r := PhaseEntries(doc);
    forall p ensures Name(p) in r <==> Name(p) in doc {
      assert IsPhaseName(Name(p));
    }
    SectionsOfAgree(r, doc, Phases);
  }

  lemma {:induction false} SectionsOfEmptyIff(doc: map<string, string>, ps: seq<Phase>)
    ensures SectionsOf(doc, ps) == "" <==> forall i :: 0 <= i < |ps| ==> Name(ps[i]) !in doc
    decreases |ps|
  {
    if ps != [] {
      var init := ps[..|ps| - 1];
      SectionsOfEmptyIff(doc, init);
      assert forall i :: 0 <= i < |init| ==> init[i] == ps[i];
    }
  }

  /** The document text is empty exactly when no phase has an entry. */
  lemma DocumentTextEmptyIff(doc: map<string, string>)
    ensures DocumentText(doc) == "" <==> forall p :: Name(p) !in doc
  {
    SectionsOfEmptyIff(doc, Phases);
    if forall i :: 0 <= i < |Phases| ==> Name(Phases[i]) !in doc {
      forall p ensures Name(p) !in doc {
        assert Phases[Index(p)] == p;
      }
    }
  }

  lemma {:induction false} SectionsOfPrefix(doc: map<string, string>, ps: seq<Phase>, k: nat)
    requires k <= |ps|
    ensures SectionsOf(doc, ps[..k]) <= SectionsOf(doc, ps)
    decreases |ps| - k
  {
    if k < |ps| {
      var init := ps[..|ps| - 1];
      assert init[..k] == ps[..k];
      SectionsOfPrefix(doc, init, k);
    } else {
      assert ps[..k] == ps;
    }
  }

  /** Where the section of the `i`-th phase starts in the document text. */
  function SectionStart(doc: map<string, string>, i: nat): nat
    requires i <= |Phases|
  {
    |SectionsOf(doc, Phases[..i])|
  }

  lemma SectionsOfUpTo(doc: map<string, string>, ps: seq<Phase>, i: nat)
    requires i < |ps| && Name(ps[i]) in doc
    ensures SectionsOf(doc, ps[..i + 1]) == SectionsOf(doc, ps[..i]) + Section(ps[i], doc[Name(ps[i])])
  {
    assert ps[..i + 1][..i] == ps[..i];
  }

  lemma SectionsInOrder(doc: map<string, string>, ps: seq<Phase>, i: nat, j: nat)
    requires i < j <= |ps| && Name(ps[i]) in doc
    ensures OccursAt(SectionsOf(doc, ps), Section(ps[i], doc[Name(ps[i])]), |SectionsOf(doc, ps[..i])|)
    ensures |SectionsOf(doc, ps[..i])| + |Section(ps[i], doc[Name(ps[i])])| <= |SectionsOf(doc, ps[..j])|
  {
    var t := Section(ps[i], doc[Name(ps[i])]);
    var before := SectionsOf(doc, ps[..i]);
    var upTo := SectionsOf(doc, ps[..i + 1]);
    SectionsOfUpTo(doc, ps, i);
    SectionsOfPrefix(doc, ps, i + 1);
    var whole := SectionsOf(doc, ps);
    assert whole[..|upTo|] == upTo;
    assert whole[|before|..|before| + |t|] == upTo[|before|..|before| + |t|];
    assert upTo[|before|..|before| + |t|] == t;
    assert ps[..j][..i + 1] == ps[..i + 1];
    SectionsOfPrefix(doc, ps[..j], i + 1);
  }

  /**
   * The document text is the phases' sections in phase-list order: the section
   * of every phase with an entry stands at its start position, and it ends
   * before the section of any later phase starts.
   */
  lemma DocumentTextInPhaseOrder(doc: map<string, string>, i: nat, j: nat)
    requires i < j <= |Phases| && Name(Phases[i]) in doc
    ensures OccursAt(DocumentText(doc), Section(Phases[i], doc[Name(Phases[i])]), SectionStart(doc, i))
    ensures SectionStart(doc, i) + |Section(Phases[i], doc[Name(Phases[i])])| <= SectionStart(doc, j)
  {
    SectionsInOrder(doc, Phases, i, j);
  }

  // ----- The summary node -----

  /** The summary message: the model's text, or the error notice followed by the raw document. */
  function SummaryReply(doc: map<string, string>, reply: Reply): string
  {
    match reply
    case Answer(t) => t
    case CallFailed => SummaryErrorNotice + DocumentText(doc)
  }

  /** What the summary node returns: only a new history. */
  function SummaryOutput(g: Record, reply: Reply): (out: StepOutput)
    ensures g.history <= out.history && |out.history| == |g.history| + 1
    ensures out.history[|g.history|].speaker == Ai
    ensures out.document.None?
    ensures reply.Answer? ==> out.history == g.history + [Entry(Ai, reply.text)]
    ensures reply.CallFailed? ==> out.history == g.history + [Entry(Ai, SummaryErrorNotice + DocumentText(g.document))]
  {
    StepOutput(g.history + [Entry(Ai, SummaryReply(g.document, reply))], None)
  }

  /** The summary node: assembles the document, asks for the summary, and appends the result. */
  method SummaryNode(state: AgentState, reply: Reply) returns (prompt: seq<Message>, out: StepOutput)
    ensures prompt == [HumanMessage(SummaryRequest(DocumentText(state.document)))]
    ensures out == SummaryOutput(state.Snapshot(), reply)
  {
    var fullDocumentText := AssembleDocument(state.document);
    prompt := [HumanMessage(SummaryRequest(fullDocumentText))];
    var summaryMessage: string;
    match reply {
      case Answer(t) => summaryMessage := t;
      case CallFailed => summaryMessage := SummaryErrorNotice + fullDocumentText;
    }
    out := StepOutput(state.history + [Entry(Ai, summaryMessage)], None);
  }

  // ----- Either node -----

  /** The output of the node `node` run on the state `g`. */
  function RunNode(node: Node, g: Record, reply: Reply): (out: StepOutput)
    requires |g.history| > 0
    ensures g.history <= out.history && |out.history| == |g.history| + 1
    ensures out.history[|g.history|].speaker == Ai
  {
    match node
    case PhaseNode(p) => PhaseOutput(p, g, reply)
    case Summarize => SummaryOutput(g, reply)
  }

  /** Running a node only extends the state: history grows by one, entries only grow, id kept. */
  lemma RunNodeExtends(node: Node, g: Record, reply: Reply)
    requires |g.history| > 0
    ensures Extends(g, Merge(g, RunNode(node, g, reply)))
    ensures PhaseKeyed(g.document) ==> PhaseKeyed(Merge(g, RunNode(node, g, reply)).document)
  {
    var g1 := Merge(g, RunNode(node, g, reply));
    if node.PhaseNode? {
      PhaseTurnGrowsOwnEntry(node.phase, g, reply);
      assert IsPhaseName(Name(node.phase));
    }
  }
}
