/**
 * The agent state: the record persisted per discussion, the partial update a
 * graph node returns, and the mutable state object the turn works on.
 */
module Session {
  import opened Wrappers
  import opened Registry
  import opened Dialogue

  /** A snapshot of the agent state, as it is saved and loaded. */
  datatype Record = Record(
    discussionId: string,
    history: seq<Entry>,
    currentPhase: Node,
    document: map<string, string>,
    userCommand: string)

  /** What a graph node returns: a new history and, for a phase node, the design document. */
  datatype StepOutput = StepOutput(history: seq<Entry>, document: Option<map<string, string>>)

  /** `dict.update`: the keys a node returns replace the state's. */
  function Merge(r: Record, out: StepOutput): Record
  {
    var doc := if out.document.Some? then out.document.value else r.document;
    r.(history := out.history, document := doc)
  }

  /** A node never returns the phase, the command or the id, so merging keeps them. */
  lemma MergeKeepsRouting(r: Record, out: StepOutput)
    ensures Merge(r, out).currentPhase == r.currentPhase
    ensures Merge(r, out).userCommand == r.userCommand
    ensures Merge(r, out).discussionId == r.discussionId
  {
  }

  /** Every key of a design document names a phase. */
  ghost predicate PhaseKeyed(doc: map<string, string>)
  {
    forall key :: key in doc ==> IsPhaseName(key)
  }

  /**
   * `b` continues `a`: same discussion, `a`'s history is a prefix of `b`'s,
   * and every design-document entry of `a` is a prefix of `b`'s entry.
   */
  ghost predicate Extends(a: Record, b: Record)
  {
    && a.discussionId == b.discussionId
    && a.history <= b.history
    && (forall key :: key in a.document ==> key in b.document && a.document[key] <= b.document[key])
  }

  lemma ExtendsTransitive(a: Record, b: Record, c: Record)
    requires Extends(a, b) && Extends(b, c)
    ensures Extends(a, c)
  {
    forall key | key in a.document
      ensures key in c.document && a.document[key] <= c.document[key]
    {
      assert b.document[key] <= c.document[key];
    }
  }

  /** The mutable state dictionary of one turn. */
  class AgentState {
    var discussionId: string
    var history: seq<Entry>
    var currentPhase: Node
    var document: map<string, string>
    var userCommand: string

    function Snapshot(): Record
      reads this
    {
      Record(discussionId, history, currentPhase, document, userCommand)
    }

    /** A brand-new discussion: empty history and document, first phase, empty command. */
    constructor Fresh(newId: string)
      ensures Snapshot() == Record(newId, [], PhaseNode(Phases[0]), map[], "")
    {
      discussionId := newId;
      history := [];
      currentPhase := PhaseNode(Phases[0]);
      document := map[];
      userCommand := "";
    }

    /** A state built from a loaded record. */
    constructor Loaded(r: Record)
      ensures Snapshot() == r
    {
      discussionId := r.discussionId;
      history := r.history;
      currentPhase := r.currentPhase;
      document := r.document;
      userCommand := r.userCommand;
    }

    /** Merges a node's output into the state. */
    method Update(out: StepOutput)
      modifies this
      ensures Snapshot() == Merge(old(Snapshot()), out)
    {
      history := out.history;
      if out.document.Some? {
        document := out.document.value;
      }
    }
  }
}
