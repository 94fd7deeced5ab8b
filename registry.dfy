/**
 * The phase registry of the system-design agent: the fixed, ordered list of
 * discussion phases, their identifiers and the headers the summary prints,
 * and the graph nodes built from them.
 */
module Registry {

  /** The six discussion phases, in the order of the registry. */
  datatype Phase =
    | VisionAndScoping
    | FunctionalRequirements
    | DataModel
    | NfrAndScale
    | ArchitectureAndComponents
    | DeepDiveAndTradeoffs

  /** The ordered phase list; its order is the direction of `[next]` and `[back]`. */
  const Phases: seq<Phase> :=
    [VisionAndScoping, FunctionalRequirements, DataModel,
     NfrAndScale, ArchitectureAndComponents, DeepDiveAndTradeoffs]

  /** The identifier of a phase, which is also the key of its design-document entry. */
  function Name(p: Phase): string
  {
    match p
    case VisionAndScoping => "vision_and_scoping"
    case FunctionalRequirements => "functional_requirements"
    case DataModel => "data_model"
    case NfrAndScale => "nfr_and_scale"
    case ArchitectureAndComponents => "architecture_and_components"
    case DeepDiveAndTradeoffs => "deep_dive_and_tradeoffs"
  }

  /** The identifier with underscores turned into spaces and every word capitalised. */
  function Header(p: Phase): string
  {
    match p
    case VisionAndScoping => "Vision And Scoping"
    case FunctionalRequirements => "Functional Requirements"
    case DataModel => "Data Model"
    case NfrAndScale => "Nfr And Scale"
    case ArchitectureAndComponents => "Architecture And Components"
    case DeepDiveAndTradeoffs => "Deep Dive And Tradeoffs"
  }

  /** The position of a phase in the list (what `list.index` answers for a phase). */
  function Index(p: Phase): (i: nat)
    ensures i < |Phases| && Phases[i] == p
  {
    match p
    case VisionAndScoping => 0
    case FunctionalRequirements => 1
    case DataModel => 2
    case NfrAndScale => 3
    case ArchitectureAndComponents => 4
    case DeepDiveAndTradeoffs => 5
  }

  /** Each phase occurs once in the list, so the index of a phase is its only position. */
  lemma IndexIsOnlyPosition(p: Phase, i: nat)
    requires i < |Phases| && Phases[i] == p
    ensures i == Index(p)
  {
  }

  /** True of the design-document keys that name a phase. */
  predicate IsPhaseName(key: string)
  {
    exists p: Phase :: Name(p) == key
  }

  /** The nodes of the conversation graph: one per phase, plus the summary node. */
  datatype Node = PhaseNode(phase: Phase) | Summarize

  /** The node name, which the source also stores as `current_phase`. */
  function NodeName(n: Node): string
  {
    match n
    case PhaseNode(p) => Name(p)
    case Summarize => "summarize"
  }
}
