# System-design interviewer agent: conversation core in Dafny

This project models the conversation state machine of a system-design
assistant. The assistant leads a user through six fixed discussion phases:

1. vision and scoping
2. functional requirements
3. data model
4. NFR and scale
5. architecture and components
6. deep dive and trade-offs

Commands in the user's message move the discussion: `[next]`, `[back]`,
`[summarize]`, `[end]` and `[exit]`. In each phase the assistant asks the
language model for a reply and appends it to the transcript. It also grows a
per-phase design document, and it can summarise that document.

The model covers the following parts of `agent.py`:

- the phase list (`registry.dfy`);
- the command router (`routing.dfy`);
- history formatting and the phase prompt (`dialogue.dfy`);
- the agent state and the `dict.update` merge (`session.dfy`);
- the phase node and the summary node (`nodes.dfy`);
- the per-turn bookkeeping of `run_agent_stream` (`orchestrator.dfy`).

It also models the sidebar title rule of `database.py` (`listing.dfy`).

The language model's answer, the record the store returns and the id of a new
discussion are inputs. The model reply is either text or `CallFailed`.
`graph.stream` is an input too: a sequence of (node, output) steps, plus a
flag saying whether the graph raised after them. The compiled graph's edges
are described separately by `GraphFrom`, so lemmas can talk about the steps
that graph actually yields.

A natural reading of the agent is that each turn runs exactly one phase, or
none for `[end]`, and resumes at the saved phase. The code behaves
differently, and the model follows the code:

- **Graph entry.** The compiled graph always starts at the first phase
  (agent.py:77), whatever phase was saved.
- **Router inside the graph.** No node returns `current_phase`, so the router
  inside the graph keeps seeing the loaded phase (`GraphFollowsLoadedPhase`).
- **Re-routing per step.** The turn loop re-runs the router after every step.
  With `[next]` in the command, the saved phase therefore moves one phase per
  step, not one per turn (`NextAdvancesSavedPhasePerStep`).
- **`[end]` and `[exit]`.** These still run the first phase's node once
  (`EndCommandRunsEntryNodeOnce`); the turn does not end without running a
  node.
- **A plain message loops.** A command without `[next]`, `[back]`,
  `[summarize]`, `[end]` or `[exit]` routes every phase node back to the
  saved phase. The compiled graph therefore re-runs that phase's node at every
  step and never reaches its end on its own; the turn stops only when
  LangGraph's recursion limit raises (`PlainCommandRepeatsSavedPhase`). From
  `data_model` with "hello" and three model replies, the graph yields the
  first phase's node and then `data_model` twice.
- **Empty id.** An empty discussion id is falsy, so it starts a new
  discussion (`Begin`).
- **Summarize as the saved phase.** "summarize" can be saved as
  `current_phase`. A later `[next]` or `[back]` then makes `list.index` raise.
  The router gives an explicit `Err(NotInPhaseList("summarize"))` here. The
  router is the conditional edge of the first phase's node, so it runs inside
  that node's step. The graph therefore raises before the step is passed on,
  and the turn yields only the agent's error result and saves nothing
  (`MoveFromSummaryYieldsOnlyError`). For the same reason, the step loop's own
  router call never fails in a turn driven by the compiled graph
  (`GraphTurnSavesEveryStep`). `Stream` still describes that failure for an
  arbitrary step sequence.

## Model

| member | source | states |
|---|---|---|
| Registry.Index | agent.py:47-54 | the index of a phase is a position of the phase list holding that phase |
| Registry.IndexIsOnlyPosition | agent.py:47-54 | each phase occurs once in the list, so `list.index` answers its only position |
| Routing.Router | agent.py:143-163 | computes the target from the stripped, lower-cased command with the first of `[next]`, `[back]`, `[summarize]`, `[end]`/`[exit]` found; its contract states it fails only on "summarize" (with the `list.index` fault), moves at most one phase from a phase, and never leaves "summarize" except by ending |
| Routing.StripKeepsToken | agent.py:146 | stripping white space neither adds nor removes a bracketed token |
| Routing.RouterSeesTokens | agent.py:146 | each token is found in the lower-cased, stripped command exactly when it occurs in the lower-cased command |
| Routing.RouterNext | agent.py:149-152 | `[next]` wins over every other token: from phase i it goes to phase min(i+1, 5); from "summarize" it fails |
| Routing.RouterBack | agent.py:153-156 | `[back]` without `[next]` goes to phase max(i-1, 0); from "summarize" it fails |
| Routing.RouterSummarize | agent.py:157-158 | `[summarize]` without `[next]`/`[back]` selects the summary node from any node |
| Routing.RouterEnd | agent.py:159-160 | `[end]` or `[exit]`, when no higher-priority token is present, answers "end" |
| Routing.RouterNoToken | agent.py:161-163 | a command without tokens keeps the current node |
| Routing.RouterFailsOnlyOffPhase | agent.py:149-156 | the router fails exactly when the current node is "summarize" and the command asks for a move |
| Routing.RouterAnswerIsRoutable | agent.py:149-163 | the node the router picks can itself be routed with the same command without failing |
| Routing.MoveIsAdjacent | agent.py:149-156 | a move from a phase succeeds and lands on a phase at most one position away |
| Routing.RouterIgnoresCase | agent.py:146 | routing a lower-cased command gives the same answer as routing the original |
| Routing.NextFromLastPhaseStays | agent.py:151 | `[next]` from the last phase stays on the last phase |
| Routing.BackFromFirstPhaseStays | agent.py:155 | `[back]` from the first phase stays on the first phase |
| Routing.NextBeatsBack | agent.py:149-156 | with both `[next]` and `[back]`, the data-model phase moves forward to NFR and scale |
| Dialogue.ToMessage | agent.py:100-104 | computes the message for one entry: a human message for speaker "user", an AI message for any other speaker; `FormatHistory` maps it over the history |
| Dialogue.FormatHistory | agent.py:97-105 | one message per entry, in order: "user" entries become human messages, every other speaker an AI message |
| Dialogue.BuildPhasePrompt | agent.py:114-121 | the prompt is the persona, then the formatted history, then the phase's guiding question if and only if the last entry is the user's |
| Session.Merge | agent.py:224 | computes `dict.update` of the state with a node's output: the history replaced, the document replaced only when returned; `MergeKeepsRouting` states what it keeps |
| Session.MergeKeepsRouting | agent.py:223-224 | merging a node's output never changes the phase, the command or the discussion id |
| Session.ExtendsTransitive | agent.py:131-134 | "continues" (same id, history prefix, document entries prefixes) is transitive |
| Session.AgentState.Fresh | agent.py:204-211 | a new state has the new id, an empty history and document, the first phase and an empty command |
| Session.AgentState.Loaded | agent.py:199 | a loaded state is the stored record |
| Session.AgentState.Update | agent.py:224 | the returned keys replace the state's: the history always, the document when the node returned one |
| Nodes.PhaseEntry | agent.py:132-134 | the new entry of a phase starts with its old entry (or "" when absent), is exactly 6 characters longer than the old entry, last text and reply together, and ends with the reply |
| Nodes.PhaseOutput | agent.py:130-139 | a phase turn keeps the old history as a prefix, adds exactly one AI entry and returns a document holding the phase's key |
| Nodes.RunPhaseNode | agent.py:110-139 | builds the phase prompt, updates the state's document in place, and returns the history and document of `PhaseOutput` |
| Nodes.PhaseTurnAppendsReply | agent.py:123-131 | the new entry is ("ai", model text), or ("ai", the fixed fallback) when the call fails |
| Nodes.PhaseTurnGrowsOwnEntry | agent.py:132-134 | the phase's entry becomes old + "\n" + last history text + "\nAI: " + reply; the old entry is a prefix; other keys are unchanged |
| Nodes.SectionsOf | agent.py:170-172 | computes the concatenated sections, in the order of the given phases, of those phases that have an entry |
| Nodes.DocumentText | agent.py:169-172 | computes the summary input: `SectionsOf` over the whole phase list; `AssembleDocument` and the lemmas below state its properties |
| Nodes.AssembleDocument | agent.py:169-172 | the loop builds exactly the document text: the sections of the phases present, in phase-list order |
| Nodes.DocumentTextIgnoresOtherKeys | agent.py:170-172 | keys that do not name a phase do not affect the document text |
| Nodes.DocumentTextEmptyIff | agent.py:169-172 | the document text is empty exactly when no phase has an entry |
| Nodes.DocumentTextInPhaseOrder | agent.py:169-172 | each present phase's section stands at its start offset and ends before any later phase's section starts |
| Nodes.SummaryOutput | agent.py:165-183 | the summary keeps the old history and appends exactly one AI entry: the model's text on success, or the error notice followed by the assembled document when the call fails; it returns no document |
| Nodes.SummaryNode | agent.py:165-183 | the prompt carries the assembled document text, and the output is `SummaryOutput` of the state |
| Nodes.RunNode | agent.py:72-74 | any node extends the history by exactly one AI entry |
| Nodes.RunNodeExtends | agent.py:131-134 | running a node and merging gives a state that continues the old one and keeps a phase-keyed document phase-keyed |
| Orchestrator.Begin | agent.py:196-215 | the result is the load error exactly when a non-empty id has no record; otherwise the begun state ends with the user's entry and carries the user's text as its command |
| Orchestrator.Advance | agent.py:223-229 | after a step, fails exactly when the router fails on the state; otherwise the history is the step's, the id and command are kept, and the phase is the router's target, or unchanged on "end"; the document is the step's when the node returned one, and the old one otherwise |
| Orchestrator.Stream | agent.py:218-235 | computes the chunks and saves of the step loop: pass each step on, then fail with the router's fault or save the advanced state; one graph error at the end if the graph raised; `StreamCounts` and the lemmas below state its properties |
| Orchestrator.BeginLoadFailure | agent.py:198-202 | a non-empty id that fails to load gives exactly the load error |
| Orchestrator.BeginFresh | agent.py:203-215 | with no id or an empty one, the turn starts under the new id in the first phase, with an empty document and the user's message as the whole history and as the command |
| Orchestrator.BeginResumed | agent.py:198-215 | a loaded discussion keeps its id, phase and document and gains the user's entry and command |
| Orchestrator.RunAgentStream | agent.py:185-235 | a load failure yields one error chunk and saves nothing; otherwise the chunks and saves are those of `Stream` from the begun state |
| Orchestrator.StreamSteps | agent.py:218-231 | the step loop over the mutable state yields and saves exactly what `Stream` describes |
| Orchestrator.StreamCounts | agent.py:218-235 | at most one save per step; when every step was saved, the chunks are the steps plus one error if the graph raised, otherwise saves + 2 |
| Orchestrator.StreamPassesStepsOn | agent.py:218-220 | chunk k is step k, passed on before its save |
| Orchestrator.StreamSavesAdvance | agent.py:223-231 | save k is step k merged into the previous state, with the phase the router then gives (unchanged on "end") |
| Orchestrator.StreamErrorIsLast | agent.py:227-235 | a step passed on but not saved is one whose router call failed, and that failure is the turn's last chunk |
| Orchestrator.StreamGraphErrorIsLast | agent.py:233-235 | when every step was saved, the last chunk is the agent's error exactly when the graph raised |
| Orchestrator.StreamKeepsIdentity | agent.py:214 | every save keeps the discussion id and the turn's command |
| Orchestrator.NextAdvancesSavedPhasePerStep | agent.py:226-229 | with `[next]`, no step fails and the phase saved after step k is k+1 phases past the loaded one, clamped at the last |
| Orchestrator.SettledRouteKeepsSavedPhase | agent.py:226-229 | when the router answers "end" or the current node, every step is saved with the loaded phase |
| Orchestrator.GraphFrom | agent.py:72-93 | the compiled graph from a node on yields at most one step per model reply, and its first step, if any, runs that node; a router failure raises without passing on the failing node's step |
| Orchestrator.SummaryStepIsLast | agent.py:92-93 | the summary node's only edge is the end: a step running it is the run's last, and such a run does not raise |
| Orchestrator.SummarizeCommandRunsTwoSteps | agent.py:77-93 | a command routed to "summarize" runs the first phase's node, then the summary node, and the graph ends there without raising |
| Orchestrator.Graph | agent.py:77 | computes the graph's run entered at the first phase, whatever the current phase |
| Orchestrator.GraphFollowsLoadedPhase | agent.py:80-90 | after the entry node, every graph step runs the node the router picks for the loaded phase and command |
| Orchestrator.GraphEntersAtFirstPhase | agent.py:77-84 | when the router answers for the begun state, the first step runs the first phase's node on it; when the router fails, the graph raises with no step |
| Orchestrator.GraphFromNeverStops | agent.py:80-90 | when the router sends a phase node back to the loaded phase, the graph runs one node per model reply and never raises or ends by itself |
| Orchestrator.PlainCommandRepeatsSavedPhase | agent.py:77-163 | a command with none of the five tokens makes the graph use every model reply without raising, and every step after the entry node runs the saved phase's node |
| Orchestrator.EndCommandRunsEntryNodeOnce | agent.py:77-90 | with a command that routes to "end", the graph runs the first phase's node once, then stops |
| Orchestrator.MoveFromSummaryYieldsOnlyError | agent.py:150 | with "summarize" saved and `[next]` or `[back]` in the command, the graph raises with no step, and the turn yields only the agent's error and saves nothing |
| Orchestrator.StreamSavesEveryStep | agent.py:218-231 | while the router answers for the turn's command, every step passed on is saved |
| Orchestrator.GraphTurnSavesEveryStep | agent.py:218-231 | in a turn driven by the compiled graph, every step passed on is saved: the loop's router call never fails |
| Orchestrator.GraphTurnOnlyAppends | agent.py:218-231 | over a graph-driven turn, save k continues the begun state with exactly k+1 AI entries; every save continues the earlier ones; the document stays phase-keyed |
| Orchestrator.SavedDiscussionsKeepTitle | database.py:160-164 | a saved discussion is never titled "New Discussion", and every save of a turn has the title the turn began with |
| Listing.Title | database.py:160-164 | computes the sidebar title: "New Discussion", or the first user message cut to 50 characters followed by "..."; `TitleShape` states its shape |
| Listing.FirstUserText | database.py:162 | there is a result exactly when some entry is the user's, and it is the text of the earliest such entry |
| Listing.Truncate | database.py:164 | the result is a prefix of the text: the whole text when it has at most 50 characters, otherwise exactly 50 characters |
| Listing.TitleShape | database.py:160-164 | the title is "New Discussion" exactly when no user spoke; otherwise it is the first user message's first min(length, 50) characters followed by "...", so exactly min(length, 50) + 3 characters long |
| Listing.TitleStable | database.py:160-164 | appending entries never changes a title that came from a user message |

## Left out

- The language model call is an input: `Answer(text)` or `CallFailed`. Prompt templating through `ChatPromptTemplate` is not modelled. The persona, the guiding questions and the summary instruction are symbolic contents, not their text.
- Database access is not modelled: the connection, `load_discussion`, `save_discussion` and `ObjectId` parsing. The store's answer is a parameter, and each save is recorded as a snapshot in `saves`. Whether a save succeeded is not modelled; the source ignores it too.
- `write_log` and `logging` calls are left out. Their results are never used.
- `ObjectId()` generation is left out. The new id is a parameter.
- LangGraph's scheduler is not modelled. Its recursion limit is one example: a graph that loops is cut short only by the supply of model replies in `GraphFrom`, while the real library raises after 25 steps. The error text of such exceptions is not modelled either; they appear as `raised`/`GraphFailed`.
- `Routing.Router`: `str.lower()` maps only the ASCII capitals. `str.strip()` removes only the ASCII white space (blank, tab, line breaks, vertical tab, form feed and the separators 0x1C to 0x1F). Unicode case mapping and non-ASCII white space such as U+0085 and U+00A0 are not modelled.
- `Session.AgentState.Update`: the phase node mutates the same document dictionary the turn's state holds. The model instead copies the document out and replaces it, so aliasing between the graph's state and the caller's state is not captured.
- A stored `current_phase` can only be one of the six phases or "summarize". Arbitrary strings in a stored record are not represented.
- `str.title()` on the phase ids is replaced by a fixed table of the six headers.
- The UI (`app.py`) and its background thread are not part of this model. The rest of `database.py` (`get_all_discussions` beyond the title rule) is not part of this model either.
- The error chunks' message texts are symbolic: `LoadError(id)` and `AgentError(cause)`.
