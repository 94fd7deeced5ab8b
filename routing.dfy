/**
 * The command router: a pure function from the current phase and the
 * user's latest command to the next graph target.  The command is
 * lower-cased and stripped, then searched for the bracket tokens in a
 * fixed priority order.
 */
module Routing {
  import opened Wrappers
  import opened Registry

  /** Where the router sends the conversation: a graph node, or the end of the graph. */
  datatype Route = Goto(node: Node) | End

  /** The router's failure: `list.index` on a current phase that is not in the phase list. */
  datatype Fault = NotInPhaseList(name: string)

  const NextToken: string := "[next]"
  const BackToken: string := "[back]"
  const SummarizeToken: string := "[summarize]"
  const EndToken: string := "[end]"
  const ExitToken: string := "[exit]"

  // ----- Lower-casing, stripping and substring search -----

  function LowerChar(c: char): char
  {
    if 'A' <= c <= 'Z' then (c as int + 32) as char else c
  }

  /** Lower-cases every ASCII capital letter and keeps every other character. */
  function Lower(s: string): string
  {
    seq(|s|, i requires 0 <= i < |s| => LowerChar(s[i]))
  }

  /** The ASCII characters that stripping removes: blank, tab, line breaks and the four separators. */
  predicate IsSpace(c: char)
  {
    c == ' ' || c == '\t' || c == '\n' || c == '\r' || c == '\U{000B}' || c == '\U{000C}'
    || ('\U{001C}' <= c <= '\U{001F}')
  }

  function TrimStart(s: string): string
  {
    if |s| > 0 && IsSpace(s[0]) then TrimStart(s[1..]) else s
  }

  function TrimEnd(s: string): string
  {
    if |s| > 0 && IsSpace(s[|s| - 1]) then TrimEnd(s[..|s| - 1]) else s
  }

  /** Removes leading and trailing white space. */
  function Strip(s: string): string
  {
    TrimEnd(TrimStart(s))
  }

  predicate OccursAt(s: string, t: string, i: nat)
  {
    i + |t| <= |s| && s[i..i + |t|] == t
  }

  /** Substring containment, Python's `t in s`. */
  predicate Contains(s: string, t: string)
  {
    exists i: nat :: i <= |s| && OccursAt(s, t, i)
  }

  /** A routing token occurs in the command, whatever the case of its letters. */
  predicate Has(command: string, token: string)
  {
    Contains(Lower(command), token)
  }

  /** A token that starts and ends with a character that is not white space. */
  predicate Bracketed(t: string)
  {
    |t| > 0 && !IsSpace(t[0]) && !IsSpace(t[|t| - 1])
  }

  // ----- The router -----

  function Min(a: int, b: int): int { if a < b then a else b }
  function Max(a: int, b: int): int { if a < b then b else a }

  /**
   * The router: the first token found, in priority order, decides the target.
   * It fails only on the summary node; from a phase it never moves more than
   * one phase; and the summary node is left only by ending.
   */
  function Router(current: Node, userCommand: string): (r: Result<Route, Fault>)
    ensures r.Err? ==> current == Summarize && r.error == NotInPhaseList("summarize")
    ensures r.Ok? && r.value.Goto? && r.value.node.PhaseNode? && current.PhaseNode? ==>
      -1 <= Index(r.value.node.phase) - Index(current.phase) <= 1
    ensures r.Ok? && r.value.Goto? && current == Summarize ==> r.value.node == Summarize
  {
    var command := Strip(Lower(userCommand));
    if Contains(command, NextToken) then
      match current
      case PhaseNode(p) => Ok(Goto(PhaseNode(Phases[Min(Index(p) + 1, |Phases| - 1)])))
      case Summarize => Err(NotInPhaseList(NodeName(current)))
    else if Contains(command, BackToken) then
      match current
      case PhaseNode(p) => Ok(Goto(PhaseNode(Phases[Max(Index(p) - 1, 0)])))
      case Summarize => Err(NotInPhaseList(NodeName(current)))
    else if Contains(command, SummarizeToken) then
      Ok(Goto(Summarize))
    else if Contains(command, EndToken) || Contains(command, ExitToken) then
      Ok(End)
    else
      Ok(Goto(current))
  }

  // ----- Stripping never changes whether a token is present -----

  lemma DropLeadingSpace(s: string, t: string)
    requires |s| > 0 && IsSpace(s[0]) && Bracketed(t)
    ensures Contains(s[1..], t) <==> Contains(s, t)
  {
    if Contains(s[1..], t) {
      var i: nat :| i <= |s[1..]| && OccursAt(s[1..], t, i);
      assert s[i + 1..i + 1 + |t|] == s[1..][i..i + |t|];
      assert OccursAt(s, t, i + 1);
    }
    if Contains(s, t) {
      var i: nat :| i <= |s| && OccursAt(s, t, i);
      assert s[i] == t[0];
      assert i != 0;
      assert s[1..][i - 1..i - 1 + |t|] == s[i..i + |t|];
      assert OccursAt(s[1..], t, i - 1);
    }
  }

  lemma DropTrailingSpace(s: string, t: string)
    requires |s| > 0 && IsSpace(s[|s| - 1]) && Bracketed(t)
    ensures Contains(s[..|s| - 1], t) <==> Contains(s, t)
  {
    var u := s[..|s| - 1];
    if Contains(u, t) {
      var i: nat :| i <= |u| && OccursAt(u, t, i);
      assert s[i..i + |t|] == u[i..i + |t|];
      assert OccursAt(s, t, i);
    }
    if Contains(s, t) {
      var i: nat :| i <= |s| && OccursAt(s, t, i);
      assert s[i + |t| - 1] == t[|t| - 1];
      assert i + |t| <= |u|;
      assert u[i..i + |t|] == s[i..i + |t|];
      assert OccursAt(u, t, i);
    }
  }

  lemma {:induction false} TrimStartKeepsToken(s: string, t: string)
    requires Bracketed(t)
    ensures Contains(TrimStart(s), t) <==> Contains(s, t)
    decreases |s|
  {
    if |s| > 0 && IsSpace(s[0]) {
      TrimStartKeepsToken(s[1..], t);
      DropLeadingSpace(s, t);
    }
  }

  lemma {:induction false} TrimEndKeepsToken(s: string, t: string)
    requires Bracketed(t)
    ensures Contains(TrimEnd(s), t) <==> Contains(s, t)
    decreases |s|
  {
    if |s| > 0 && IsSpace(s[|s| - 1]) {
      TrimEndKeepsToken(s[..|s| - 1], t);
      DropTrailingSpace(s, t);
    }
  }

  /** Stripping white space never adds or removes a bracketed token. */
  lemma StripKeepsToken(s: string, t: string)
    requires Bracketed(t)
    ensures Contains(Strip(s), t) <==> Contains(s, t)
  {
    TrimStartKeepsToken(s, t);
    TrimEndKeepsToken(TrimStart(s), t);
  }

  /** The router sees exactly the tokens of the lower-cased command. */
  lemma RouterSeesTokens(userCommand: string)
    ensures Contains(Strip(Lower(userCommand)), NextToken) <==> Has(userCommand, NextToken)
    ensures Contains(Strip(Lower(userCommand)), BackToken) <==> Has(userCommand, BackToken)
    ensures Contains(Strip(Lower(userCommand)), SummarizeToken) <==> Has(userCommand, SummarizeToken)
    ensures Contains(Strip(Lower(userCommand)), EndToken) <==> Has(userCommand, EndToken)
    ensures Contains(Strip(Lower(userCommand)), ExitToken) <==> Has(userCommand, ExitToken)
  {
    var c := Lower(userCommand);
    StripKeepsToken(c, NextToken);
    StripKeepsToken(c, BackToken);
    StripKeepsToken(c, SummarizeToken);
    StripKeepsToken(c, EndToken);
    StripKeepsToken(c, ExitToken);
  }

  // ----- The router's rules, one token at a time -----

  /** `[next]` wins over every other token and moves one phase forward, stopping at the last phase. */
  lemma RouterNext(current: Node, userCommand: string)
    requires Has(userCommand, NextToken)
    ensures current.PhaseNode? ==>
      Router(current, userCommand) == Ok(Goto(PhaseNode(Phases[Min(Index(current.phase) + 1, |Phases| - 1)])))
    ensures current.Summarize? ==> Router(current, userCommand).Err?
  {
    RouterSeesTokens(userCommand);
  }

  /** `[back]`, when there is no `[next]`, moves one phase backward, stopping at the first phase. */
  lemma RouterBack(current: Node, userCommand: string)
    requires !Has(userCommand, NextToken) && Has(userCommand, BackToken)
    ensures current.PhaseNode? ==>
      Router(current, userCommand) == Ok(Goto(PhaseNode(Phases[Max(Index(current.phase) - 1, 0)])))
    ensures current.Summarize? ==> Router(current, userCommand).Err?
  {
    RouterSeesTokens(userCommand);
  }

  /** `[summarize]`, when there is no `[next]` or `[back]`, selects the summary node from any node. */
  lemma RouterSummarize(current: Node, userCommand: string)
    requires !Has(userCommand, NextToken) && !Has(userCommand, BackToken)
    requires Has(userCommand, SummarizeToken)
    ensures Router(current, userCommand) == Ok(Goto(Summarize))
  {
    RouterSeesTokens(userCommand);
  }

  /** `[end]` or `[exit]`, when no higher-priority token is present, ends the graph. */
  lemma RouterEnd(current: Node, userCommand: string)
    requires !Has(userCommand, NextToken) && !Has(userCommand, BackToken)
    requires !Has(userCommand, SummarizeToken)
    requires Has(userCommand, EndToken) || Has(userCommand, ExitToken)
    ensures Router(current, userCommand) == Ok(End)
  {
    RouterSeesTokens(userCommand);
  }

  /** A command without any token keeps the conversation on the current node. */
  lemma RouterNoToken(current: Node, userCommand: string)
    requires !Has(userCommand, NextToken) && !Has(userCommand, BackToken)
    requires !Has(userCommand, SummarizeToken)
    requires !Has(userCommand, EndToken) && !Has(userCommand, ExitToken)
    ensures Router(current, userCommand) == Ok(Goto(current))
  {
    RouterSeesTokens(userCommand);
  }

  /** The router fails exactly when a move is asked for while the current node is the summary node. */
  lemma RouterFailsOnlyOffPhase(current: Node, userCommand: string)
    ensures Router(current, userCommand).Err? <==>
      current == Summarize && (Has(userCommand, NextToken) || Has(userCommand, BackToken))
  {
    RouterSeesTokens(userCommand);
  }

  /**
   * The router's answer is itself a node the router can be asked about with
   * the same command without failing, so a command never fails on a phase the
   * router chose for it.
   */
  lemma RouterAnswerIsRoutable(current: Node, userCommand: string)
    requires Router(current, userCommand).Ok? && Router(current, userCommand).value.Goto?
    ensures Router(Router(current, userCommand).value.node, userCommand).Ok?
  {
    RouterSeesTokens(userCommand);
  }

  /** A move from a phase lands on a phase at most one position away. */
  lemma MoveIsAdjacent(p: Phase, userCommand: string)
    requires Has(userCommand, NextToken) || Has(userCommand, BackToken)
    ensures Router(PhaseNode(p), userCommand).Ok?
    ensures Router(PhaseNode(p), userCommand).value.Goto?
    ensures Router(PhaseNode(p), userCommand).value.node.PhaseNode?
    ensures -1 <= Index(Router(PhaseNode(p), userCommand).value.node.phase) - Index(p) <= 1
  {
    RouterSeesTokens(userCommand);
  }

  /** Upper-case tokens route the same as lower-case ones. */
  lemma RouterIgnoresCase(current: Node, userCommand: string)
    ensures Router(current, Lower(userCommand)) == Router(current, userCommand)
  {
    assert Lower(Lower(userCommand)) == Lower(userCommand);
  }

  // ----- Concrete cases: the two clamps and the priority of `[next]` -----

  lemma LiteralNextHasNext()
    ensures Has("[next]", NextToken)
  {
    assert Lower("[next]") == "[next]";
    assert OccursAt(Lower("[next]"), NextToken, 0);
  }

  lemma LiteralBackHasBackOnly()
    ensures Has("[back]", BackToken) && !Has("[back]", NextToken)
  {
    assert Lower("[back]") == "[back]";
    assert OccursAt(Lower("[back]"), BackToken, 0);
  }

  /** Advancing from the last phase stays on the last phase. */
  lemma NextFromLastPhaseStays()
    ensures Router(PhaseNode(DeepDiveAndTradeoffs), "[next]") == Ok(Goto(PhaseNode(DeepDiveAndTradeoffs)))
  {
    LiteralNextHasNext();
    RouterNext(PhaseNode(DeepDiveAndTradeoffs), "[next]");
  }

  /** Retreating from the first phase stays on the first phase. */
  lemma BackFromFirstPhaseStays()
    ensures Router(PhaseNode(VisionAndScoping), "[back]") == Ok(Goto(PhaseNode(VisionAndScoping)))
  {
    LiteralBackHasBackOnly();
    RouterBack(PhaseNode(VisionAndScoping), "[back]");
  }

  /** `[next] [back]` from the data-model phase goes forward: `[next]` has priority. */
  lemma NextBeatsBack()
    ensures Router(PhaseNode(DataModel), "[next] [back]") == Ok(Goto(PhaseNode(NfrAndScale)))
  {
    assert Lower("[next] [back]") == "[next] [back]";
    assert OccursAt(Lower("[next] [back]"), NextToken, 0);
    RouterNext(PhaseNode(DataModel), "[next] [back]");
  }
}
