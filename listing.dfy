/**
 * The title a discussion gets in the sidebar list: the first user message,
 * cut to fifty characters and followed by "...", or "New Discussion" when
 * the transcript holds no user message.
 */
module Listing {
  import opened Wrappers
  import opened Dialogue

  const Untitled: string := "New Discussion"
  const Ellipsis: string := "..."
  const TitleWidth: nat := 50

  /** The text of the earliest user entry, if there is one. */
  function FirstUserText(history: seq<Entry>): (r: Option<string>)
    ensures r.Some? <==> exists i :: 0 <= i < |history| && history[i].speaker == User
    ensures r.Some? ==> exists i :: (0 <= i < |history| && history[i].speaker == User && history[i].text == r.value
                                      && forall j :: 0 <= j < i ==> history[j].speaker != User)
  {
    if history == [] then None
    else if history[0].speaker == User then Some(history[0].text)
    else
      var rest := FirstUserText(history[1..]);
      assert forall i :: 1 <= i < |history| ==> history[i] == history[1..][i - 1];
      if rest.Some? then
        ghost var k :| 0 <= k < |history[1..]| && history[1..][k].speaker == User && history[1..][k].text == rest.value
          && forall j :: 0 <= j < k ==> history[1..][j].speaker != User;
        assert history[k + 1] == history[1..][k];
        assert forall j :: 1 <= j < k + 1 ==> history[j] == history[1..][j - 1];
        rest
      else
        rest
  }

  /** The first `TitleWidth` characters of `s`, or all of it when it is shorter. */
  function Truncate(s: string): (t: string)
    ensures |t| <= TitleWidth && t <= s
    ensures |s| <= TitleWidth ==> t == s
    ensures |s| > TitleWidth ==> |t| == TitleWidth
  {
    if |s| <= TitleWidth then s else s[..TitleWidth]
  }

  function Title(history: seq<Entry>): string
  {
    match FirstUserText(history)
    case None => Untitled
    case Some(text) => Truncate(text) + Ellipsis
  }

  /**
   * A discussion is listed as "New Discussion" exactly when no user has
   * spoken in it; otherwise its title is at most 53 characters, ends in
   * "...", and is the earliest user message cut to fifty characters and
   * followed by "...".
   */
  lemma TitleShape(history: seq<Entry>)
    ensures Title(history) == Untitled <==> forall i :: 0 <= i < |history| ==> history[i].speaker != User
    ensures FirstUserText(history).Some? ==>
      && |Title(history)| <= TitleWidth + 3
      && Title(history)[|Title(history)| - 3..] == Ellipsis
      && Title(history)[..|Title(history)| - 3] <= FirstUserText(history).value
    ensures FirstUserText(history).Some? ==>
      |Title(history)| == (if |FirstUserText(history).value| <= TitleWidth then |FirstUserText(history).value| else TitleWidth) + 3
  {
    if FirstUserText(history).Some? {
      var t := Truncate(FirstUserText(history).value);
      assert Title(history) == t + Ellipsis;
      assert (t + Ellipsis)[|t + Ellipsis| - 3..] == Ellipsis;
      assert (t + Ellipsis)[..|t + Ellipsis| - 3] == t;
      assert Untitled[|Untitled| - 3..] != Ellipsis;
    }
  }

  /** The first user entry of a transcript stays the first user entry when entries are appended. */
  lemma {:induction false} FirstUserTextKept(a: seq<Entry>, b: seq<Entry>)
    requires a <= b && FirstUserText(a).Some?
    ensures FirstUserText(b) == FirstUserText(a)
  {
    if a[0].speaker != User {
      assert a[1..] <= b[1..];
      FirstUserTextKept(a[1..], b[1..]);
    }
  }

  /**
   * Transcripts only grow by appending, so once a user has spoken the title
   * of a discussion never changes again.
   */
  lemma TitleStable(a: seq<Entry>, b: seq<Entry>)
    requires a <= b && FirstUserText(a).Some?
    ensures Title(b) == Title(a)
  {
    FirstUserTextKept(a, b);
  }
}
