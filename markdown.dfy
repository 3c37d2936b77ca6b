/** `MarkdownChat` of internal/workflow/markdown.go: the chat log rendered
    as the markdown text the launcher shows. */
module Markdown {
  import opened Text
  import opened FileUtil

  const UserHeading := "# \U{2299} You\n\n"
  const AssistantHeading := "\n\n# \U{229A} Assistant\n\n"
  const InterruptedNote := "[Answer Interrupted]\n\n"

  /** A user message is marked interrupted when another user message follows
      it, or when it is the last message and the caller does not ask to
      ignore that case. */
  predicate InterruptedAt(ms: seq<Message>, i: nat, ignoreLastInterrupted: bool)
    requires i < |ms|
  {
    (i + 1 < |ms| && ms[i + 1].role == "user") || (i == |ms| - 1 && !ignoreLastInterrupted)
  }

  /** What message `i` adds to the builder: an assistant message its content
      (nothing when empty), a user message the two headings around its content
      and possibly the interruption note, any other role nothing. */
  function Section(ms: seq<Message>, i: nat, ignoreLastInterrupted: bool): string
    requires i < |ms|
  {
    var m := ms[i];
    if m.role == "assistant" then
      (if m.content != "" then m.content + "\n\n" else "")
    else if m.role == "user" then
      UserHeading + m.content + AssistantHeading
      + (if InterruptedAt(ms, i, ignoreLastInterrupted) then InterruptedNote else "")
    else ""
  }

  /** The builder's contents after the first `n` messages. */
  function Transcript(ms: seq<Message>, ignoreLastInterrupted: bool, n: nat): string
    requires n <= |ms|
  {
    if n == 0 then "" else Transcript(ms, ignoreLastInterrupted, n - 1) + Section(ms, n - 1, ignoreLastInterrupted)
  }

  /** `MarkdownChat` */
  method MarkdownChat(messages: seq<Message>, ignoreLastInterrupted: bool) returns (md: string)
    ensures md == TrimSpace(Transcript(messages, ignoreLastInterrupted, |messages|))
    ensures md == [] || (!IsSpace(md[0]) && !IsSpace(md[|md| - 1]))
    ensures messages == [] ==> md == ""
  {
    var builder := "";
    for i := 0 to |messages|
      invariant builder == Transcript(messages, ignoreLastInterrupted, i)
    {
      var piece := PieceFor(messages, i, ignoreLastInterrupted);
      builder := builder + piece;
    }
    md := TrimSpace(builder);
  }

  /** Helper for `MarkdownChat`: the writes of the loop's `switch` for
      message `i`, kept apart to keep the loop's proof small. */
  method PieceFor(messages: seq<Message>, i: nat, ignoreLastInterrupted: bool) returns (piece: string)
    requires i < |messages|
    ensures piece == Section(messages, i, ignoreLastInterrupted)
  {
    var msg := messages[i];
    piece := "";
    if msg.role == "assistant" {
      if msg.content != "" {
        piece := msg.content + "\n\n";
      }
    } else if msg.role == "user" {
      piece := UserHeading + msg.content + AssistantHeading;
      var userTwice := i + 1 < |messages| && messages[i + 1].role == "user";
      var last := i == |messages| - 1;
      if userTwice || (last && !ignoreLastInterrupted) {
        piece := piece + InterruptedNote;
      }
    }
  }

  /** Appending a message that is not from the user leaves every earlier
      section as it is rendered with the last interruption ignored. */
  lemma TranscriptPrefixStable(ms: seq<Message>, m: Message, ig: bool, n: nat)
    requires m.role != "user" && n <= |ms|
    ensures Transcript(ms + [m], ig, n) == Transcript(ms, true, n)
  {
    forall i | 0 <= i < n ensures Section(ms + [m], i, ig) == Section(ms, i, true) {
      SectionStable(ms, m, ig, i);
    }
    TranscriptAgree(ms + [m], ig, ms, true, n);
  }

  /** Two logs whose first `n` sections agree have the same first `n`
      sections of transcript. */
  lemma {:induction false} TranscriptAgree(a: seq<Message>, iga: bool, b: seq<Message>, igb: bool, n: nat)
    requires n <= |a| && n <= |b|
    requires forall i :: 0 <= i < n ==> Section(a, i, iga) == Section(b, i, igb)
    ensures Transcript(a, iga, n) == Transcript(b, igb, n)
    decreases n
  {
    if n > 0 {
      TranscriptAgree(a, iga, b, igb, n - 1);
      assert Section(a, n - 1, iga) == Section(b, n - 1, igb);
    }
  }

  lemma SectionStable(ms: seq<Message>, m: Message, ig: bool, i: nat)
    requires m.role != "user" && i < |ms|
    ensures Section(ms + [m], i, ig) == Section(ms, i, true)
  {
    assert (ms + [m])[i] == ms[i];
    assert InterruptedAt(ms + [m], i, ig) <==> InterruptedAt(ms, i, true) by {
      if i + 1 < |ms| { assert (ms + [m])[i + 1] == ms[i + 1]; }
      if i + 1 == |ms| { assert (ms + [m])[i + 1] == m; }
    }
  }

  /** The in-progress view (the log rendered with the last interruption
      ignored) is a prefix of the view once an answer has been appended: the
      answer only adds its own text at the end. */
  lemma AnswerExtendsView(ms: seq<Message>, answer: string, ig: bool)
    requires answer != ""
    ensures Transcript(ms + [Message("assistant", answer)], ig, |ms| + 1)
            == Transcript(ms, true, |ms|) + answer + "\n\n"
  {
    var m := Message("assistant", answer);
    TranscriptPrefixStable(ms, m, ig, |ms|);
    assert (ms + [m])[|ms|] == m;
  }

  /** A question still waiting for its answer is rendered without the
      interruption note when the last interruption is ignored, and with it
      otherwise. */
  lemma PendingQuestion(ms: seq<Message>, q: string)
    ensures var ms' := ms + [Message("user", q)];
      && Transcript(ms', true, |ms'|) == Transcript(ms', true, |ms|) + UserHeading + q + AssistantHeading
      && Transcript(ms', false, |ms'|) == Transcript(ms', false, |ms|) + UserHeading + q + AssistantHeading + InterruptedNote
  {
    var ms' := ms + [Message("user", q)];
    LastSection(ms', true);
    LastSection(ms', false);
  }

  /** The section of a last message that comes from the user. */
  lemma LastSection(ms: seq<Message>, ig: bool)
    requires ms != [] && ms[|ms| - 1].role == "user"
    ensures var q := ms[|ms| - 1].content;
      Transcript(ms, ig, |ms|) == Transcript(ms, ig, |ms| - 1) + UserHeading + q + AssistantHeading
                                  + (if ig then "" else InterruptedNote)
  {
    var i := |ms| - 1;
    assert InterruptedAt(ms, i, ig) == !ig;
    assert Section(ms, i, ig) == UserHeading + ms[i].content + AssistantHeading + (if ig then "" else InterruptedNote);
  }
}
