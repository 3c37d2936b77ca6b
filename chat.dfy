/** Conversation-log helpers of internal/workflow/chat.go. */
module Chat {
  import opened Text
  import opened FileUtil

  /** `ResolveChatModel`: a non-empty override wins. */
  function ResolveChatModel(gptModel: string, override: string): (model: string)
    ensures override != "" ==> model == override
    ensures override == "" ==> model == gptModel
  {
    if override != "" then override else gptModel
  }

  /** `TrimContext`: the newest `max` messages; `max <= 0` keeps everything. */
  function TrimContext(messages: seq<Message>, max: int): (r: seq<Message>)
    ensures HasSuffix(messages, r)
    ensures |r| == if 0 < max < |messages| then max else |messages|
  {
    if max <= 0 || |messages| <= max then messages else messages[|messages| - max..]
  }

  /** Trimming ten messages to four keeps the last four in order; a limit of
      zero keeps all ten. */
  lemma TrimContextExample(ms: seq<Message>)
    requires |ms| == 10
    ensures TrimContext(ms, 4) == [ms[6], ms[7], ms[8], ms[9]]
    ensures TrimContext(ms, 0) == ms
  {
    var r := TrimContext(ms, 4);
    assert r == ms[6..];
  }

  /** One request entry, as `BuildMessages` builds it. */
  function Entry(role: string, content: string): map<string, string> {
    map["role" := role, "content" := content]
  }

  /** `BuildMessages`: an optional system entry, then every message of the
      context with its role and content, in order. */
  method BuildMessages(systemPrompt: string, context: seq<Message>) returns (msgs: seq<map<string, string>>)
    ensures |msgs| == |context| + (if systemPrompt != "" then 1 else 0)
    ensures systemPrompt != "" ==> msgs[0] == Entry("system", systemPrompt)
    ensures var off := if systemPrompt != "" then 1 else 0;
      forall i :: 0 <= i < |context| ==> msgs[off + i] == Entry(context[i].role, context[i].content)
  {
    msgs := [];
    if systemPrompt != "" {
      msgs := msgs + [Entry("system", systemPrompt)];
    }
    var off := |msgs|;
    for k := 0 to |context|
      invariant |msgs| == off + k
      invariant systemPrompt != "" ==> msgs[0] == Entry("system", systemPrompt)
      invariant forall i :: 0 <= i < k ==> msgs[off + i] == Entry(context[i].role, context[i].content)
    {
      msgs := msgs + [Entry(context[k].role, context[k].content)];
    }
  }

  /** `JoinStrings`: `strings.Join(parts, "")`. */
  function JoinStrings(parts: seq<string>): (s: string)
    ensures s == Concat(parts)
  {
    JoinEmptyIsConcat(parts);
    Join(parts, "")
  }
}
