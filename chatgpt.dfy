/** The `chatgpt` command of cmd/chatgpt/main.go. A foreground run
    (`runPrimary`) either starts a turn, redisplays the chat or polls the
    progress record (`respondStream`); a detached worker (`runStreamProcess`)
    streams the answer into that record. The two only meet in the files, and
    every file step is one atomic update of the store, so the model runs them
    one after the other in any interleaving.

    Each run is specified by a function from the disk before it to the disk
    after it and the reply; the methods work on a `FileStore` through the
    store operations and are proved to produce exactly that outcome. */
module ChatGpt {
  import opened Wrappers
  import opened Text
  import opened Encryption
  import opened FileUtil
  import opened Stream
  import opened Chat
  import opened Markdown
  import opened Alfred

  /** The configuration both runs read from the environment. */
  datatype Env = Env(
    apiKey: string,
    gptModel: string,
    chatModelOverride: string,
    systemPrompt: string,
    maxContext: int,
    timeoutSeconds: int,
    streamFile: string,
    pidFile: string,
    chatFile: string,
    ctx: Context,
    chatJson: ChatCodec,
    stateJson: StateCodec)

  /** The channel files live side by side under fixed, different names
      (stream.txt, pid.txt and chat.json), so none is another or another's
      temporary file. */
  predicate Distinct(env: Env) {
    && env.streamFile != "" && env.pidFile != "" && env.chatFile != ""
    && env.streamFile != env.pidFile && env.streamFile != env.chatFile && env.pidFile != env.chatFile
    && Tmp(env.streamFile) != env.chatFile && Tmp(env.streamFile) != env.pidFile
    && Tmp(env.chatFile) != env.streamFile && Tmp(env.chatFile) != env.pidFile
  }

  /** A snapshot of the store. */
  datatype Disk = Disk(files: Files, mtimes: Times)

  /** What a run leaves behind: the disk and the reply it prints. */
  datatype Outcome = Outcome(disk: Disk, resp: Response)

  /** The disk after an atomic write of `data` to `path` at time `now`. */
  function Written(d: Disk, path: string, data: Bytes, now: int): Disk {
    Disk((d.files - {Tmp(path)})[path := data], (d.mtimes - {Tmp(path)})[path := now])
  }

  /** The disk after `RemoveFiles(paths...)`. */
  function Removed(d: Disk, paths: seq<string>): Disk {
    Disk(d.files - Named(paths), d.mtimes - Named(paths))
  }

  /** `b` agrees with `a` on every path outside `except`. */
  ghost predicate SameOutside(a: Files, b: Files, except: set<string>) {
    forall p :: p !in except ==> (p in a <==> p in b) && (p in a ==> a[p] == b[p])
  }

  // ---------------------------------------------------------------- replies

  const LengthFooter := "Maximum number of tokens reached"
  const FilterFooter := "Content was omitted due to a flag from OpenAI content filters"
  const StalledFooter := "You can ask ChatGPT to continue the answer"
  const StalledNote := " [Connection Stalled]"
  const MissingKey := "OpenAI API key missing"

  /** The placeholder the poller shows on its first round. The source spells
      it with the three characters U+00E2 U+20AC U+00A6, which is how the
      UTF-8 bytes of "…" read as Windows-1252; it is kept as written. */
  const Ellipsis := "\U{00E2}\U{20AC}\U{00A6}"

  const StreamingNow := map["streaming_now" := "1"]
  const StreamingMarked := map["streaming_now" := "1", "stream_marker" := "1"]
  const Append := map["response" := "append"]
  const ReplaceLast := map["response" := "replacelast"]
  const ReplaceLastScroll := map["response" := "replacelast", "scroll" := "end"]
  const ScrollEnd := map["scroll" := "end"]

  /** `footerForFinish` */
  function FooterForFinish(reason: string): (footer: string)
    ensures reason == "length" ==> footer == LengthFooter
    ensures reason == "content_filter" ==> footer == FilterFooter
    ensures footer != "" <==> reason == "length" || reason == "content_filter"
  {
    if reason == "length" then LengthFooter
    else if reason == "content_filter" then FilterFooter
    else ""
  }

  // ------------------------------------------------------------------ time

  /** Two's-complement wrap-around of a product into Go's 64-bit `Duration`. */
  function WrapInt64(x: int): (w: int)
    ensures MinDuration <= w <= MaxDuration
    ensures MinDuration <= x <= MaxDuration ==> w == x
    ensures (w - x) % 0x1_0000_0000_0000_0000 == 0
  {
    (x - MinDuration) % 0x1_0000_0000_0000_0000 + MinDuration
  }

  const Second: int := 1_000_000_000

  /** `time.Duration(TimeoutSeconds) * time.Second`. */
  function Timeout(seconds: int): int {
    WrapInt64(seconds * Second)
  }

  /** The stall test: the record's age is known and strictly above the
      timeout. The finish reason plays no part in it. */
  predicate Stalled(age: Result<int>, timeoutSeconds: int) {
    age.Success? && age.value > Timeout(timeoutSeconds)
  }

  /** With the default timeout of 20 seconds an age of 31 seconds is a stall,
      and ages of 19 and of exactly 20 seconds are not. */
  lemma StalledExample()
    ensures Stalled(Success(31 * Second), 20)
    ensures !Stalled(Success(19 * Second), 20)
    ensures !Stalled(Success(20 * Second), 20)
    ensures !Stalled(Failure("stat stream.txt: no such file or directory"), 20)
  {
    assert Timeout(20) == 20 * Second;
  }

  /** Timeouts that fit a `Duration` are taken at face value. */
  lemma TimeoutInRange(seconds: int)
    requires 0 <= seconds <= MaxDuration / Second
    ensures Timeout(seconds) == seconds * Second
  {
  }

  // ---------------------------------------------------------------- poller

  /** The disk after a finished or stalled answer has been folded into the
      chat log `chat` (cmd/chatgpt/main.go:308-316). */
  function Folded(env: Env, d: Disk, chat: seq<Message>, content: string, now: int, nonce: Nonce): Disk {
    var d1 := if content == "" then d
              else Written(d, env.chatFile, ChatPayload(env.ctx, env.chatJson, nonce, chat + [Message("assistant", content)]), now);
    Removed(d1, [env.streamFile, env.pidFile])
  }

  /** The reply to a finished or stalled answer: a stall replaces the footer
      and marks the trimmed answer, whatever the finish reason was. */
  function FoldReply(state: StreamState, stalled: bool): (r: Response)
    ensures stalled ==> r.response == TrimSpace(state.content) + " [Connection Stalled]" && r.footer == StalledFooter
    ensures !stalled ==> r.response == state.content && r.footer == FooterForFinish(state.finishReason)
    ensures r.rerun == 0.0 && r.variables == map[] && r.behaviour == map["response" := "replacelast", "scroll" := "end"]
  {
    Response(if stalled then TrimSpace(state.content) + StalledNote else state.content,
             0.0, map[], ReplaceLastScroll,
             if stalled then StalledFooter else FooterForFinish(state.finishReason))
  }

  /** What `respondStream` does to `d` and prints. */
  function Poll(env: Env, d: Disk, marker: bool, now: int, nonce: Nonce): Outcome {
    if marker then Outcome(d, Response(Ellipsis, RerunInterval, StreamingNow, Append, ""))
    else
      match ReadStreamState(d.files, env.streamFile, env.ctx, env.stateJson)
      case Failure(e) => Outcome(d, RespondError(e))
      case Success(state) =>
        if state.error != "" then
          Outcome(Removed(d, [env.streamFile, env.pidFile]), Response(state.error, 0.0, map[], ReplaceLast, ""))
        else
          var stalled := Stalled(FileAge(d.mtimes, env.streamFile, now), env.timeoutSeconds);
          if state.finishReason == "" && !stalled then
            Outcome(d, Response(state.content, RerunInterval, StreamingNow, ReplaceLastScroll, ""))
          else
            match ReadChat(d.files, env.chatFile, env.ctx, env.chatJson)
            case Failure(e) => Outcome(d, RespondError(e))
            case Success(chat) =>
              Outcome(Folded(env, d, chat, state.content, now, nonce), FoldReply(state, stalled))
  }

  /** `respondStream` */
  method RespondStream(env: Env, fs: FileStore, marker: bool, now: int, nonce: Nonce) returns (resp: Response)
    requires fs.Valid()
    modifies fs
    ensures fs.Valid()
    ensures Outcome(Disk(fs.files, fs.mtimes), resp) == Poll(env, Disk(old(fs.files), old(fs.mtimes)), marker, now, nonce)
  {
    if marker {
      return Response(Ellipsis, RerunInterval, StreamingNow, Append, "");
    }
    var read := ReadStreamState(fs.files, env.streamFile, env.ctx, env.stateJson);
    if read.Failure? {
      return RespondError(read.error);
    }
    var state := read.value;
    if state.error != "" {
      RemoveFiles(fs, [env.streamFile, env.pidFile]);
      return Response(state.error, 0.0, map[], ReplaceLast, "");
    }
    var age := FileAge(fs.mtimes, env.streamFile, now);
    var stalled := Stalled(age, env.timeoutSeconds);
    if state.finishReason == "" && !stalled {
      return Response(state.content, RerunInterval, StreamingNow, ReplaceLastScroll, "");
    }
    var chat := ReadChat(fs.files, env.chatFile, env.ctx, env.chatJson);
    if chat.Failure? {
      return RespondError(chat.error);
    }
    if state.content != "" {
      WriteChat(fs, env.chatFile, chat.value + [Message("assistant", state.content)], env.ctx, env.chatJson, nonce, now);
    }
    RemoveFiles(fs, [env.streamFile, env.pidFile]);
    var footer := FooterForFinish(state.finishReason);
    if stalled {
      footer := StalledFooter;
    }
    var text := state.content;
    if stalled {
      text := TrimSpace(state.content) + StalledNote;
    }
    resp := Response(text, 0.0, map[], ReplaceLastScroll, footer);
  }

  /** On the marker round the poller prints the placeholder, asks to run
      again and touches no file. */
  lemma PollMarker(env: Env, d: Disk, now: int, nonce: Nonce)
    ensures Poll(env, d, true, now, nonce).disk == d
    ensures Poll(env, d, true, now, nonce).resp
      == Response(Ellipsis, RerunInterval, map["streaming_now" := "1"], map["response" := "append"], "")
  {
  }

  /** A record carrying an error: the stream and PID files go, nothing else
      changes (the chat log least of all), and the error is printed verbatim
      with no rerun. */
  lemma PollErrorRecord(env: Env, d: Disk, now: int, nonce: Nonce)
    requires Distinct(env)
    requires ReadStreamState(d.files, env.streamFile, env.ctx, env.stateJson).Success?
    requires ReadStreamState(d.files, env.streamFile, env.ctx, env.stateJson).value.error != ""
    ensures var o := Poll(env, d, false, now, nonce);
      && env.streamFile !in o.disk.files && env.pidFile !in o.disk.files
      && SameOutside(d.files, o.disk.files, {env.streamFile, env.pidFile})
      && ReadChat(o.disk.files, env.chatFile, env.ctx, env.chatJson) == ReadChat(d.files, env.chatFile, env.ctx, env.chatJson)
      && o.resp.response == ReadStreamState(d.files, env.streamFile, env.ctx, env.stateJson).value.error
      && o.resp.rerun == 0.0 && o.resp.behaviour == ReplaceLast
  {
    var state := ReadStreamState(d.files, env.streamFile, env.ctx, env.stateJson).value;
    var gone := {env.streamFile, env.pidFile};
    var o := Poll(env, d, false, now, nonce);
    assert o == Outcome(Removed(d, [env.streamFile, env.pidFile]), Response(state.error, 0.0, map[], ReplaceLast, ""));
    assert Named([env.streamFile, env.pidFile]) == gone;
    assert o.disk.files == d.files - gone;
    ReadChatIgnores(d.files, env.chatFile, gone, env.ctx, env.chatJson);
  }

  /** A record still in progress and not stalled: its content is shown, the
      poller asks to run again, and no file changes. */
  lemma PollInProgress(env: Env, d: Disk, now: int, nonce: Nonce)
    requires ReadStreamState(d.files, env.streamFile, env.ctx, env.stateJson).Success?
    requires !Terminal(ReadStreamState(d.files, env.streamFile, env.ctx, env.stateJson).value)
    requires !Stalled(FileAge(d.mtimes, env.streamFile, now), env.timeoutSeconds)
    ensures var o := Poll(env, d, false, now, nonce);
      && o.disk == d
      && o.resp.response == ReadStreamState(d.files, env.streamFile, env.ctx, env.stateJson).value.content
      && o.resp.rerun == RerunInterval && o.resp.variables == map["streaming_now" := "1"]
  {
  }

  /** Removing other files does not change what the chat log reads as. */
  lemma ReadChatIgnores(files: Files, path: string, gone: set<string>, ctx: Context, json: ChatCodec)
    requires path !in gone
    ensures ReadChat(files - gone, path, ctx, json) == ReadChat(files, path, ctx, json)
  {
    assert (path in files - gone) == (path in files);
    if path in files {
      assert (files - gone)[path] == files[path];
    }
  }

  /** Folding appends the answer to the log when it is not empty. */
  lemma FoldedChat(env: Env, d: Disk, chat: seq<Message>, content: string, now: int, nonce: Nonce)
    requires Lawful(env.ctx.lib) && ChatCodecLawful(env.chatJson) && Distinct(env)
    requires ReadChat(d.files, env.chatFile, env.ctx, env.chatJson) == Success(chat)
    ensures ReadChat(Folded(env, d, chat, content, now, nonce).files, env.chatFile, env.ctx, env.chatJson)
      == Success(if content == "" then chat else chat + [Message("assistant", content)])
  {
    var gone := {env.streamFile, env.pidFile};
    assert Named([env.streamFile, env.pidFile]) == gone;
    if content != "" {
      var msgs := chat + [Message("assistant", content)];
      var d1 := Written(d, env.chatFile, ChatPayload(env.ctx, env.chatJson, nonce, msgs), now);
      ReadChatAfterWrite(d.files - {Tmp(env.chatFile)}, env.chatFile, env.ctx, env.chatJson, nonce, msgs);
      ReadChatIgnores(d1.files, env.chatFile, gone, env.ctx, env.chatJson);
    } else {
      ReadChatIgnores(d.files, env.chatFile, gone, env.ctx, env.chatJson);
    }
  }

  /** Folding removes the stream and PID files and touches nothing but the
      chat log and its temporary file. */
  lemma FoldedFiles(env: Env, d: Disk, chat: seq<Message>, content: string, now: int, nonce: Nonce)
    requires Distinct(env)
    ensures var f := Folded(env, d, chat, content, now, nonce).files;
      && env.streamFile !in f && env.pidFile !in f
      && SameOutside(d.files, f, {env.streamFile, env.pidFile, env.chatFile, Tmp(env.chatFile)})
  {
    assert Named([env.streamFile, env.pidFile]) == {env.streamFile, env.pidFile};
  }

  /** A finished or stalled record whose chat log reads is folded; the stall
      test is made whatever the finish reason. */
  lemma PollFold(env: Env, d: Disk, now: int, nonce: Nonce, chat: seq<Message>)
    requires ReadStreamState(d.files, env.streamFile, env.ctx, env.stateJson).Success?
    requires var state := ReadStreamState(d.files, env.streamFile, env.ctx, env.stateJson).value;
      state.error == "" && (state.finishReason != "" || Stalled(FileAge(d.mtimes, env.streamFile, now), env.timeoutSeconds))
    requires ReadChat(d.files, env.chatFile, env.ctx, env.chatJson) == Success(chat)
    ensures var state := ReadStreamState(d.files, env.streamFile, env.ctx, env.stateJson).value;
      Poll(env, d, false, now, nonce)
        == Outcome(Folded(env, d, chat, state.content, now, nonce),
                   FoldReply(state, Stalled(FileAge(d.mtimes, env.streamFile, now), env.timeoutSeconds)))
  {
  }

  // ---------------------------------------------------------------- worker

  /** One message of the completion request. */
  datatype Param = SystemMessage(text: string) | UserMessage(text: string) | AssistantMessage(text: string)

  /** The request form of the context: user and assistant messages in order,
      any other role dropped. */
  function Converted(ms: seq<Message>): (r: seq<Param>)
    ensures |r| <= |ms|
    ensures forall i :: 0 <= i < |r| ==> !r[i].SystemMessage?
    decreases |ms|
  {
    if ms == [] then []
    else
      var m := ms[|ms| - 1];
      Converted(ms[..|ms| - 1])
      + (if m.role == "user" then [UserMessage(m.content)]
         else if m.role == "assistant" then [AssistantMessage(m.content)]
         else [])
  }

  /** A context of user and assistant messages only is sent whole, each
      message with its own role and content. */
  lemma {:induction false} ConvertedWhole(ms: seq<Message>)
    requires forall i :: 0 <= i < |ms| ==> ms[i].role == "user" || ms[i].role == "assistant"
    ensures |Converted(ms)| == |ms|
    ensures forall i :: 0 <= i < |ms| ==> Converted(ms)[i].text == ms[i].content
    ensures forall i :: 0 <= i < |ms| ==> (Converted(ms)[i].UserMessage? <==> ms[i].role == "user")
    decreases |ms|
  {
    if ms != [] {
      var init := ms[..|ms| - 1];
      assert forall i :: 0 <= i < |init| ==> init[i] == ms[i];
      ConvertedWhole(init);
    }
  }

  /** The messages sent: the system prompt first when there is one. */
  function RequestOf(systemPrompt: string, context: seq<Message>): seq<Param> {
    (if systemPrompt != "" then [SystemMessage(systemPrompt)] else []) + Converted(context)
  }

  /** The request assembly of cmd/chatgpt/main.go:209-220. */
  method RequestMessages(systemPrompt: string, trimmed: seq<Message>) returns (messages: seq<Param>)
    ensures messages == RequestOf(systemPrompt, trimmed)
    ensures |messages| <= |trimmed| + 1
    ensures systemPrompt != "" <==> (messages != [] && messages[0] == SystemMessage(systemPrompt))
  {
    messages := [];
    if systemPrompt != "" {
      messages := messages + [SystemMessage(systemPrompt)];
    }
    ghost var head := messages;
    for i := 0 to |trimmed|
      invariant messages == head + Converted(trimmed[..i])
    {
      var m := trimmed[i];
      assert trimmed[..i + 1][..i] == trimmed[..i];
      if m.role == "user" {
        messages := messages + [UserMessage(m.content)];
      } else if m.role == "assistant" {
        messages := messages + [AssistantMessage(m.content)];
      }
    }
    assert trimmed[..|trimmed|] == trimmed;
  }

  /** How the completion stream ends: with the accumulated finish reason
      ("" when the stream gave no choice), or with the stream's error. */
  datatype StreamEnd = Finished(reason: string) | Broken(err: string)

  /** The non-empty deltas of the chunks, in order. A chunk is the content
      delta of its first choice, or `None` when it has no choice. */
  function Deltas(chunks: seq<Option<string>>): (ds: seq<string>)
    ensures forall i :: 0 <= i < |ds| ==> ds[i] != ""
    decreases |chunks|
  {
    if chunks == [] then []
    else
      var c := chunks[|chunks| - 1];
      Deltas(chunks[..|chunks| - 1]) + (if c.Some? && c.value != "" then [c.value] else [])
  }

  /** The records published while streaming: after each delta, the text so
      far. */
  function Progress(ds: seq<string>): (r: seq<StreamState>)
    ensures |r| == |ds|
    decreases |ds|
  {
    if ds == [] then []
    else Progress(ds[..|ds| - 1]) + [StreamState(Concat(ds), "", "")]
  }

  /** Each published record holds the text of the deltas so far. */
  lemma {:induction false} ProgressContents(ds: seq<string>)
    ensures forall i :: 0 <= i < |ds| ==> Progress(ds)[i] == StreamState(Concat(ds[..i + 1]), "", "")
    decreases |ds|
  {
    if ds != [] {
      var init := ds[..|ds| - 1];
      ProgressContents(init);
      forall i | 0 <= i < |init| ensures Progress(ds)[i] == StreamState(Concat(ds[..i + 1]), "", "") {
        assert init[..i + 1] == ds[..i + 1];
      }
      assert ds[..|ds|] == ds;
    }
  }

  /** The published contents only grow: each is a prefix of every later one,
      strictly shorter, and none is final. */
  lemma ProgressMonotone(ds: seq<string>, i: nat, j: nat)
    requires forall k :: 0 <= k < |ds| ==> ds[k] != ""
    requires i < j < |ds|
    ensures HasPrefix(Progress(ds)[j].content, Progress(ds)[i].content)
    ensures |Progress(ds)[i].content| < |Progress(ds)[j].content|
    ensures !Terminal(Progress(ds)[i]) && !Terminal(Progress(ds)[j])
  {
    ProgressContents(ds);
    var a := ds[..i + 1];
    var b := ds[..j + 1];
    assert b == a + ds[i + 1..j + 1];
    ConcatAppend(a, ds[i + 1..j + 1]);
    var rest := ds[i + 1..j + 1];
    assert rest[0] == ds[i + 1] && rest[0] != "";
    assert Concat(rest) == rest[0] + Concat(rest[1..]);
  }

  /** The error `runChatStream` returns, given the client error, the chat log
      as read and how the stream ended. */
  function ChatStreamError(env: Env, clientErr: Option<string>, chat: Result<seq<Message>>, end: StreamEnd): Option<string> {
    if clientErr.Some? then clientErr
    else if chat.Failure? then Some(chat.error)
    else if ResolveChatModel(env.gptModel, env.chatModelOverride) == "" then Some("gpt_model not configured")
    else if end.Broken? then Some(end.err)
    else None
  }

  /** The records `runChatStream` writes, in order: the reset, then (once the
      log reads and a model is set) one per non-empty delta, then the final
      record with the finish reason or the error. */
  function ChatStreamWrites(env: Env, clientErr: Option<string>, chat: Result<seq<Message>>,
                            chunks: seq<Option<string>>, end: StreamEnd): seq<StreamState> {
    if clientErr.Some? then []
    else if chat.Failure? || ResolveChatModel(env.gptModel, env.chatModelOverride) == "" then [Zero]
    else
      [Zero] + Progress(Deltas(chunks)) + [Final(Concat(Deltas(chunks)), end)]
  }

  /** The last record of a stream that was opened: the whole text with the
      finish reason, or with the error that broke the stream. */
  function Final(text: string, end: StreamEnd): StreamState {
    match end
    case Finished(r) => StreamState(text, r, "")
    case Broken(e) => StreamState(text, "", e)
  }

  /** The disk after `writes` went to the stream file in order, the k-th with
      nonce `rand(k)` at time `clock(k)`: only the last one is left. */
  function Flushed(env: Env, d: Disk, writes: seq<StreamState>, rand: nat -> Nonce, clock: nat -> int): Disk {
    if writes == [] then d
    else
      var k := |writes| - 1;
      Written(d, env.streamFile, StatePayload(env.ctx, env.stateJson, rand(k), writes[k]), clock(k))
  }

  /** A second write of the same file replaces the first. */
  lemma WrittenTwice(d: Disk, path: string, a: Bytes, t: int, b: Bytes, u: int)
    ensures Written(Written(d, path, a, t), path, b, u) == Written(d, path, b, u)
  {
    var tmp := Tmp(path);
    var d1 := Written(d, path, a, t);
    assert d1.files - {tmp} == (d.files - {tmp})[path := a];
    assert d1.mtimes - {tmp} == (d.mtimes - {tmp})[path := t];
    assert (d1.files - {tmp})[path := b] == (d.files - {tmp})[path := b];
    assert (d1.mtimes - {tmp})[path := u] == (d.mtimes - {tmp})[path := u];
  }

  lemma FlushedSnoc(env: Env, d: Disk, writes: seq<StreamState>, s: StreamState, rand: nat -> Nonce, clock: nat -> int)
    ensures Flushed(env, d, writes + [s], rand, clock)
      == Written(Flushed(env, d, writes, rand, clock), env.streamFile,
                 StatePayload(env.ctx, env.stateJson, rand(|writes|), s), clock(|writes|))
  {
    var k := |writes|;
    var w := writes + [s];
    assert w[|w| - 1] == s && |w| - 1 == k;
    var payload := StatePayload(env.ctx, env.stateJson, rand(k), s);
    if writes != [] {
      var j := k - 1;
      WrittenTwice(d, env.streamFile, StatePayload(env.ctx, env.stateJson, rand(j), writes[j]), clock(j), payload, clock(k));
    }
  }

  /** One more record written to the stream file: the `k`-th write. */
  method Publish(env: Env, fs: FileStore, record: StreamState, k: nat, rand: nat -> Nonce, clock: nat -> int,
                 ghost d0: Disk, ghost writes: seq<StreamState>)
    returns (ghost writes': seq<StreamState>)
    requires fs.Valid() && k == |writes|
    requires Disk(fs.files, fs.mtimes) == Flushed(env, d0, writes, rand, clock)
    modifies fs
    ensures fs.Valid() && writes' == writes + [record]
    ensures Disk(fs.files, fs.mtimes) == Flushed(env, d0, writes', rand, clock)
  {
    FlushedSnoc(env, d0, writes, record, rand, clock);
    WriteStreamState(fs, env.streamFile, record, env.ctx, env.stateJson, rand(k), clock(k));
    writes' := writes + [record];
  }

  lemma DeltasStep(chunks: seq<Option<string>>, i: nat)
    requires i < |chunks|
    ensures Deltas(chunks[..i + 1])
      == Deltas(chunks[..i]) + (if chunks[i].Some? && chunks[i].value != "" then [chunks[i].value] else [])
  {
    assert chunks[..i + 1][..i] == chunks[..i];
  }

  lemma ProgressStep(ds: seq<string>, v: string)
    ensures Concat(ds + [v]) == Concat(ds) + v
    ensures Progress(ds + [v]) == Progress(ds) + [StreamState(Concat(ds) + v, "", "")]
    ensures [Zero] + Progress(ds + [v]) == [Zero] + Progress(ds) + [StreamState(Concat(ds) + v, "", "")]
  {
    ConcatAppend(ds, [v]);
    assert Concat([v]) == v + Concat([]);
    assert (ds + [v])[..|ds|] == ds;
  }

  /** The streaming loop of `runChatStream` (cmd/chatgpt/main.go:236-246):
      after each non-empty delta the text so far is written. It starts from
      the disk `d0` plus the reset record. */
  method PublishDeltas(env: Env, fs: FileStore, chunks: seq<Option<string>>, rand: nat -> Nonce, clock: nat -> int,
                       ghost d0: Disk)
    returns (builder: string, ghost writes: seq<StreamState>)
    requires fs.Valid()
    requires Disk(fs.files, fs.mtimes) == Flushed(env, d0, [Zero], rand, clock)
    modifies fs
    ensures fs.Valid()
    ensures builder == Concat(Deltas(chunks))
    ensures writes == [Zero] + Progress(Deltas(chunks))
    ensures Disk(fs.files, fs.mtimes) == Flushed(env, d0, writes, rand, clock)
  {
    builder := "";
    writes := [Zero];
    ghost var ds: seq<string> := [];
    var k := 1;
    for i := 0 to |chunks|
      invariant fs.Valid()
      invariant ds == Deltas(chunks[..i])
      invariant k == |writes| && builder == Concat(ds)
      invariant writes == [Zero] + Progress(ds)
      invariant Disk(fs.files, fs.mtimes) == Flushed(env, d0, writes, rand, clock)
    {
      var c := chunks[i];
      DeltasStep(chunks, i);
      if c.Some? && c.value != "" {
        ProgressStep(ds, c.value);
        builder := builder + c.value;
        writes := Publish(env, fs, StreamState(builder, "", ""), k, rand, clock, d0, writes);
        ds := ds + [c.value];
        k := k + 1;
      } else {
        assert ds + [] == ds;
      }
    }
    assert chunks[..|chunks|] == chunks;
  }

  method RunChatStream(env: Env, fs: FileStore, clientErr: Option<string>, chunks: seq<Option<string>>, end: StreamEnd,
                       rand: nat -> Nonce, clock: nat -> int)
    returns (err: Option<string>, request: Option<(string, seq<Param>)>, count: nat, ghost writes: seq<StreamState>)
    requires fs.Valid() && Distinct(env)
    modifies fs
    ensures fs.Valid()
    ensures var chat := ReadChat(old(fs.files), env.chatFile, env.ctx, env.chatJson);
      && err == ChatStreamError(env, clientErr, chat, end)
      && writes == ChatStreamWrites(env, clientErr, chat, chunks, end) && count == |writes|
      && Disk(fs.files, fs.mtimes) == Flushed(env, Disk(old(fs.files), old(fs.mtimes)), writes, rand, clock)
      && (request.Some? <==> clientErr.None? && chat.Success? && ResolveChatModel(env.gptModel, env.chatModelOverride) != "")
      && (request.Some? ==> request.value == (ResolveChatModel(env.gptModel, env.chatModelOverride),
                                              RequestOf(env.systemPrompt, TrimContext(chat.value, env.maxContext))))
  {
    ghost var d0 := Disk(fs.files, fs.mtimes);
    ghost var chat0 := ReadChat(fs.files, env.chatFile, env.ctx, env.chatJson);
    writes := [];
    request := None;
    if clientErr.Some? {
      return clientErr, None, 0, writes;
    }
    writes := Publish(env, fs, Zero, 0, rand, clock, d0, writes);
    ReadChatIgnores(d0.files, env.chatFile, {Tmp(env.streamFile)}, env.ctx, env.chatJson);
    assert ReadChat(fs.files, env.chatFile, env.ctx, env.chatJson) == chat0;
    var chat := ReadChat(fs.files, env.chatFile, env.ctx, env.chatJson);
    if chat.Failure? {
      return Some(chat.error), None, 1, writes;
    }
    var trimmed := TrimContext(chat.value, env.maxContext);
    var messages := RequestMessages(env.systemPrompt, trimmed);
    var model := ResolveChatModel(env.gptModel, env.chatModelOverride);
    if model == "" {
      return Some("gpt_model not configured"), None, 1, writes;
    }
    request := Some((model, messages));
    var builder;
    builder, writes := PublishDeltas(env, fs, chunks, rand, clock, d0);
    var k := 1 + |Deltas(chunks)|;
    writes := Publish(env, fs, Final(builder, end), k, rand, clock, d0, writes);
    err := if end.Broken? then Some(end.err) else None;
    count := k + 1;
  }

  const MissingKeyRecord := StreamState("", "", "Missing OpenAI API key")

  /** The records `runStreamProcess` writes: without a key only the error
      record; otherwise those of `runChatStream`, followed, when it fails, by
      a record holding only its error. */
  function ProcessWrites(env: Env, clientErr: Option<string>, chat: Result<seq<Message>>,
                         chunks: seq<Option<string>>, end: StreamEnd): seq<StreamState> {
    if env.apiKey == "" then [MissingKeyRecord]
    else
      var w := ChatStreamWrites(env, clientErr, chat, chunks, end);
      match ChatStreamError(env, clientErr, chat, end)
      case Some(e) => w + [StreamState("", "", e)]
      case None => w
  }

  /** `runStreamProcess` once the environment is loaded. */
  method RunStreamProcess(env: Env, fs: FileStore, clientErr: Option<string>, chunks: seq<Option<string>>, end: StreamEnd,
                          rand: nat -> Nonce, clock: nat -> int)
    returns (err: Option<string>, ghost writes: seq<StreamState>)
    requires fs.Valid() && Distinct(env)
    modifies fs
    ensures fs.Valid()
    ensures var chat := ReadChat(old(fs.files), env.chatFile, env.ctx, env.chatJson);
      && err == (if env.apiKey == "" then None else ChatStreamError(env, clientErr, chat, end))
      && writes == ProcessWrites(env, clientErr, chat, chunks, end)
      && Disk(fs.files, fs.mtimes) == Flushed(env, Disk(old(fs.files), old(fs.mtimes)), writes, rand, clock)
  {
    ghost var d0 := Disk(fs.files, fs.mtimes);
    ghost var chat := ReadChat(fs.files, env.chatFile, env.ctx, env.chatJson);
    if env.apiKey == "" {
      writes := Publish(env, fs, MissingKeyRecord, 0, rand, clock, d0, []);
      return None, writes;
    }
    var request, count;
    ghost var streamed;
    err, request, count, streamed := RunChatStream(env, fs, clientErr, chunks, end, rand, clock);
    assert streamed == ChatStreamWrites(env, clientErr, chat, chunks, end);
    assert err == ChatStreamError(env, clientErr, chat, end);
    writes := streamed;
    if err.Some? {
      writes := Publish(env, fs, StreamState("", "", err.value), count, rand, clock, d0, streamed);
    }
  }

  /** After the worker the stream file holds its last record. */
  lemma FlushedReads(env: Env, d: Disk, writes: seq<StreamState>, rand: nat -> Nonce, clock: nat -> int)
    requires Lawful(env.ctx.lib) && StateCodecLawful(env.stateJson) && writes != []
    ensures ReadStreamState(Flushed(env, d, writes, rand, clock).files, env.streamFile, env.ctx, env.stateJson)
      == Success(writes[|writes| - 1])
  {
    var k := |writes| - 1;
    ReadStateAfterWrite(d.files - {Tmp(env.streamFile)}, env.streamFile, env.ctx, env.stateJson, rand(k), writes[k]);
  }

  /** With a key and a client, the first record written is the empty one,
      before the chat log is read. */
  lemma WorkerResetsFirst(env: Env, chat: Result<seq<Message>>, chunks: seq<Option<string>>, end: StreamEnd)
    requires env.apiKey != ""
    ensures var w := ProcessWrites(env, None, chat, chunks, end);
      w != [] && w[0] == Zero && !Terminal(w[0]) && w[0].content == ""
  {
  }

  /** A stream that ends well: the records' contents only grow, every record
      before the last is in progress, and the last holds the whole text and
      the finish reason. */
  lemma WorkerSucceeds(env: Env, chat: Result<seq<Message>>, chunks: seq<Option<string>>, end: StreamEnd)
    requires env.apiKey != "" && ChatStreamError(env, None, chat, end).None?
    ensures var w := ProcessWrites(env, None, chat, chunks, end);
      && |w| == |Deltas(chunks)| + 2
      && w[|w| - 1] == StreamState(Concat(Deltas(chunks)), end.reason, "")
      && (forall i :: 0 <= i < |w| - 1 ==> !Terminal(w[i]))
      && (forall i, j :: 0 <= i < j < |w| ==> HasPrefix(w[j].content, w[i].content))
  {
    var ds := Deltas(chunks);
    assert ProcessWrites(env, None, chat, chunks, end) == [Zero] + Progress(ds) + [StreamState(Concat(ds), end.reason, "")];
    PublishedGrows(ds, end.reason);
  }

  /** The reset, one record per delta and a final record with the whole
      text: only the last may be terminal, and each text extends the ones
      before it. */
  lemma PublishedGrows(ds: seq<string>, reason: string)
    requires forall k :: 0 <= k < |ds| ==> ds[k] != ""
    ensures var w := [Zero] + Progress(ds) + [StreamState(Concat(ds), reason, "")];
      && |w| == |ds| + 2
      && (forall i :: 0 <= i < |w| - 1 ==> !Terminal(w[i]))
      && (forall i, j :: 0 <= i < j < |w| ==> HasPrefix(w[j].content, w[i].content))
  {
    var p := Progress(ds);
    var w := [Zero] + p + [StreamState(Concat(ds), reason, "")];
    forall i | 0 <= i < |w| - 1 ensures !Terminal(w[i]) {
      if i > 0 {
        assert w[i] == p[i - 1];
        ProgressAt(ds, i - 1);
      }
    }
    forall i, j | 0 <= i < j < |w| ensures HasPrefix(w[j].content, w[i].content) {
      if i == 0 {
        assert w[i].content == [];
      } else if j < |w| - 1 {
        assert w[i] == p[i - 1] && w[j] == p[j - 1];
        ProgressMonotone(ds, i - 1, j - 1);
      } else {
        assert w[i] == p[i - 1] && w[j].content == Concat(ds);
        ProgressAt(ds, i - 1);
        ConcatPrefix(ds, i);
      }
    }
  }

  /** The `k`-th progress record holds the first `k + 1` deltas. */
  lemma ProgressAt(ds: seq<string>, k: nat)
    requires k < |ds|
    ensures Progress(ds)[k] == StreamState(Concat(ds[..k + 1]), "", "")
  {
    ProgressContents(ds);
  }

  /** The text of the first `n` deltas begins the text of all of them. */
  lemma ConcatPrefix(ds: seq<string>, n: nat)
    requires n <= |ds|
    ensures HasPrefix(Concat(ds), Concat(ds[..n]))
  {
    assert ds == ds[..n] + ds[n..];
    ConcatAppend(ds[..n], ds[n..]);
  }


  /** A run that fails after starting leaves a record with the error and no
      content: the record `runChatStream` wrote with the partial text and the
      stream error is overwritten (the poller prints only the error). */
  lemma WorkerFails(env: Env, clientErr: Option<string>, chat: Result<seq<Message>>, chunks: seq<Option<string>>, end: StreamEnd)
    requires env.apiKey != "" && ChatStreamError(env, clientErr, chat, end).Some?
    ensures var w := ProcessWrites(env, clientErr, chat, chunks, end);
      && w[|w| - 1] == StreamState("", "", ChatStreamError(env, clientErr, chat, end).value)
      && w[|w| - 1].content == ""
  {
  }

  /** Without a key the only record written says so. */
  lemma WorkerWithoutKey(env: Env, clientErr: Option<string>, chat: Result<seq<Message>>, chunks: seq<Option<string>>, end: StreamEnd)
    requires env.apiKey == ""
    ensures ProcessWrites(env, clientErr, chat, chunks, end) == [StreamState("", "", "Missing OpenAI API key")]
  {
  }

  // --------------------------------------------------------------- primary

  /** The rendered chat, as `MarkdownChat` returns it. */
  function View(ms: seq<Message>, ignoreLastInterrupted: bool): string {
    TrimSpace(Transcript(ms, ignoreLastInterrupted, |ms|))
  }

  /** `[]byte(fmt.Sprintf("%d", pid))` */
  function DecimalBytes(n: nat): (b: Bytes)
    ensures |b| == |Digits(n)|
  {
    seq(|Digits(n)|, i requires 0 <= i < |Digits(n)| => DigitByte(Digits(n)[i]))
  }

  function DigitByte(c: char): byte
    requires IsDigit(c)
  {
    (c as int) as byte
  }

  /** The bytes read back as ASCII text. */
  function AsciiText(b: Bytes): (t: string)
    ensures |t| == |b|
    ensures forall i :: 0 <= i < |b| ==> t[i] as int == b[i] as int
  {
    seq(|b|, i requires 0 <= i < |b| => (b[i] as int) as char)
  }

  /** The PID file holds the process id in decimal: read back as text and
      parsed, it gives the id. */
  lemma PidFileRoundTrip(pid: nat)
    ensures AsciiText(DecimalBytes(pid)) == Digits(pid)
    ensures ParseDigits(AsciiText(DecimalBytes(pid))) == pid
  {
    var t := AsciiText(DecimalBytes(pid));
    assert forall i :: 0 <= i < |t| ==> t[i] == Digits(pid)[i];
    ParseDigitsOfDigits(pid);
  }

  /** The disk after `EnsureChatFile`. */
  function Ensured(env: Env, d: Disk, now: int, nonce0: Nonce): Disk {
    if env.chatFile in d.files then d
    else Written(d, env.chatFile, ChatPayload(env.ctx, env.chatJson, nonce0, []), now)
  }

  /** The reply when a stream file lingers: start polling with the marker
      round, showing the log when it reads. */
  function Resume(env: Env, d0: Disk): Response {
    match ReadChat(d0.files, env.chatFile, env.ctx, env.chatJson)
    case Success(chat) => Response(View(chat, true), RerunInterval, StreamingMarked, ScrollEnd, "")
    case Failure(_) => Response("", RerunInterval, StreamingMarked, map[], "")
  }

  /** A new turn from the log `chat`: append the query, create the stream
      file, then record the worker's process id, or report the spawn error. */
  function NewTurn(env: Env, d0: Disk, chat: seq<Message>, query: string, now: int, nonce1: Nonce,
                   spawn: Result<nat>): Outcome {
    var chat1 := chat + [Message("user", query)];
    var d1 := Written(d0, env.chatFile, ChatPayload(env.ctx, env.chatJson, nonce1, chat1), now);
    var d2 := if env.streamFile in d1.files then d1
              else Disk(d1.files[env.streamFile := []], d1.mtimes[env.streamFile := now]);
    match spawn
    case Failure(e) => Outcome(d2, RespondError(e))
    case Success(pid) =>
      Outcome(Disk(d2.files[env.pidFile := DecimalBytes(pid)], d2.mtimes[env.pidFile := now]),
              Response(View(chat1, true), RerunInterval, StreamingMarked, map[], ""))
  }

  /** What `runPrimary` does to `d` and prints, once the environment is
      loaded. `spawn` is the outcome of starting the worker: its process id
      or the error; the PID file is written at `now`. */
  function Primary(env: Env, d: Disk, typedQuery: string, streamingNow: bool, streamMarker: bool,
                   now: int, nonce0: Nonce, nonce1: Nonce, spawn: Result<nat>): Outcome {
    if env.apiKey == "" then Outcome(d, RespondError(MissingKey))
    else
      var d0 := Ensured(env, d, now, nonce0);
      if streamingNow then Poll(env, d0, streamMarker, now, nonce1)
      else if StreamFileExists(d0.files, env.streamFile) then Outcome(d0, Resume(env, d0))
      else
        match ReadChat(d0.files, env.chatFile, env.ctx, env.chatJson)
        case Failure(e) => Outcome(d0, RespondError(e))
        case Success(chat) =>
          if typedQuery == "" then Outcome(d0, Response(View(chat, false), 0.0, map[], ScrollEnd, ""))
          else NewTurn(env, d0, chat, typedQuery, now, nonce1, spawn)
  }

  /** The reply `runPrimary` prints when a stream file lingers
      (cmd/chatgpt/main.go:95-107). */
  method ResumeReply(env: Env, fs: FileStore) returns (resp: Response)
    ensures resp == Resume(env, Disk(fs.files, fs.mtimes))
  {
    resp := Response("", RerunInterval, StreamingMarked, map[], "");
    var chat := ReadChat(fs.files, env.chatFile, env.ctx, env.chatJson);
    if chat.Success? {
      var md := MarkdownChat(chat.value, true);
      resp := resp.(response := md, behaviour := ScrollEnd);
    }
  }

  /** The new-turn steps of `runPrimary` (cmd/chatgpt/main.go:123-145). */
  method StartTurn(env: Env, fs: FileStore, chat: seq<Message>, query: string, now: int, nonce1: Nonce,
                   spawn: Result<nat>)
    returns (resp: Response)
    requires fs.Valid()
    modifies fs
    ensures fs.Valid()
    ensures Outcome(Disk(fs.files, fs.mtimes), resp)
      == NewTurn(env, Disk(old(fs.files), old(fs.mtimes)), chat, query, now, nonce1, spawn)
  {
    var chat1 := chat + [Message("user", query)];
    WriteChat(fs, env.chatFile, chat1, env.ctx, env.chatJson, nonce1, now);
    Touch(fs, env.streamFile, now);
    if spawn.Failure? {
      return RespondError(spawn.error);
    }
    fs.WriteFile(env.pidFile, DecimalBytes(spawn.value), now);
    var md := MarkdownChat(chat1, true);
    resp := Response(md, RerunInterval, StreamingMarked, map[], "");
  }

  /** `runPrimary` */
  method RunPrimary(env: Env, fs: FileStore, typedQuery: string, streamingNow: bool, streamMarker: bool,
                    now: int, nonce0: Nonce, nonce1: Nonce, spawn: Result<nat>)
    returns (resp: Response)
    requires fs.Valid()
    modifies fs
    ensures fs.Valid()
    ensures Outcome(Disk(fs.files, fs.mtimes), resp)
      == Primary(env, Disk(old(fs.files), old(fs.mtimes)), typedQuery, streamingNow, streamMarker, now, nonce0, nonce1, spawn)
  {
    if env.apiKey == "" {
      return RespondError(MissingKey);
    }
    EnsureChatFile(fs, env.chatFile, env.ctx, env.chatJson, nonce0, now);
    ghost var d0 := Disk(fs.files, fs.mtimes);
    assert d0 == Ensured(env, Disk(old(fs.files), old(fs.mtimes)), now, nonce0);
    if streamingNow {
      resp := RespondStream(env, fs, streamMarker, now, nonce1);
      return;
    }
    if StreamFileExists(fs.files, env.streamFile) {
      resp := ResumeReply(env, fs);
      return;
    }
    var chat := ReadChat(fs.files, env.chatFile, env.ctx, env.chatJson);
    if chat.Failure? {
      return RespondError(chat.error);
    }
    if typedQuery == "" {
      var md := MarkdownChat(chat.value, false);
      return Response(md, 0.0, map[], ScrollEnd, "");
    }
    resp := StartTurn(env, fs, chat.value, typedQuery, now, nonce1, spawn);
  }

  /** Writing one file leaves what another file's chat log reads as. */
  lemma ReadChatOther(files: Files, path: string, other: string, data: Bytes, ctx: Context, json: ChatCodec)
    requires other != path
    ensures ReadChat(files[other := data], path, ctx, json) == ReadChat(files, path, ctx, json)
  {
    assert (path in files[other := data]) == (path in files);
    if path in files {
      assert files[other := data][path] == files[path];
    }
  }

  /** The worker's writes touch only the stream file: the chat log reads the same. */
  lemma FlushedKeepsChat(env: Env, d: Disk, writes: seq<StreamState>, rand: nat -> Nonce, clock: nat -> int)
    requires Distinct(env)
    ensures ReadChat(Flushed(env, d, writes, rand, clock).files, env.chatFile, env.ctx, env.chatJson)
      == ReadChat(d.files, env.chatFile, env.ctx, env.chatJson)
  {
    if writes != [] {
      var k := |writes| - 1;
      ReadChatIgnores(d.files, env.chatFile, {Tmp(env.streamFile)}, env.ctx, env.chatJson);
      ReadChatOther(d.files - {Tmp(env.streamFile)}, env.chatFile, env.streamFile,
                    StatePayload(env.ctx, env.stateJson, rand(k), writes[k]), env.ctx, env.chatJson);
    }
  }

  /** A turn end to end: a worker whose stream finished with a reason,
      followed by a poll, leaves the chat log with the whole answer appended,
      removes the stream and PID files and shows the answer with its footer. */
  lemma WorkerThenPoll(env: Env, d: Disk, chat: seq<Message>, chunks: seq<Option<string>>, reason: string,
                       rand: nat -> Nonce, clock: nat -> int, now: int, nonce: Nonce)
    requires Lawful(env.ctx.lib) && ChatCodecLawful(env.chatJson) && StateCodecLawful(env.stateJson) && Distinct(env)
    requires env.apiKey != "" && ResolveChatModel(env.gptModel, env.chatModelOverride) != "" && reason != ""
    requires ReadChat(d.files, env.chatFile, env.ctx, env.chatJson) == Success(chat)
    ensures var text := Concat(Deltas(chunks));
      var w := ProcessWrites(env, None, Success(chat), chunks, Finished(reason));
      var f := Flushed(env, d, w, rand, clock);
      var stalled := Stalled(FileAge(f.mtimes, env.streamFile, now), env.timeoutSeconds);
      var o := Poll(env, f, false, now, nonce);
      && ReadChat(o.disk.files, env.chatFile, env.ctx, env.chatJson)
           == Success(if text == "" then chat else chat + [Message("assistant", text)])
      && env.streamFile !in o.disk.files && env.pidFile !in o.disk.files
      && o.resp.rerun == 0.0
      && (!stalled ==> o.resp.response == text && o.resp.footer == FooterForFinish(reason))
      && (stalled ==> o.resp.response == TrimSpace(text) + " [Connection Stalled]" && o.resp.footer == StalledFooter)
  {
    var text := Concat(Deltas(chunks));
    var w := ProcessWrites(env, None, Success(chat), chunks, Finished(reason));
    var f := Flushed(env, d, w, rand, clock);
    WorkerSucceeds(env, Success(chat), chunks, Finished(reason));
    FlushedReads(env, d, w, rand, clock);
    FlushedKeepsChat(env, d, w, rand, clock);
    PollFold(env, f, now, nonce, chat);
    FoldedChat(env, f, chat, text, now, nonce);
    FoldedFiles(env, f, chat, text, now, nonce);
  }

  /** The chat log `runPrimary` works from reads as the one before, whether
      `EnsureChatFile` found it or created it. */
  lemma EnsuredChat(env: Env, d: Disk, now: int, nonce0: Nonce)
    requires Lawful(env.ctx.lib) && ChatCodecLawful(env.chatJson)
    ensures ReadChat(Ensured(env, d, now, nonce0).files, env.chatFile, env.ctx, env.chatJson)
      == ReadChat(d.files, env.chatFile, env.ctx, env.chatJson)
  {
    if env.chatFile !in d.files {
      ReadChatAfterWrite(d.files - {Tmp(env.chatFile)}, env.chatFile, env.ctx, env.chatJson, nonce0, []);
    }
  }

  /** `EnsureChatFile` touches neither the stream file nor the PID file. */
  lemma EnsuredFiles(env: Env, d: Disk, now: int, nonce0: Nonce)
    requires Distinct(env)
    ensures var d0 := Ensured(env, d, now, nonce0);
      && (env.streamFile in d0.files <==> env.streamFile in d.files)
      && (env.streamFile in d.files ==> d0.files[env.streamFile] == d.files[env.streamFile])
  {
  }

  /** A lingering stream file means a turn is under way: the typed query and
      the spawn outcome are ignored, the stream file is left as it is, and
      the poller is started with the marker round. */
  lemma PrimaryResumes(env: Env, d: Disk, q1: string, q2: string, marker: bool, now: int,
                       nonce0: Nonce, nonce1: Nonce, s1: Result<nat>, s2: Result<nat>)
    requires Distinct(env) && env.apiKey != "" && env.streamFile in d.files
    ensures var o := Primary(env, d, q1, false, marker, now, nonce0, nonce1, s1);
      && o == Primary(env, d, q2, false, marker, now, nonce0, nonce1, s2)
      && env.streamFile in o.disk.files && o.disk.files[env.streamFile] == d.files[env.streamFile]
      && o.resp.rerun == RerunInterval && o.resp.variables == StreamingMarked
  {
    EnsuredFiles(env, d, now, nonce0);
  }

  /** An empty query with no turn under way only redisplays the log: no rerun,
      no variables, and the log reads as before. */
  lemma PrimaryRedisplays(env: Env, d: Disk, marker: bool, now: int, nonce0: Nonce, nonce1: Nonce,
                          spawn: Result<nat>, chat: seq<Message>)
    requires Lawful(env.ctx.lib) && ChatCodecLawful(env.chatJson) && Distinct(env)
    requires env.apiKey != "" && env.streamFile !in d.files
    requires ReadChat(d.files, env.chatFile, env.ctx, env.chatJson) == Success(chat)
    ensures var o := Primary(env, d, "", false, marker, now, nonce0, nonce1, spawn);
      && o.resp == Response(View(chat, false), 0.0, map[], ScrollEnd, "")
      && ReadChat(o.disk.files, env.chatFile, env.ctx, env.chatJson) == Success(chat)
      && env.streamFile !in o.disk.files
  {
    EnsuredChat(env, d, now, nonce0);
    EnsuredFiles(env, d, now, nonce0);
  }

  /** A new turn: the log gains the user message, the stream file exists and
      is empty, the PID file holds the worker's id in decimal, and the reply
      shows the log and starts polling. */
  lemma NewTurnSpec(env: Env, d0: Disk, chat: seq<Message>, query: string, now: int, nonce1: Nonce, pid: nat)
    requires Lawful(env.ctx.lib) && ChatCodecLawful(env.chatJson) && Distinct(env)
    requires env.streamFile !in d0.files
    ensures var o := NewTurn(env, d0, chat, query, now, nonce1, Success(pid));
      && ReadChat(o.disk.files, env.chatFile, env.ctx, env.chatJson) == Success(chat + [Message("user", query)])
      && env.streamFile in o.disk.files && o.disk.files[env.streamFile] == []
      && o.disk.mtimes[env.streamFile] == now
      && env.pidFile in o.disk.files && o.disk.files[env.pidFile] == DecimalBytes(pid)
      && o.resp == Response(View(chat + [Message("user", query)], true), RerunInterval, StreamingMarked, map[], "")
  {
    var chat1 := chat + [Message("user", query)];
    var d1 := Written(d0, env.chatFile, ChatPayload(env.ctx, env.chatJson, nonce1, chat1), now);
    ReadChatAfterWrite(d0.files - {Tmp(env.chatFile)}, env.chatFile, env.ctx, env.chatJson, nonce1, chat1);
    assert env.streamFile !in d1.files;
    var f2 := d1.files[env.streamFile := []];
    ReadChatOther(d1.files, env.chatFile, env.streamFile, [], env.ctx, env.chatJson);
    ReadChatOther(f2, env.chatFile, env.pidFile, DecimalBytes(pid), env.ctx, env.chatJson);
  }

  /** A new query with no turn under way starts one from the log as read. */
  lemma PrimaryStartsTurn(env: Env, d: Disk, query: string, marker: bool, now: int,
                          nonce0: Nonce, nonce1: Nonce, spawn: Result<nat>, chat: seq<Message>)
    requires Lawful(env.ctx.lib) && ChatCodecLawful(env.chatJson) && Distinct(env)
    requires env.apiKey != "" && env.streamFile !in d.files && query != ""
    requires ReadChat(d.files, env.chatFile, env.ctx, env.chatJson) == Success(chat)
    ensures Primary(env, d, query, false, marker, now, nonce0, nonce1, spawn)
      == NewTurn(env, Ensured(env, d, now, nonce0), chat, query, now, nonce1, spawn)
    ensures env.streamFile !in Ensured(env, d, now, nonce0).files
  {
    EnsuredChat(env, d, now, nonce0);
    EnsuredFiles(env, d, now, nonce0);
  }

  /** The first poll after a new turn, on time and before the worker has
      written: the empty record is shown as in progress and nothing changes. */
  lemma StartedTurnPolls(env: Env, d0: Disk, chat: seq<Message>, query: string, now: int, nonce1: Nonce,
                         pid: nat, later: int, nonce: Nonce)
    requires Lawful(env.ctx.lib) && ChatCodecLawful(env.chatJson) && Distinct(env)
    requires env.streamFile !in d0.files
    requires now <= later && later - now <= Timeout(env.timeoutSeconds)
    ensures var o := NewTurn(env, d0, chat, query, now, nonce1, Success(pid));
      Poll(env, o.disk, false, later, nonce)
        == Outcome(o.disk, Response("", RerunInterval, StreamingNow, ReplaceLastScroll, ""))
  {
    NewTurnSpec(env, d0, chat, query, now, nonce1, pid);
    var o := NewTurn(env, d0, chat, query, now, nonce1, Success(pid));
    assert FileAge(o.disk.mtimes, env.streamFile, later) == Success(later - now);
  }

  // ------------------------------------------------------------ dispatch

  /** The three ways `main` can run. */
  datatype Mode = DumpChat(path: string) | Worker | Foreground

  /** `main`'s choice of mode from the arguments (the program name first) and
      `GOCHAT_MODE`. */
  function ModeOf(args: seq<string>, gochatMode: string): (m: Mode)
    ensures m.DumpChat? <==> |args| > 2 && args[1] == "--dump-chat"
    ensures m.DumpChat? ==> m.path == args[2]
    ensures m.Worker? <==>
      !(|args| > 2 && args[1] == "--dump-chat") && (gochatMode == "stream" || (|args| > 1 && args[1] == "--stream"))
  {
    if |args| > 2 && args[1] == "--dump-chat" then DumpChat(args[2])
    else if gochatMode == "stream" then Worker
    else if |args| > 1 && args[1] == "--stream" then Worker
    else Foreground
  }

  /** The query `runPrimary` acts on: the first argument, or "". */
  function TypedQuery(args: seq<string>): (q: string)
    ensures |args| > 1 ==> q == args[1]
    ensures |args| <= 1 ==> q == ""
  {
    if |args| > 1 then args[1] else ""
  }

  /** The process `startBackgroundStream` spawns runs the worker. */
  lemma SpawnedRunsWorker(exe: string)
    ensures ModeOf([exe, "--stream"], "stream") == Worker
  {
  }
}
