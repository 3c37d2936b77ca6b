# openai-workflow in Dafny

This project models two Alfred workflow commands written in Go:

- `chatgpt` keeps a chat with a streaming completion API.
- `dalle` generates images and lists earlier ones.

The heart of `chatgpt` is a file-based protocol between two processes:

- The foreground command, run again and again by Alfred, appends the user's question to the chat log. It creates the stream file, spawns a detached worker and then polls.
- The worker streams the answer. It overwrites one progress record (the stream file) after every non-empty delta, and finally writes a record with the finish reason or an error.
- The poller reads that record and decides the next step:
  - an error record is printed and the channel files are removed;
  - a record in progress is shown, and the poller asks to be run again;
  - a finished or stalled record (stalled means older than the timeout) is folded into the chat log, and the channel files are removed.

Both processes share the durable store:

- every write of the chat log and of the progress record goes to `path.tmp` and is then renamed over `path`; the PID file (cmd/chatgpt/main.go:164) and the empty stream file that `Touch` creates are written in place;
- the chat log and the progress record can be wrapped in an optional encryption envelope, `"ENCv1:" ++ base64(nonce ++ AES-GCM-Seal(...))`.

Model structure:

- **File system.** The file system is a `FileUtil.FileStore` object: a map from path to bytes, plus a map from path to modification time in nanoseconds. Operations that change files are methods that modify it.
- **Commands as functions.** Each command run is also a pure function from the disk before to the disk after plus the printed reply: `ChatGpt.Poll`, `ChatGpt.Primary`, `ChatGpt.ProcessWrites`/`ChatGpt.Flushed`. The methods are proved equal to these functions, and the protocol's properties are lemmas about them.
- **Worker nonces and times.** In the worker, the k-th write of the stream file uses nonce `rand(k)` and time `clock(k)`.
- **Abstract libraries.** JSON, AES-GCM, SHA-256, base64 and URL parsing are function values. Their only assumed facts are ghost "lawful" predicates: round trips (AES-GCM Open undoes Seal, base64 decoding undoes encoding, JSON unmarshalling undoes marshalling); the base64 alphabet has no white space; and marshalled JSON is non-empty and starts with '[' for the message list or '{' for the progress record. Every round-trip lemma requires these predicates.
- **Pure helpers** are functions with contracts:
  - context trimming, model choice, request building;
  - chat-to-markdown rendering;
  - base-URL normalisation;
  - latest-PNG selection;
  - image file names and prompt extraction;
  - the `dalle` command's reply texts.

Two points where the model follows the code as written:

- **Ellipsis text.** The source text of `respondStream` holds the marker reply as the three characters U+00E2 U+20AC U+00A6. That is the UTF-8 encoding of "…" misread as Windows-1252. The model uses these three characters (`ChatGpt.Ellipsis`).
- **Unreadable progress record.** When the progress record cannot be read, the poller prints the read error and leaves the stream and PID files in place (`ChatGpt.Poll`, cmd/chatgpt/main.go:276-278).

## Model

| member | source | states |
|---|---|---|
| Text.TrimSpace | internal/workflow/markdown.go:25 | the result is a slice of the input with no Unicode white space at either end |
| Text.TrimSuffix | internal/workflow/endpoints.go:21-23 | removes the suffix exactly once when present, otherwise returns the input |
| Text.TrimRightChar | internal/workflow/endpoints.go:29 | a prefix of the input that does not end in the character, and only that character was dropped |
| Text.JoinSplit | internal/workflow/images.go:27 | joining the parts of a split with the separator gives back the text |
| Text.SplitJoin | internal/workflow/images.go:27 | splitting a join of separator-free parts gives back the parts |
| Text.JoinEmptyIsConcat | internal/workflow/chat.go:32-34 | joining with "" is plain concatenation |
| Text.EqualFoldIsLowerEquality | internal/workflow/dalle.go:39 | ASCII case-insensitive equality is equality after lower-casing |
| Text.FormatPaddedRoundTrip | internal/workflow/images.go:37-42 | `%0Nd` of a natural number is all digits, parses back to the number, and is exactly N wide when it fits |
| Text.ParseDigitsOfDigits | cmd/chatgpt/main.go:163 | `%d` of a natural number parses back to it |
| Encryption.EncryptionKey | internal/workflow/encryption.go:20-27 | there is no key exactly when the secret is empty |
| Encryption.MaybeEncrypt | internal/workflow/encryption.go:29-51 | without a secret the data is returned unchanged; with one the output starts with "ENCv1:" |
| Encryption.MaybeDecrypt | internal/workflow/encryption.go:53-85 | input without the marker is returned untrimmed; a marker without a secret, a base64 error and a payload shorter than the nonce each give their own error and no plaintext; a decoded payload goes to `Unseal` |
| Encryption.Unseal | internal/workflow/encryption.go:74-84 | a payload shorter than the 12-byte nonce is "corrupt or truncated"; otherwise the first 12 bytes are the nonce, a failed `Open` gives the authentication error and no plaintext, and a successful one gives exactly the opened plaintext |
| Encryption.EnvelopeEdges | internal/workflow/encryption.go:46-49 | an envelope is non-empty and has no white space at either end |
| Encryption.DecryptEnvelopePadded | internal/workflow/encryption.go:53-85 | with a secret, decryption recovers the plaintext even with white space around the envelope |
| Encryption.DecryptEncrypt | internal/workflow/encryption.go:29-85 | decryption undoes encryption under the same secret; without a secret this needs plaintext that does not look enveloped |
| FileUtil.NotEnvelopedByFirstByte | internal/workflow/encryption.go:54-57 | data whose first byte is neither white space nor 'E' is never taken for an envelope |
| FileUtil.Tmp | internal/workflow/fileutil.go:76 | the temporary path differs from the path |
| FileUtil.FileStore.WriteFile | internal/workflow/fileutil.go:77 | the file gets the data and the time; nothing else changes |
| FileUtil.FileStore.Rename | internal/workflow/fileutil.go:80 | moves the source's content and time over the target; a missing source is an error and changes nothing |
| FileUtil.FileStore.Remove | internal/workflow/stream.go:60 | the path is gone; removing a missing file is an error that changes nothing |
| FileUtil.AtomicWrite | internal/workflow/fileutil.go:75-81 | afterwards the path holds the data, the temporary file is gone and every other file is unchanged; a crash between the two steps leaves the path's old content |
| FileUtil.ReadChat | internal/workflow/fileutil.go:29-52 | a missing file, an empty file and an empty decoded payload read as the empty log; decryption and JSON errors are returned |
| FileUtil.ReadChatAfterWrite | internal/workflow/fileutil.go:29-64 | reading back the stored payload gives the written messages, with or without a secret |
| FileUtil.WriteChat | internal/workflow/fileutil.go:54-64 | the file map is the atomic write of the payload, and the log then reads back as the messages |
| FileUtil.AppendChat | internal/workflow/fileutil.go:66-73 | a read error is returned and changes nothing; otherwise the log becomes old ++ [message], written atomically: the file gets the new payload and the time `now`, and the temporary file is gone |
| FileUtil.EnsureChatFile | internal/workflow/fileutil.go:17-27 | an existing file is untouched; a missing one is created and then reads as the empty log |
| FileUtil.FileModified | internal/workflow/fileutil.go:83-89 | the modification time when the file exists, a not-exist error otherwise |
| Stream.WriteStreamState | internal/workflow/stream.go:16-26 | the record replaces the file content by an atomic write and reads back as the record |
| Stream.ReadStreamState | internal/workflow/stream.go:28-48 | a missing file is an error (unlike the chat log); an empty file or empty payload reads as the zero, non-terminal record; decode errors are returned |
| Stream.ReadStateAfterWrite | internal/workflow/stream.go:16-48 | reading back the stored payload gives the written record |
| Stream.StreamFileExists | internal/workflow/stream.go:50-53 | true exactly when the file exists |
| Stream.RemoveFiles | internal/workflow/stream.go:55-64 | exactly the non-empty paths given are removed, missing ones silently; nothing else changes |
| Stream.Touch | internal/workflow/stream.go:66-72 | an existing file keeps content and time; a missing one is created empty at the current time |
| Stream.TimeSub | internal/workflow/stream.go:79 | the difference of two times, saturated to the int64 range of a Duration |
| Stream.FileAge | internal/workflow/stream.go:74-80 | now minus the modification time, or the not-exist error |
| Chat.ResolveChatModel | internal/workflow/chat.go:7-12 | a non-empty override wins, otherwise the configured model |
| Chat.TrimContext | internal/workflow/chat.go:14-19 | always a suffix of the input, of length max when 0 < max < length, else the whole input |
| Chat.TrimContextExample | internal/workflow/chat.go:14-19 | ten messages trimmed to four keep the last four in order, and a limit of zero keeps all |
| Chat.BuildMessages | internal/workflow/chat.go:21-30 | a system entry first exactly when the prompt is non-empty, then every message's role and content in order |
| Chat.JoinStrings | internal/workflow/chat.go:32-34 | the plain concatenation of the parts |
| Markdown.MarkdownChat | internal/workflow/markdown.go:5-26 | the trimmed concatenation of the per-message sections, where an empty assistant message adds nothing, a user message adds both headings, "[Answer Interrupted]" follows a user message exactly when another user message follows or it is last and the caller does not ignore that, and other roles add nothing; no white space at either end; an empty log renders as "" |
| Markdown.TranscriptPrefixStable | internal/workflow/markdown.go:18-22 | appending a non-user message does not change how the earlier messages render once the last interruption is ignored |
| Markdown.TranscriptAgree | internal/workflow/markdown.go:8-23 | two logs whose first n messages render to the same sections render to the same first n sections of text |
| Markdown.AnswerExtendsView | internal/workflow/markdown.go:9-13 | the view of a log with a new answer is the in-progress view followed by the answer and "\n\n" |
| Markdown.PendingQuestion | internal/workflow/markdown.go:14-22 | a trailing question gets the interruption note exactly when the last interruption is not ignored |
| Markdown.LastSection | internal/workflow/markdown.go:14-22 | a trailing user message adds both headings around the question and, unless the last interruption is ignored, the interruption note |
| Endpoints.NormalizedPath | internal/workflow/endpoints.go:26-28 | the path after normalisation is never "" or "/" |
| Endpoints.StripFirstSuffixSpec | internal/workflow/endpoints.go:16-25 | only the first suffix in order that ends the path is removed, once; with none the path is kept |
| Endpoints.NormalizeBaseURL | internal/workflow/endpoints.go:8-30 | "" and unparsable or scheme-less input give the default; otherwise the rendering of the URL with the normalised path, with trailing slashes trimmed, so it never ends in '/' |
| Dalle.StringsEqualFold | internal/workflow/dalle.go:37-44 | true exactly when the value equals one of the accepted texts, ignoring ASCII case |
| Dalle.IncludeMetadata | internal/workflow/dalle.go:27 | true exactly for "1", "true" or "yes" in any case |
| Dalle.Ext | internal/workflow/dalle.go:56 | as `filepath.Ext`: empty exactly when every '.' of the name has a '/' after it; otherwise the suffix that starts at the last '.', with no '.' or '/' after that point |
| Dalle.ExtBeforeSpec | internal/workflow/dalle.go:56 | the backward scan of `filepath.Ext` over the first i characters stops at the last '.' that no '/' follows, or finds nothing when every '.' has a '/' after it |
| Dalle.IsPngIff | internal/workflow/dalle.go:56 | a name counts as a PNG exactly when it ends in ".png" in any case |
| Dalle.PngPathsMembers | internal/workflow/dalle.go:51-59 | a path is collected exactly when some non-directory PNG entry produces it |
| Dalle.LessTotal | internal/workflow/dalle.go:60 | the byte order of `sort.Strings` is total |
| Dalle.LessTransitive | internal/workflow/dalle.go:60 | the order is transitive |
| Dalle.SortStrings | internal/workflow/dalle.go:60 | sorted and a permutation of the input |
| Dalle.InsertSpec | internal/workflow/dalle.go:60 | inserting into a sorted list keeps it sorted and adds exactly the one element |
| Dalle.SortedPermutationUnique | internal/workflow/dalle.go:60 | two sorted permutations of the same paths are equal, so the sorted result is determined |
| Dalle.KeepGreatest | internal/workflow/dalle.go:61-63 | keeping the last `max` entries of a sorted list keeps it sorted, as long as allowed, and keeps no entry below one it drops |
| Dalle.LatestSpec | internal/workflow/dalle.go:60-63 | the selection is sorted, has min(count, max) entries, is a sub-multiset, and every path left out is below every path kept |
| Dalle.LatestImages | internal/workflow/dalle.go:46-65 | a listing error is returned; otherwise the sorted greatest `max` PNG paths with the properties of `LatestSpec` |
| Images.BuildImageFilename | internal/workflow/images.go:35-46 | the path ends in the stamp, "-", the id and ".png" |
| Images.StampLayout | internal/workflow/images.go:36-44 | the stamp is 19 characters with dots at 4, 7, 10, 13 and 16, and each field is all digits and parses back to the year, month, day, hour, minute and second |
| Images.LastMarkerEnd | internal/workflow/images.go:11 | the greedy match of `^(.* Prompt:)`: the last position where " Prompt:" ends, and none later |
| DalleCmd.TaggedLine | internal/workflow/images.go:11 | a line "tag Prompt: rest" whose tag has no space and whose rest holds no marker matches through the tag's marker and is bolded as "**tag Prompt:** rest" |
| Images.PromptLinesSnoc | internal/workflow/images.go:27-31 | one more line adds its bolded form exactly when it matches |
| Images.ExtractPrompt | internal/workflow/images.go:21-33 | the matching lines bolded and joined by "\n\n"; "" when the metadata is unavailable or empty |
| Images.PromptLinesSpec | internal/workflow/images.go:27-31 | every kept line is the bolded form of a matching input line, there are no more kept lines than input lines, and nothing is kept when no line matches |
| Images.MarkdownForShape | internal/workflow/images.go:13-19 | the entry opens in bold (the prompt or "**No prompt found**") and ends with the image link |
| Images.MarkdownImage | internal/workflow/images.go:13-19 | the prompt, or "**No prompt found**" when there is none, then "\n![](path)" |
| DalleCmd.BuildPromptText | cmd/dalle/main.go:194-199 | always starts with "Original Prompt: " and the original; is exactly that when the revised prompt is blank; otherwise it is exactly "Original Prompt: " + original + "\n\nRevised Prompt: " + revised, with nothing between the two parts |
| DalleCmd.DescriptionPrompt | cmd/dalle/main.go:194-199 | the description written into an image reads back through `ExtractPrompt` as the bolded original and, when not blank, the bolded revised prompt |
| DalleCmd.DescriptionLines | cmd/dalle/main.go:194-199 | the description splits into the header, a blank line, the original line and, when not blank, a blank line and the revised line |
| DalleCmd.RespondWithPreviousError | cmd/dalle/main.go:201-212 | the previous text and "\n\n" (only when it is non-empty), then the bold original prompt, "\n\n" and the error; append and scroll to end, no rerun |
| DalleCmd.Markdowns | cmd/dalle/main.go:121-124 | one entry per path, in order, each the image's markdown |
| DalleCmd.MarkdownList | cmd/dalle/main.go:121-124 | the markdown of every path, in order |
| DalleCmd.PreviousMarkdown | cmd/dalle/main.go:134-144 | a listing error is returned; otherwise the markdown of the latest `max` images |
| DalleCmd.Run | cmd/dalle/main.go:33-132 | a missing key and a listing error give the error reply; without loaded_previous the previous images with rerun 0.1; with it an empty query gives them with no rerun; a generation error gives the previous-error text with append and scroll end, no rerun, no variables and no footer; success appends the new images' markdown joined by "\n\n"; loaded_previous=true is set on all but the error replies |
| ChatGpt.FooterForFinish | cmd/chatgpt/main.go:336-345 | "length" and "content_filter" get their footers, and every other reason, "" included, gets none |
| ChatGpt.WrapInt64 | cmd/chatgpt/main.go:291 | the int64 wrap-around of `time.Duration(s)*time.Second`: in range, congruent modulo 2^64, identity in range |
| ChatGpt.StalledExample | cmd/chatgpt/main.go:289-291 | with a 20 s timeout, 31 s is stalled, 19 s and 20 s are not, and an unreadable age is not |
| ChatGpt.TimeoutInRange | cmd/chatgpt/main.go:291 | a timeout that fits in an int64 of nanoseconds is not wrapped |
| ChatGpt.FoldReply | cmd/chatgpt/main.go:318-333 | a stall marks the trimmed answer " [Connection Stalled]" with the continue footer whatever the finish reason; otherwise the content with the reason's footer; no rerun; replace last and scroll |
| ChatGpt.RespondStream | cmd/chatgpt/main.go:264-334 | the new disk and the reply are exactly those of `Poll` on the old disk |
| ChatGpt.PollMarker | cmd/chatgpt/main.go:265-273 | on the marker round the reply is the ellipsis with rerun 0.1, streaming_now and append, and no file changes |
| ChatGpt.PollErrorRecord | cmd/chatgpt/main.go:280-287 | an error record removes the stream and PID files and nothing else, leaves the chat log reading as before, and prints the error verbatim with no rerun |
| ChatGpt.PollInProgress | cmd/chatgpt/main.go:289-301 | a non-terminal, non-stalled record is shown with rerun 0.1 and streaming_now, and no file changes |
| ChatGpt.PollFold | cmd/chatgpt/main.go:303-333 | a finished or stalled record with a readable log is folded, and the stall test applies whatever the finish reason |
| ChatGpt.FoldedChat | cmd/chatgpt/main.go:308-314 | after folding, the log reads as old ++ [assistant(content)], or as old when the content is empty |
| ChatGpt.FoldedFiles | cmd/chatgpt/main.go:308-316 | folding removes the stream and PID files and changes nothing but the chat log and its temporary file |
| ChatGpt.ReadChatIgnores | cmd/chatgpt/main.go:316 | removing other files does not change how the chat log reads |
| ChatGpt.Converted | cmd/chatgpt/main.go:213-220 | no longer than the context and never a system entry |
| ChatGpt.ConvertedWhole | cmd/chatgpt/main.go:213-220 | a context of only user and assistant messages converts one to one, in order, with the same texts |
| ChatGpt.RequestMessages | cmd/chatgpt/main.go:209-220 | the request holds a system entry first exactly when the prompt is non-empty, and then the converted context |
| ChatGpt.Deltas | cmd/chatgpt/main.go:236-246 | only non-empty deltas are kept |
| ChatGpt.ProgressContents | cmd/chatgpt/main.go:240-243 | the i-th progress record holds the concatenation of the first i+1 deltas and is non-terminal |
| ChatGpt.ProgressMonotone | cmd/chatgpt/main.go:236-246 | the published contents strictly grow by prefix, and all of them are non-terminal |
| ChatGpt.FlushedSnoc | internal/workflow/stream.go:16-26 | one more record is one more atomic write of the stream file |
| ChatGpt.Publish | internal/workflow/stream.go:16-26 | one more record written to the stream file is one more entry in the list of writes the disk reflects |
| ChatGpt.PublishDeltas | cmd/chatgpt/main.go:236-246 | the builder is the concatenation of the deltas, and the disk is the reset followed by one write per non-empty delta |
| ChatGpt.RunChatStream | cmd/chatgpt/main.go:189-262 | the error, the records written in order, their number and the final disk are those specified; the request is sent exactly when the client, the log and the model are all available, and holds the resolved model and the messages built from the trimmed log |
| ChatGpt.RunStreamProcess | cmd/chatgpt/main.go:170-187 | without a key only the key error record is written; otherwise the stream's records, followed on failure by a record with only the error; the disk is those writes in order |
| ChatGpt.FlushedReads | internal/workflow/stream.go:16-48 | after the worker the stream file reads as its last record |
| ChatGpt.WorkerResetsFirst | cmd/chatgpt/main.go:199-201 | with a key and a client, the first record is the empty, non-terminal one |
| ChatGpt.WorkerSucceeds | cmd/chatgpt/main.go:236-261 | on success the contents only grow by prefix, every record but the last is non-terminal, and the last holds the whole text and the finish reason |
| ChatGpt.PublishedGrows | cmd/chatgpt/main.go:236-261 | the reset, the per-delta records and the final record: only the last can be terminal, and each text extends every earlier one |
| ChatGpt.WorkerFails | cmd/chatgpt/main.go:182-184 | after a failure the last record holds the error and empty content, overwriting the partial text written at lines 248-250 |
| ChatGpt.WorkerWithoutKey | cmd/chatgpt/main.go:178-180 | without a key the only record says the key is missing |
| ChatGpt.FlushedKeepsChat | cmd/chatgpt/main.go:236-261 | the worker's writes leave the chat log reading as before |
| ChatGpt.WorkerThenPoll | cmd/chatgpt/main.go:170-187 | a worker that finished with a reason, followed by a poll, appends the whole answer to the log, removes the stream and PID files, and shows the answer (marked when stalled) with its footer |
| ChatGpt.RunPrimary | cmd/chatgpt/main.go:64-146 | the new disk and the reply are exactly those of `Primary` |
| ChatGpt.EnsuredChat | cmd/chatgpt/main.go:76-78 | ensuring the chat file leaves what the log reads as unchanged |
| ChatGpt.PrimaryResumes | cmd/chatgpt/main.go:94-108 | with a lingering stream file, the query and the spawn are ignored, the stream file is untouched, and polling starts with the marker round |
| ChatGpt.ResumeReply | cmd/chatgpt/main.go:93-107 | with a lingering stream file a readable log is shown with the last interruption ignored and scrolled to the end, an unreadable one as ""; either way rerun 0.1 and the streaming and marker variables |
| ChatGpt.PrimaryRedisplays | cmd/chatgpt/main.go:115-121 | an empty query with no turn under way renders the log without a rerun and changes what it reads as in no way |
| ChatGpt.PrimaryStartsTurn | cmd/chatgpt/main.go:110-145 | a new query with no turn under way goes to the new-turn step from the log as read |
| ChatGpt.NewTurnSpec | cmd/chatgpt/main.go:123-145 | the log gains exactly one user message, the stream file is created empty at the current time, the PID file holds the id, and the reply shows the log and starts polling |
| ChatGpt.StartTurn | cmd/chatgpt/main.go:123-145 | the new disk and the reply are exactly those of `NewTurn` on the old disk |
| ChatGpt.StartedTurnPolls | cmd/chatgpt/main.go:289-301 | the first poll within the timeout after a new turn shows the empty record as in progress and changes nothing |
| ChatGpt.PidFileRoundTrip | cmd/chatgpt/main.go:163-164 | the PID file, read as text and parsed, gives the process id |
| ChatGpt.ModeOf | cmd/chatgpt/main.go:34-62 | `--dump-chat PATH` wins; otherwise GOCHAT_MODE=stream or a first argument `--stream` runs the worker; anything else runs the foreground |
| ChatGpt.TypedQuery | cmd/chatgpt/main.go:80-84 | the first argument, or "" |
| ChatGpt.SpawnedRunsWorker | cmd/chatgpt/main.go:148-158 | the process started by the foreground runs the worker |

## Left out

- Environment loading (`LoadEnv`, `LoadDalleEnv`, `readIntEnv`) is not modelled. The configuration is the record `ChatGpt.Env`. Its defaults (max_context 4, timeout 20 s, stream.txt, pid.txt, chat.json) are not checked.
- `EnsureHelperBinary` (helper.go) is left out; it is file-system plumbing outside the protocol.
- `ReadMetadata` (metadata.go, which runs `xattr`) is left out. The metadata text is an input: `meta` for each image path.
- The OpenAI client is left out. Its creation outcome is `clientErr`, and a stream is a list of chunk deltas plus how it ended (finish reason or error). An image generation together with its download (`downloadImages`) is one `generated` outcome.
- Process spawning (`startBackgroundStream`) is one step: a process id or the error. Process groups are not modelled, and neither is the worker running concurrently with the poller. Runs are sequential steps over the shared disk.
- `dumpChat` and `emit` are left out: output and JSON encoding of replies. Replies are `Alfred.Response` records. A zero or empty field stands for one `omitempty` leaves out.
- JSON, AES-GCM, SHA-256, base64 and `url.Parse`/`URL.String` are function values. Only the facts in `Encryption.Lawful`, `FileUtil.ChatCodecLawful` and `Stream.StateCodecLawful` are assumed of them, and there are three kinds. The first is round trips. The second is that base64 output holds no white space, which is true of standard base64 (section 4 of RFC 4648). The third is that marshalled JSON is non-empty and starts with '[' or '{'. That holds because every `WriteChat` call passes a non-nil slice: the `[]Message{}` literal or the result of `append` (internal/workflow/fileutil.go:26, 71; cmd/chatgpt/main.go:124-125, 310-311). The progress record is a struct, which marshals as an object. A nil `[]Message` would marshal as `null`, and the model does not cover that case.
- The possible errors of `json.Marshal`, `aes.NewCipher`, `cipher.NewGCM` and `crypto/rand` are not modelled.
- OS errors other than a missing file are not modelled (permissions, full disk, failed writes, `MkdirAll`). Writes always succeed.
- `FileUtil.EnsureChatFile`: a `Stat` error other than not-exist is not modelled.
- Wall-clock time is an input. The nonces and times of the worker's writes are the parameters `rand` and `clock`.
- `Encryption.TrimSpaceBytes`: only ASCII white space is trimmed. `bytes.TrimSpace` also trims multi-byte UTF-8 spaces.
- `Text.EqualFold`: folds ASCII case only. Go's `strings.EqualFold` also uses Unicode simple folding.
- `Text.JoinPath`: does not model `filepath.Clean` (dot segments, repeated slashes), which `filepath.Join` applies.
- `Dalle.LatestImages`: the in-place `sort.Strings` is modelled as sorting a sequence (`Dalle.SortStrings`), not an array.
- `Images.BuildImageFilename`: states the file name's suffix, not the directory part, because of `filepath.Join`'s cleaning.
- `ChatGpt.Converted`: entries of roles other than user and assistant are dropped, as in the loop. The OpenAI parameter types are reduced to `ChatGpt.Param`.
- The openai-go accumulator's handling of chunks is not modelled. The finish reason is taken from how the stream ended.

## Notes

- `ChatGpt.Ellipsis` keeps the marker text as the source holds it (U+00E2 U+20AC U+00A6).
- On the exact-match branch of the suffix loop, clearing the path gives the same result as removing the suffix once.
- A stream that ends with an empty finish reason leaves a non-terminal last record (`ChatGpt.WorkerSucceeds` with reason ""). The poller then shows the answer as in progress until the record is older than the timeout, and folds it in as stalled.
