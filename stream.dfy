/** The progress channel of internal/workflow/stream.go: a single record,
    overwritten in place through the durable store, plus the small file
    primitives the poller uses (existence, removal, touch, age). */
module Stream {
  import opened Wrappers
  import opened Text
  import opened Encryption
  import opened FileUtil

  /** `StreamState`: "" stands for an omitted `finish_reason` or `error`. */
  datatype StreamState = StreamState(content: string, finishReason: string, error: string)

  /** `StreamState{}` */
  const Zero := StreamState("", "", "")

  /** A record carrying a finish reason or an error will not be updated again. */
  predicate Terminal(s: StreamState) {
    s.finishReason != "" || s.error != ""
  }

  /** `json.Marshal` / `json.Unmarshal` for `StreamState`. */
  datatype StateCodec = StateCodec(marshal: StreamState -> Bytes, unmarshal: Bytes -> Result<StreamState>)

  /** Unmarshalling undoes marshalling, and a marshalled record is a JSON
      object, whose first byte is '{'. */
  ghost predicate StateCodecLawful(json: StateCodec) {
    && (forall s :: json.unmarshal(json.marshal(s)) == Success(s))
    && (forall s :: |json.marshal(s)| > 0 && json.marshal(s)[0] == 0x7B)
  }

  /** The bytes `WriteStreamState` stores for `state`. */
  function StatePayload(ctx: Context, json: StateCodec, nonce: Nonce, state: StreamState): Bytes {
    MaybeEncrypt(ctx, nonce, json.marshal(state))
  }

  /** `WriteStreamState`: the whole record is replaced. */
  method WriteStreamState(fs: FileStore, path: string, state: StreamState, ctx: Context, json: StateCodec, nonce: Nonce, now: int)
    requires fs.Valid()
    modifies fs
    ensures fs.Valid()
    ensures fs.files == (old(fs.files) - {Tmp(path)})[path := StatePayload(ctx, json, nonce, state)]
    ensures fs.mtimes == (old(fs.mtimes) - {Tmp(path)})[path := now]
    ensures Lawful(ctx.lib) && StateCodecLawful(json) ==> ReadStreamState(fs.files, path, ctx, json) == Success(state)
  {
    var payload := MaybeEncrypt(ctx, nonce, json.marshal(state));
    ghost var _ := AtomicWrite(fs, path, payload, now);
    if Lawful(ctx.lib) && StateCodecLawful(json) {
      assert ReadStreamState(fs.files, path, ctx, json) == ReadStreamState(fs.files[path := payload], path, ctx, json);
      ReadStateAfterWrite(fs.files, path, ctx, json, nonce, state);
    }
  }

  /** `ReadStreamState`: unlike the chat log, a missing file is an error; an
      empty file or empty payload reads as the zero (non-terminal) record. */
  function ReadStreamState(files: Files, path: string, ctx: Context, json: StateCodec): (r: Result<StreamState>)
    ensures path !in files ==> r == Failure(NotExist("open", path))
    ensures path in files && files[path] == [] ==> r == Success(Zero) && !Terminal(r.value) && r.value.content == ""
    ensures path in files && files[path] != [] ==>
      var decoded := MaybeDecrypt(ctx, files[path]);
      && (decoded.Failure? ==> r == Failure(decoded.error))
      && (decoded.Success? && decoded.value == [] ==> r == Success(Zero))
      && (decoded.Success? && decoded.value != [] ==> r == json.unmarshal(decoded.value))
  {
    if path !in files then Failure(NotExist("open", path))
    else if files[path] == [] then Success(Zero)
    else
      match MaybeDecrypt(ctx, files[path])
      case Failure(e) => Failure(e)
      case Success(decoded) =>
        if decoded == [] then Success(Zero) else json.unmarshal(decoded)
  }

  /** Reading back what `WriteStreamState` stored gives the same record. */
  lemma ReadStateAfterWrite(files: Files, path: string, ctx: Context, json: StateCodec, nonce: Nonce, state: StreamState)
    requires Lawful(ctx.lib) && StateCodecLawful(json)
    ensures ReadStreamState(files[path := StatePayload(ctx, json, nonce, state)], path, ctx, json) == Success(state)
  {
    var data := json.marshal(state);
    NotEnvelopedByFirstByte(data);
    DecryptEncrypt(ctx, nonce, data);
    var payload := StatePayload(ctx, json, nonce, state);
    assert payload != [] by {
      if ctx.secret != "" { assert HasPrefix(payload, Prefix); }
    }
  }

  /** `StreamFileExists` */
  function StreamFileExists(files: Files, path: string): (b: bool)
    ensures b <==> path in files
  {
    path in files
  }

  /** The paths `RemoveFiles` deletes: every non-empty one it is given. */
  function Named(paths: seq<string>): set<string> {
    set p | p in paths && p != ""
  }

  /** `RemoveFiles`: deletes every non-empty path, ignores "" and missing
      files, and touches nothing else. */
  method RemoveFiles(fs: FileStore, paths: seq<string>)
    requires fs.Valid()
    modifies fs
    ensures fs.Valid()
    ensures fs.files == old(fs.files) - Named(paths)
    ensures fs.mtimes == old(fs.mtimes) - Named(paths)
    ensures forall p :: p in paths && p != "" ==> !StreamFileExists(fs.files, p)
  {
    var i := 0;
    while i < |paths|
      invariant 0 <= i <= |paths|
      invariant fs.Valid()
      invariant fs.files == old(fs.files) - Named(paths[..i])
      invariant fs.mtimes == old(fs.mtimes) - Named(paths[..i])
    {
      var p := paths[i];
      assert paths[..i + 1] == paths[..i] + [p];
      if p == "" {
        assert Named(paths[..i + 1]) == Named(paths[..i]);
      } else {
        var _ := fs.Remove(p);
        assert Named(paths[..i + 1]) == Named(paths[..i]) + {p};
      }
      i := i + 1;
    }
    assert paths[..i] == paths;
  }

  /** `Touch`: `O_CREATE` without `O_TRUNC`, and nothing is written, so an
      existing file keeps its content and its modification time. */
  method Touch(fs: FileStore, path: string, now: int)
    requires fs.Valid()
    modifies fs
    ensures fs.Valid()
    ensures path in old(fs.files) ==> fs.files == old(fs.files) && fs.mtimes == old(fs.mtimes)
    ensures path !in old(fs.files) ==> fs.files == old(fs.files)[path := []] && fs.mtimes == old(fs.mtimes)[path := now]
    ensures StreamFileExists(fs.files, path)
  {
    if path !in fs.files {
      fs.WriteFile(path, [], now);
    }
  }

  /** Extremes of Go's `time.Duration` (an int64 count of nanoseconds). */
  const MinDuration: int := -0x8000_0000_0000_0000
  const MaxDuration: int :=  0x7FFF_FFFF_FFFF_FFFF

  /** `Time.Sub`: the difference, saturated to the range of a Duration. */
  function TimeSub(t: int, u: int): (d: int)
    ensures MinDuration <= d <= MaxDuration
    ensures MinDuration <= t - u <= MaxDuration ==> d == t - u
    ensures t - u > MaxDuration ==> d == MaxDuration
    ensures t - u < MinDuration ==> d == MinDuration
  {
    if t - u > MaxDuration then MaxDuration else if t - u < MinDuration then MinDuration else t - u
  }

  /** `FileAge`: now minus the modification time; an error for a missing file. */
  function FileAge(mtimes: Times, path: string, now: int): (r: Result<int>)
    ensures path !in mtimes ==> r == Failure(NotExist("stat", path))
    ensures path in mtimes ==> r == Success(TimeSub(now, mtimes[path]))
  {
    match FileModified(mtimes, path)
    case Failure(e) => Failure(e)
    case Success(mod) => Success(TimeSub(now, mod))
  }
}
