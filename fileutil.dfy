/** The durable store of internal/workflow/fileutil.go: a file map with
    modification times, the temp-file-then-rename write, and the chat log
    stored through the encryption envelope. */
module FileUtil {
  import opened Wrappers
  import opened Text
  import opened Encryption

  /** One chat message; the role is free text ("user", "assistant", ...). */
  datatype Message = Message(role: string, content: string)

  type Files = map<string, Bytes>
  /** Modification times, in nanoseconds of wall-clock time. */
  type Times = map<string, int>

  /** The text of an `*fs.PathError` for a missing file. */
  function NotExist(op: string, path: string): string {
    op + " " + path + ": no such file or directory"
  }

  /** `json.Marshal` / `json.Unmarshal` for `[]Message`. */
  datatype ChatCodec = ChatCodec(marshal: seq<Message> -> Bytes, unmarshal: Bytes -> Result<seq<Message>>)

  /** Unmarshalling undoes marshalling, and a marshalled list is a JSON array,
      whose first byte is '['. */
  ghost predicate ChatCodecLawful(json: ChatCodec) {
    && (forall ms :: json.unmarshal(json.marshal(ms)) == Success(ms))
    && (forall ms :: |json.marshal(ms)| > 0 && json.marshal(ms)[0] == 0x5B)
  }

  /** Data whose first byte is neither white space nor 'E' never looks
      enveloped, so `maybeDecrypt` passes it through. */
  lemma NotEnvelopedByFirstByte(data: Bytes)
    requires data != [] && !IsSpaceByte(data[0]) && data[0] != 0x45
    ensures !Enveloped(data)
  {
    var left := TrimLeftBy(data, IsSpaceByte);
    assert left == data;
    var t := TrimSpaceBytes(data);
    assert t == TrimRightBy(left, IsSpaceByte);
    assert t == data[..|t|];
    assert t[0] == data[0];
  }

  /** `path + ".tmp"` */
  function Tmp(path: string): (t: string)
    ensures t != path
  {
    path + ".tmp"
  }

  /** A map with the entry at `from` moved to `to`, as `rename(2)` does. */
  function Renamed<V>(m: map<string, V>, from: string, to: string): map<string, V>
    requires from in m
  {
    if from == to then m else (m - {from})[to := m[from]]
  }

  /** The process-wide view of the file system: contents and modification
      times of every existing file. Directories are not modelled. */
  class FileStore {
    var files: Files
    var mtimes: Times

    ghost predicate Valid()
      reads this
    {
      files.Keys == mtimes.Keys
    }

    constructor (files0: Files, mtimes0: Times)
      requires files0.Keys == mtimes0.Keys
      ensures Valid() && files == files0 && mtimes == mtimes0
    {
      files, mtimes := files0, mtimes0;
    }

    /** `os.WriteFile`: creates or truncates the file and stamps it. */
    method WriteFile(path: string, data: Bytes, now: int)
      requires Valid()
      modifies this
      ensures Valid()
      ensures files == old(files)[path := data] && mtimes == old(mtimes)[path := now]
    {
      files := files[path := data];
      mtimes := mtimes[path := now];
    }

    /** `os.Rename`: replaces `to` by `from`, keeping its modification time. */
    method Rename(from: string, to: string) returns (err: Option<string>)
      requires Valid()
      modifies this
      ensures Valid()
      ensures from !in old(files) ==> err == Some("rename " + from + " " + to + ": no such file or directory")
                                      && files == old(files) && mtimes == old(mtimes)
      ensures from in old(files) ==> err == None && files == Renamed(old(files), from, to)
                                     && mtimes == Renamed(old(mtimes), from, to)
    {
      if from !in files {
        return Some("rename " + from + " " + to + ": no such file or directory");
      }
      files := Renamed(files, from, to);
      mtimes := Renamed(mtimes, from, to);
      err := None;
    }

    /** `os.Remove` */
    method Remove(path: string) returns (err: Option<string>)
      requires Valid()
      modifies this
      ensures Valid()
      ensures files == old(files) - {path} && mtimes == old(mtimes) - {path}
      ensures err == if path in old(files) then None else Some(NotExist("remove", path))
    {
      err := if path in files then None else Some(NotExist("remove", path));
      files := files - {path};
      mtimes := mtimes - {path};
    }
  }

  /** `atomicWrite`: write `path.tmp`, then rename it over `path`. The ghost
      result is the file map between the two steps, which is what a crash
      there leaves behind: `path` still holds its old content. */
  method AtomicWrite(fs: FileStore, path: string, data: Bytes, now: int) returns (ghost interrupted: Files)
    requires fs.Valid()
    modifies fs
    ensures fs.Valid()
    ensures fs.files == (old(fs.files) - {Tmp(path)})[path := data]
    ensures fs.mtimes == (old(fs.mtimes) - {Tmp(path)})[path := now]
    ensures interrupted == old(fs.files)[Tmp(path) := data]
    ensures (path in interrupted <==> path in old(fs.files))
            && (path in old(fs.files) ==> interrupted[path] == old(fs.files)[path])
  {
    var tmp := Tmp(path);
    fs.WriteFile(tmp, data, now);
    interrupted := fs.files;
    var err := fs.Rename(tmp, path);
    assert fs.files == (old(fs.files) - {tmp})[path := data];
  }

  /** The bytes `WriteChat` stores for `msgs`. */
  function ChatPayload(ctx: Context, json: ChatCodec, nonce: Nonce, msgs: seq<Message>): Bytes {
    MaybeEncrypt(ctx, nonce, json.marshal(msgs))
  }

  /** `ReadChat`: a missing file, an empty file and an empty decrypted payload
      all read as the empty log; decryption and JSON errors are returned. */
  function ReadChat(files: Files, path: string, ctx: Context, json: ChatCodec): (r: Result<seq<Message>>)
    ensures path !in files ==> r == Success([])
    ensures path in files && files[path] == [] ==> r == Success([])
    ensures path in files && files[path] != [] ==>
      var decoded := MaybeDecrypt(ctx, files[path]);
      && (decoded.Failure? ==> r == Failure(decoded.error))
      && (decoded.Success? && decoded.value == [] ==> r == Success([]))
      && (decoded.Success? && decoded.value != [] ==> r == json.unmarshal(decoded.value))
  {
    if path !in files then Success([])
    else if files[path] == [] then Success([])
    else
      match MaybeDecrypt(ctx, files[path])
      case Failure(e) => Failure(e)
      case Success(decoded) =>
        if decoded == [] then Success([]) else json.unmarshal(decoded)
  }

  /** Reading back what `WriteChat` stored gives the same messages, with or
      without a secret. */
  lemma ReadChatAfterWrite(files: Files, path: string, ctx: Context, json: ChatCodec, nonce: Nonce, msgs: seq<Message>)
    requires Lawful(ctx.lib) && ChatCodecLawful(json)
    ensures ReadChat(files[path := ChatPayload(ctx, json, nonce, msgs)], path, ctx, json) == Success(msgs)
  {
    var data := json.marshal(msgs);
    NotEnvelopedByFirstByte(data);
    DecryptEncrypt(ctx, nonce, data);
    var payload := ChatPayload(ctx, json, nonce, msgs);
    assert payload != [] by {
      if ctx.secret != "" { assert HasPrefix(payload, Prefix); }
    }
  }

  /** `WriteChat` */
  method WriteChat(fs: FileStore, path: string, msgs: seq<Message>, ctx: Context, json: ChatCodec, nonce: Nonce, now: int)
    requires fs.Valid()
    modifies fs
    ensures fs.Valid()
    ensures fs.files == (old(fs.files) - {Tmp(path)})[path := ChatPayload(ctx, json, nonce, msgs)]
    ensures fs.mtimes == (old(fs.mtimes) - {Tmp(path)})[path := now]
    ensures Lawful(ctx.lib) && ChatCodecLawful(json) ==> ReadChat(fs.files, path, ctx, json) == Success(msgs)
  {
    var payload := MaybeEncrypt(ctx, nonce, json.marshal(msgs));
    ghost var _ := AtomicWrite(fs, path, payload, now);
    if Lawful(ctx.lib) && ChatCodecLawful(json) {
      assert ReadChat(fs.files, path, ctx, json) == ReadChat(fs.files[path := payload], path, ctx, json);
      ReadChatAfterWrite(fs.files, path, ctx, json, nonce, msgs);
    }
  }

  /** `AppendChat`: read, append one message, write back. */
  method AppendChat(fs: FileStore, path: string, msg: Message, ctx: Context, json: ChatCodec, nonce: Nonce, now: int)
    returns (err: Option<string>)
    requires fs.Valid()
    modifies fs
    ensures fs.Valid()
    ensures var before := ReadChat(old(fs.files), path, ctx, json);
      && (before.Failure? ==> err == Some(before.error) && fs.files == old(fs.files) && fs.mtimes == old(fs.mtimes))
      && (before.Success? ==>
            && err == None
            && fs.files == (old(fs.files) - {Tmp(path)})[path := ChatPayload(ctx, json, nonce, before.value + [msg])]
            && fs.mtimes == (old(fs.mtimes) - {Tmp(path)})[path := now]
            && (Lawful(ctx.lib) && ChatCodecLawful(json) ==>
                  ReadChat(fs.files, path, ctx, json) == Success(before.value + [msg])))
  {
    var msgs := ReadChat(fs.files, path, ctx, json);
    if msgs.Failure? {
      return Some(msgs.error);
    }
    WriteChat(fs, path, msgs.value + [msg], ctx, json, nonce, now);
    err := None;
  }

  /** `EnsureChatFile`: an existing file is left alone; a missing one is
      created holding the empty list. */
  method EnsureChatFile(fs: FileStore, path: string, ctx: Context, json: ChatCodec, nonce: Nonce, now: int)
    requires fs.Valid()
    modifies fs
    ensures fs.Valid()
    ensures path in old(fs.files) ==> fs.files == old(fs.files) && fs.mtimes == old(fs.mtimes)
    ensures path !in old(fs.files) ==>
      && fs.files == (old(fs.files) - {Tmp(path)})[path := ChatPayload(ctx, json, nonce, [])]
      && fs.mtimes == (old(fs.mtimes) - {Tmp(path)})[path := now]
    ensures path in fs.files
    ensures path !in old(fs.files) && Lawful(ctx.lib) && ChatCodecLawful(json) ==>
              ReadChat(fs.files, path, ctx, json) == Success([])
  {
    if path in fs.files {
      return;
    }
    WriteChat(fs, path, [], ctx, json, nonce, now);
  }

  /** `FileModified` */
  function FileModified(mtimes: Times, path: string): (r: Result<int>)
    ensures path in mtimes <==> r.Success?
    ensures r.Success? ==> r.value == mtimes[path]
    ensures r.Failure? ==> r.error == NotExist("stat", path)
  {
    if path in mtimes then Success(mtimes[path]) else Failure(NotExist("stat", path))
  }
}
