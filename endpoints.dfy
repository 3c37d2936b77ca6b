/** `NormalizeBaseURL` of internal/workflow/endpoints.go. URL parsing and
    rendering (`url.Parse`, `URL.String`) are not modelled: they are the
    function values of `UrlLib`. */
module Endpoints {
  import opened Wrappers
  import opened Text

  /** The parts of a parsed URL the normalisation looks at; `rest` stands for
      everything else (user, host, query, fragment). */
  datatype Url = Url(scheme: string, path: string, rest: string)

  datatype UrlLib = UrlLib(parse: string -> Result<Url>, render: Url -> string)

  /** The path after the suffix loop: the first suffix that equals the path
      clears it, the first one that ends it is cut off once. */
  function StripFirstSuffix(path: string, suffixes: seq<string>): string
    decreases |suffixes|
  {
    if suffixes == [] then path
    else if path == suffixes[0] then ""
    else if HasSuffix(path, suffixes[0]) then TrimSuffix(path, suffixes[0])
    else StripFirstSuffix(path, suffixes[1..])
  }

  /** The path after the suffix loop and the "/v1" default. */
  function NormalizedPath(path: string, suffixes: seq<string>): (p: string)
    ensures p != "" && p != "/"
  {
    var stripped := StripFirstSuffix(path, suffixes);
    if stripped == "" || stripped == "/" then "/v1" else stripped
  }

  /** Only the first suffix (in list order) that ends the path is removed,
      once; with none, the path is kept. */
  lemma {:induction false} StripFirstSuffixSpec(path: string, suffixes: seq<string>, k: nat)
    requires k <= |suffixes|
    requires forall j :: 0 <= j < k ==> !HasSuffix(path, suffixes[j])
    ensures k == |suffixes| ==> StripFirstSuffix(path, suffixes) == path
    ensures k < |suffixes| && HasSuffix(path, suffixes[k]) ==>
              StripFirstSuffix(path, suffixes) + suffixes[k] == path
    decreases k
  {
    if k > 0 {
      assert !HasSuffix(path, suffixes[0]);
      assert path != suffixes[0];
      var tail := suffixes[1..];
      forall j | 0 <= j < k - 1 ensures !HasSuffix(path, tail[j]) {
        assert tail[j] == suffixes[j + 1];
      }
      StripFirstSuffixSpec(path, tail, k - 1);
    } else if k < |suffixes| && HasSuffix(path, suffixes[0]) {
      if path == suffixes[0] {
        assert "" + suffixes[0] == path;
      }
    }
  }

  /** `NormalizeBaseURL` */
  method NormalizeBaseURL(lib: UrlLib, raw: string, defaultBase: string, trimSuffixes: seq<string>) returns (base: string)
    ensures raw == "" ==> base == defaultBase
    ensures raw != "" && (lib.parse(raw).Failure? || lib.parse(raw).value.scheme == "") ==> base == defaultBase
    ensures raw != "" && lib.parse(raw).Success? && lib.parse(raw).value.scheme != "" ==>
      var u := lib.parse(raw).value;
      && base == TrimRightChar(lib.render(u.(path := NormalizedPath(u.path, trimSuffixes))), '/')
      && (base == [] || base[|base| - 1] != '/')
  {
    if raw == "" {
      return defaultBase;
    }
    var parsed := lib.parse(raw);
    if parsed.Failure? || parsed.value.scheme == "" {
      return defaultBase;
    }
    var u := parsed.value;
    var i := 0;
    while i < |trimSuffixes|
      invariant 0 <= i <= |trimSuffixes|
      invariant u == parsed.value.(path := u.path) && u.path == parsed.value.path
      invariant StripFirstSuffix(u.path, trimSuffixes) == StripFirstSuffix(u.path, trimSuffixes[i..])
    {
      var suffix := trimSuffixes[i];
      assert trimSuffixes[i..][1..] == trimSuffixes[i + 1..];
      if u.path == suffix {
        u := u.(path := "");
        break;
      }
      if HasSuffix(u.path, suffix) {
        u := u.(path := TrimSuffix(u.path, suffix));
        break;
      }
      i := i + 1;
    }
    assert u.path == StripFirstSuffix(parsed.value.path, trimSuffixes);
    if u.path == "" || u.path == "/" {
      u := u.(path := "/v1");
    }
    base := TrimRightChar(lib.render(u), '/');
  }
}
