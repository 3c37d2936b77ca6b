/** Image-folder helpers of internal/workflow/dalle.go: the case-insensitive
    flag test and the selection of the newest PNG files. */
module Dalle {
  import opened Wrappers
  import opened Text

  /** `stringsEqualFold`: whether `value` equals one of `accepted`, ignoring case. */
  method StringsEqualFold(value: string, accepted: seq<string>) returns (found: bool)
    ensures found <==> exists i :: 0 <= i < |accepted| && EqualFold(value, accepted[i])
  {
    for i := 0 to |accepted|
      invariant forall j :: 0 <= j < i ==> !EqualFold(value, accepted[j])
    {
      if EqualFold(value, accepted[i]) {
        return true;
      }
    }
    return false;
  }

  /** The `dalle_write_metadata` rule of `LoadDalleEnv`: "1", "true" or "yes",
      in any case. */
  method IncludeMetadata(setting: string) returns (enabled: bool)
    ensures enabled <==> Lower(setting) in {"1", "true", "yes"}
  {
    var accepted := ["1", "true", "yes"];
    enabled := StringsEqualFold(setting, accepted);
    assert enabled <==> EqualFold(setting, "1") || EqualFold(setting, "true") || EqualFold(setting, "yes") by {
      assert accepted[0] == "1" && accepted[1] == "true" && accepted[2] == "yes";
    }
    EqualFoldIsLowerEquality(setting, "1");
    EqualFoldIsLowerEquality(setting, "true");
    EqualFoldIsLowerEquality(setting, "yes");
    assert Lower("1") == "1" && Lower("true") == "true" && Lower("yes") == "yes";
  }

  /** One entry of `os.ReadDir`. */
  datatype DirEntry = DirEntry(name: string, isDir: bool)

  /** The backward scan of `filepath.Ext` over `path[..i]`. */
  function ExtBefore(path: string, i: nat): (e: string)
    requires i <= |path|
    ensures HasSuffix(path, e) && (e == "" || e[0] == '.')
    decreases i
  {
    if i == 0 || path[i - 1] == '/' then ""
    else if path[i - 1] == '.' then path[i - 1..]
    else ExtBefore(path, i - 1)
  }

  /** Some '/' lies in `path[lo..hi]`. */
  ghost predicate SlashIn(path: string, lo: int, hi: int) {
    exists k :: lo <= k < hi && 0 <= k < |path| && path[k] == '/'
  }

  /** The scan finds nothing exactly when every '.' before `i` has a '/'
      after it; otherwise it stops at the last '.' before `i` that no '/'
      follows. */
  lemma {:induction false} ExtBeforeSpec(path: string, i: nat)
    requires i <= |path|
    ensures var e := ExtBefore(path, i);
      && (e == "" ==> forall j :: 0 <= j < i && path[j] == '.' ==> SlashIn(path, j + 1, i))
      && (e != "" ==>
            && |path| - |e| < i && path[|path| - |e|] == '.'
            && forall k :: |path| - |e| < k < i ==> path[k] != '.' && path[k] != '/')
    decreases i
  {
    if i == 0 {
    } else if path[i - 1] == '/' {
      assert forall j :: 0 <= j < i && path[j] == '.' ==> j + 1 <= i - 1;
    } else if path[i - 1] == '.' {
    } else {
      ExtBeforeSpec(path, i - 1);
    }
  }

  /** `filepath.Ext`: "" when no '.' follows the last '/'; otherwise the
      suffix that starts at the last '.' of the final path element. */
  function Ext(path: string): (e: string)
    ensures HasSuffix(path, e) && (e == "" || e[0] == '.')
    ensures e == "" <==> forall j :: 0 <= j < |path| && path[j] == '.' ==> SlashIn(path, j + 1, |path|)
    ensures e != "" ==>
      && path[|path| - |e|] == '.'
      && forall k :: |path| - |e| < k < |path| ==> path[k] != '.' && path[k] != '/'
  {
    ExtBeforeSpec(path, |path|);
    ExtBefore(path, |path|)
  }

  predicate IsPng(name: string) {
    EqualFold(Ext(name), ".png")
  }

  /** A name has a PNG extension exactly when it ends in ".png", in any case. */
  lemma IsPngIff(name: string)
    ensures IsPng(name) <==> |name| >= 4 && EqualFold(name[|name| - 4..], ".png")
  {
    var n := |name|;
    if n >= 4 && EqualFold(name[n - 4..], ".png") {
      var tail := name[n - 4..];
      assert tail[0] == name[n - 4] && tail[1] == name[n - 3] && tail[2] == name[n - 2] && tail[3] == name[n - 1];
      assert LowerChar(tail[3]) == LowerChar(".png"[3]) == 'g';
      assert LowerChar(tail[2]) == LowerChar(".png"[2]) == 'n';
      assert LowerChar(tail[1]) == LowerChar(".png"[1]) == 'p';
      assert LowerChar(tail[0]) == LowerChar(".png"[0]) == '.';
      assert ExtBefore(name, n) == ExtBefore(name, n - 1);
      assert ExtBefore(name, n - 1) == ExtBefore(name, n - 2);
      assert ExtBefore(name, n - 2) == ExtBefore(name, n - 3);
      assert ExtBefore(name, n - 3) == tail;
    }
    if IsPng(name) {
      var e := Ext(name);
      assert |e| == 4;
      assert name[n - 4..] == e;
    }
  }

  predicate Keeps(e: DirEntry) {
    !e.isDir && IsPng(e.name)
  }

  /** The paths the listing loop collects, in listing order. */
  function PngPaths(folder: string, entries: seq<DirEntry>): seq<string>
    decreases |entries|
  {
    if entries == [] then []
    else
      var e := entries[|entries| - 1];
      PngPaths(folder, entries[..|entries| - 1]) + (if Keeps(e) then [JoinPath(folder, e.name)] else [])
  }

  /** The collected paths are those of the non-directory PNG entries. */
  lemma {:induction false} PngPathsMembers(folder: string, entries: seq<DirEntry>, x: string)
    ensures x in PngPaths(folder, entries) <==>
            exists i :: 0 <= i < |entries| && Keeps(entries[i]) && x == JoinPath(folder, entries[i].name)
    decreases |entries|
  {
    if entries != [] {
      var init := entries[..|entries| - 1];
      PngPathsMembers(folder, init, x);
      forall i | 0 <= i < |init| ensures init[i] == entries[i] { }
    }
  }

  /** Go's string order: byte-wise, which on UTF-8 text is code-point order. */
  predicate Less(a: string, b: string)
    decreases |a|
  {
    if a == [] then b != []
    else if b == [] then false
    else if a[0] != b[0] then a[0] < b[0]
    else Less(a[1..], b[1..])
  }

  predicate LessEq(a: string, b: string) {
    a == b || Less(a, b)
  }

  lemma {:induction false} LessIrreflexive(a: string)
    ensures !Less(a, a)
    decreases |a|
  {
    if a != [] { LessIrreflexive(a[1..]); }
  }

  lemma {:induction false} LessTotal(a: string, b: string)
    ensures a == b || Less(a, b) || Less(b, a)
    decreases |a|
  {
    if a != [] && b != [] && a[0] == b[0] {
      LessTotal(a[1..], b[1..]);
      if a[1..] == b[1..] { assert a == [a[0]] + a[1..] && b == [b[0]] + b[1..]; }
    }
  }

  lemma {:induction false} LessAsymmetric(a: string, b: string)
    ensures !(Less(a, b) && Less(b, a))
    decreases |a|
  {
    if a != [] && b != [] && a[0] == b[0] { LessAsymmetric(a[1..], b[1..]); }
  }

  lemma {:induction false} LessTransitive(a: string, b: string, c: string)
    requires Less(a, b) && Less(b, c)
    ensures Less(a, c)
    decreases |a|
  {
    if a != [] && a[0] == b[0] && b[0] == c[0] {
      LessTransitive(a[1..], b[1..], c[1..]);
    }
  }

  lemma LessEqTransitive(a: string, b: string, c: string)
    requires LessEq(a, b) && LessEq(b, c)
    ensures LessEq(a, c)
  {
    if Less(a, b) && Less(b, c) { LessTransitive(a, b, c); }
  }

  predicate Sorted(s: seq<string>) {
    forall i, j :: 0 <= i < j < |s| ==> LessEq(s[i], s[j])
  }

  /** Inserts `x` before the first element not below it. */
  function Insert(x: string, s: seq<string>): seq<string>
    decreases |s|
  {
    if s == [] then [x]
    else if LessEq(x, s[0]) then [x] + s
    else [s[0]] + Insert(x, s[1..])
  }

  lemma {:induction false} InsertSpec(x: string, s: seq<string>)
    requires Sorted(s)
    ensures Sorted(Insert(x, s)) && multiset(Insert(x, s)) == multiset(s) + multiset{x}
    decreases |s|
  {
    if s == [] {
    } else if LessEq(x, s[0]) {
      forall y | y in multiset(s) ensures LessEq(x, y) {
        var j :| 0 <= j < |s| && s[j] == y;
        LessEqTransitive(x, s[0], s[j]);
      }
      ReorderSorted(x, s);
    } else {
      InsertSpec(x, s[1..]);
      InsertBehind(x, s, Insert(x, s[1..]));
    }
  }

  /** When `x` goes after the head, the head stays in front of the rest with
      `x` inserted. */
  lemma InsertBehind(x: string, s: seq<string>, rest: seq<string>)
    requires Sorted(s) && s != [] && !LessEq(x, s[0])
    requires Sorted(rest) && multiset(rest) == multiset(s[1..]) + multiset{x}
    ensures Sorted([s[0]] + rest) && multiset([s[0]] + rest) == multiset(s) + multiset{x}
  {
    assert s == [s[0]] + s[1..];
    LessTotal(x, s[0]);
    forall y | y in multiset(rest) ensures LessEq(s[0], y) {
      if y != x {
        assert y in multiset(s[1..]);
        var j :| 0 <= j < |s[1..]| && s[1..][j] == y;
        assert s[1..][j] == s[j + 1];
      }
    }
    ReorderSorted(s[0], rest);
  }

  lemma ReorderSorted(h: string, rest: seq<string>)
    requires Sorted(rest)
    requires forall y :: y in multiset(rest) ==> LessEq(h, y)
    ensures Sorted([h] + rest)
  {
    var r := [h] + rest;
    forall i, j | 0 <= i < j < |r| ensures LessEq(r[i], r[j]) {
      if i == 0 {
        assert r[j] == rest[j - 1] && r[j] in multiset(rest);
      } else {
        assert r[i] == rest[i - 1] && r[j] == rest[j - 1];
      }
    }
  }

  /** `sort.Strings`: a sorted permutation of its input. */
  function SortStrings(s: seq<string>): (r: seq<string>)
    ensures Sorted(r) && multiset(r) == multiset(s)
    decreases |s|
  {
    if s == [] then []
    else
      assert s == [s[0]] + s[1..];
      InsertSpec(s[0], SortStrings(s[1..]));
      Insert(s[0], SortStrings(s[1..]))
  }

  lemma SortedSameHead(a: seq<string>, b: seq<string>)
    requires Sorted(a) && Sorted(b) && multiset(a) == multiset(b) && a != []
    ensures b != [] && a[0] == b[0]
  {
    assert a[0] in multiset(b);
    var i :| 0 <= i < |b| && b[i] == a[0];
    assert b[0] in multiset(a);
    var j :| 0 <= j < |a| && a[j] == b[0];
    assert LessEq(b[0], a[0]) && LessEq(a[0], b[0]);
    LessAsymmetric(a[0], b[0]);
  }

  /** A sorted arrangement of a list of strings is unique, so the result of
      `sort.Strings` does not depend on the sorting algorithm. */
  lemma {:induction false} SortedPermutationUnique(a: seq<string>, b: seq<string>)
    requires Sorted(a) && Sorted(b) && multiset(a) == multiset(b)
    ensures a == b
    decreases |a|
  {
    if a == [] {
      assert |b| == |multiset(b)| == 0;
    } else {
      SortedSameHead(a, b);
      TailMultiset(a);
      TailMultiset(b);
      assert Sorted(a[1..]) && Sorted(b[1..]);
      SortedPermutationUnique(a[1..], b[1..]);
      assert a == [a[0]] + a[1..] && b == [b[0]] + b[1..];
    }
  }

  lemma TailMultiset(a: seq<string>)
    requires a != []
    ensures multiset(a[1..]) == multiset(a) - multiset{a[0]}
  {
    assert a == [a[0]] + a[1..];
  }

  /** The sorted paths with only the greatest `max` kept. */
  function Latest(paths: seq<string>, max: nat): seq<string> {
    var s := SortStrings(paths);
    if |s| > max then s[|s| - max..] else s
  }

  /** `LatestImages`, with the directory listing as input: the non-directory
      PNG entries of `folder`, sorted, keeping the greatest `max`. */
  method LatestImages(folder: string, listing: Result<seq<DirEntry>>, max: int) returns (r: Result<seq<string>>)
    requires max >= 0
    ensures listing.Failure? ==> r == Failure(listing.error)
    ensures listing.Success? ==>
      var all := PngPaths(folder, listing.value);
      && r == Success(Latest(all, max))
      && Sorted(r.value)
      && |r.value| == (if |all| > max then max else |all|)
      && multiset(r.value) <= multiset(all)
      && (forall x, y :: x in r.value && y in multiset(all) - multiset(r.value) ==> LessEq(y, x))
  {
    if listing.Failure? {
      return Failure(listing.error);
    }
    var entries := listing.value;
    var files: seq<string> := [];
    for i := 0 to |entries|
      invariant files == PngPaths(folder, entries[..i])
    {
      var entry := entries[i];
      assert entries[..i + 1][..i] == entries[..i];
      if entry.isDir {
        continue;
      }
      if EqualFold(Ext(entry.name), ".png") {
        files := files + [JoinPath(folder, entry.name)];
      }
    }
    assert entries[..|entries|] == entries;
    ghost var all := files;
    files := SortStrings(files);
    if |files| > max {
      files := files[|files| - max..];
    }
    assert files == Latest(all, max);
    LatestSpec(all, max);
    r := Success(files);
  }

  /** `t` is sorted, is a sub-multiset of `all` as long as `max` allows, and
      nothing of `all` left out of it is above anything kept. */
  predicate KeepsGreatest(t: seq<string>, all: seq<string>, max: nat) {
    && Sorted(t)
    && |t| == (if |all| > max then max else |all|)
    && multiset(t) <= multiset(all)
    && (forall x, y :: x in t && y in multiset(all) - multiset(t) ==> LessEq(y, x))
  }

  /** `Latest` is sorted, as long as it may be, and holds the greatest paths. */
  lemma LatestSpec(all: seq<string>, max: nat)
    ensures KeepsGreatest(Latest(all, max), all, max)
  {
    var s := SortStrings(all);
    var t := if |s| > max then s[|s| - max..] else s;
    assert Latest(all, max) == t;
    KeepGreatestOf(s, all, max);
  }

  /** `KeepGreatest` for a sorted arrangement `s` of `all`. */
  lemma KeepGreatestOf(s: seq<string>, all: seq<string>, max: nat)
    requires Sorted(s) && multiset(s) == multiset(all)
    ensures KeepsGreatest(if |s| > max then s[|s| - max..] else s, all, max)
  {
    assert |s| == |all| by { assert |multiset(s)| == |multiset(all)|; }
    KeepGreatest(s, max);
  }

  /** Keeping the last `max` elements of a sorted list keeps its greatest
      elements, still sorted. */
  lemma KeepGreatest(s: seq<string>, max: nat)
    requires Sorted(s)
    ensures KeepsGreatest(if |s| > max then s[|s| - max..] else s, s, max)
  {
    if |s| > max {
      var k := |s| - max;
      var t := s[k..];
      assert Sorted(t) by {
        forall i, j | 0 <= i < j < |t| ensures LessEq(t[i], t[j]) {
          assert t[i] == s[k + i] && t[j] == s[k + j];
        }
      }
      assert s == s[..k] + t;
      assert multiset(s) - multiset(t) == multiset(s[..k]);
      DroppedBelowKept(s, k);
    }
  }

  /** In a sorted list, everything before index `k` is below everything from
      `k` on. */
  lemma DroppedBelowKept(s: seq<string>, k: nat)
    requires Sorted(s) && k <= |s|
    ensures forall x, y :: x in s[k..] && y in multiset(s[..k]) ==> LessEq(y, x)
  {
    forall x, y | x in s[k..] && y in multiset(s[..k]) ensures LessEq(y, x) {
      var a :| 0 <= a < k && s[..k][a] == y;
      var b :| 0 <= b < |s| - k && s[k..][b] == x;
      assert s[a] == y && s[k + b] == x;
    }
  }
}
