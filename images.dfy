/** Image naming and image markdown of internal/workflow/images.go. The
    Spotlight description of an image (read with `xattr`) is an input. */
module Images {
  import opened Wrappers
  import opened Text

  /** The calendar fields of the image's creation time, in local time. */
  datatype DateTime = DateTime(year: int, month: int, day: int, hour: int, minute: int, second: int)

  predicate WellFormed(t: DateTime) {
    1 <= t.month <= 12 && 1 <= t.day <= 31 && 0 <= t.hour < 24 && 0 <= t.minute < 60 && 0 <= t.second < 60
  }

  /** "YYYY.MM.DD.HH.MM.SS" */
  function Stamp(t: DateTime): string {
    FormatPadded(t.year, 4) + "." + FormatPadded(t.month, 2) + "." + FormatPadded(t.day, 2) + "."
      + FormatPadded(t.hour, 2) + "." + FormatPadded(t.minute, 2) + "." + FormatPadded(t.second, 2)
  }

  /** `BuildImageFilename` */
  function BuildImageFilename(baseDir: string, creation: DateTime, uid: string): (path: string)
    ensures HasSuffix(path, Stamp(creation) + "-" + uid + ".png")
  {
    var name := Stamp(creation) + "-" + uid + ".png";
    assert HasSuffix(baseDir + name, name);
    assert HasSuffix(baseDir + "/" + name, name);
    JoinPath(baseDir, name)
  }

  lemma TwoDigitField(n: int)
    requires 0 <= n < 100
    ensures |FormatPadded(n, 2)| == 2 && ParseDigits(FormatPadded(n, 2)) == n
    ensures IsDigit(FormatPadded(n, 2)[0]) && IsDigit(FormatPadded(n, 2)[1])
  {
    DigitsLength(n, 2);
    FormatPaddedRoundTrip(n, 2);
  }

  predicate AllDigits(s: string) {
    forall i :: 0 <= i < |s| ==> IsDigit(s[i])
  }

  lemma Field(n: int, width: nat)
    requires 0 <= n < Pow10(width) && width >= 1
    ensures |FormatPadded(n, width)| == width && AllDigits(FormatPadded(n, width))
    ensures ParseDigits(FormatPadded(n, width)) == n
  {
    DigitsLength(n, width);
    FormatPaddedRoundTrip(n, width);
  }

  lemma Slices(y: string, mo: string, d: string, h: string, mi: string, se: string)
    requires |y| == 4 && |mo| == 2 && |d| == 2 && |h| == 2 && |mi| == 2 && |se| == 2
    ensures var s := y + "." + mo + "." + d + "." + h + "." + mi + "." + se;
      && |s| == 19 && s[4] == '.' && s[7] == '.' && s[10] == '.' && s[13] == '.' && s[16] == '.'
      && s[0..4] == y && s[5..7] == mo && s[8..10] == d && s[11..13] == h && s[14..16] == mi && s[17..19] == se
  {
  }

  /** For a year of at most four digits the stamp is 19 characters with the
      fields at fixed offsets, and each field reads back as its value. */
  lemma StampLayout(t: DateTime)
    requires WellFormed(t) && 0 <= t.year <= 9999
    ensures var s := Stamp(t);
      && |s| == 19
      && s[4] == '.' && s[7] == '.' && s[10] == '.' && s[13] == '.' && s[16] == '.'
      && AllDigits(s[0..4]) && ParseDigits(s[0..4]) == t.year
      && AllDigits(s[5..7]) && ParseDigits(s[5..7]) == t.month
      && AllDigits(s[8..10]) && ParseDigits(s[8..10]) == t.day
      && AllDigits(s[11..13]) && ParseDigits(s[11..13]) == t.hour
      && AllDigits(s[14..16]) && ParseDigits(s[14..16]) == t.minute
      && AllDigits(s[17..19]) && ParseDigits(s[17..19]) == t.second
  {
    assert Pow10(2) == 100 && Pow10(4) == 10000 by {
      assert Pow10(1) == 10;
      assert Pow10(3) == 1000;
    }
    Field(t.year, 4);
    Field(t.month, 2);
    Field(t.day, 2);
    Field(t.hour, 2);
    Field(t.minute, 2);
    Field(t.second, 2);
    Slices(FormatPadded(t.year, 4), FormatPadded(t.month, 2), FormatPadded(t.day, 2),
           FormatPadded(t.hour, 2), FormatPadded(t.minute, 2), FormatPadded(t.second, 2));
  }

  const Marker := " Prompt:"

  /** Whether " Prompt:" ends at position `e` of `line`. */
  predicate MarkerEndsAt(line: string, e: nat) {
    |Marker| <= e <= |line| && line[e - |Marker|..e] == Marker
  }

  /** The last position up to `upto` where " Prompt:" ends. */
  function LastMarkerEnd(line: string, upto: nat): (r: Option<nat>)
    requires upto <= |line|
    ensures r.Some? ==> r.value <= upto && MarkerEndsAt(line, r.value)
    ensures forall e :: (if r.Some? then r.value else 0) < e <= upto ==> !MarkerEndsAt(line, e)
    decreases upto
  {
    if upto < |Marker| then None
    else if line[upto - |Marker|..upto] == Marker then Some(upto)
    else LastMarkerEnd(line, upto - 1)
  }

  /** The match of `^(.* Prompt:)`: `.` matches anything but a newline, which
      a split line never holds, and the greedy `.*` makes the match end where
      the last " Prompt:" ends. */
  function PromptMatch(line: string): Option<nat> {
    LastMarkerEnd(line, |line|)
  }

  /** `ReplaceAllString(line, "**$1**")` for a matching line. */
  function Bolded(line: string, e: nat): string
    requires e <= |line|
  {
    "**" + line[..e] + "**" + line[e..]
  }

  /** The matching lines, in order, each with its match in bold. */
  function PromptLines(lines: seq<string>): seq<string>
    decreases |lines|
  {
    if lines == [] then []
    else
      var last := lines[|lines| - 1];
      PromptLines(lines[..|lines| - 1])
      + (match PromptMatch(last) case Some(e) => [Bolded(last, e)] case None => [])
  }

  /** Adding a line at the end keeps what was kept before. */
  lemma PromptLinesSnoc(lines: seq<string>, x: string)
    ensures PromptLines(lines + [x]) == PromptLines(lines)
      + (match PromptMatch(x) case Some(e) => [Bolded(x, e)] case None => [])
  {
    assert (lines + [x])[..|lines|] == lines;
  }

  /** The prompt text shown for an image whose description read as `meta`. */
  function PromptText(meta: Result<string>): string {
    if meta.Failure? || meta.value == "" then ""
    else Join(PromptLines(Split(meta.value, '\n')), "\n\n")
  }

  /** `ExtractPrompt`, with the result of `ReadMetadata` as input. */
  method ExtractPrompt(meta: Result<string>) returns (prompt: string)
    ensures prompt == PromptText(meta)
    ensures meta.Failure? || meta.value == "" ==> prompt == ""
  {
    if meta.Failure? || meta.value == "" {
      return "";
    }
    var lines := Split(meta.value, '\n');
    var out: seq<string> := [];
    for i := 0 to |lines|
      invariant out == PromptLines(lines[..i])
    {
      var line := lines[i];
      assert lines[..i + 1][..i] == lines[..i];
      var m := PromptMatch(line);
      if m.Some? {
        out := out + [Bolded(line, m.value)];
      }
    }
    assert lines[..|lines|] == lines;
    prompt := Join(out, "\n\n");
  }

  /** A kept line is some original line with its " Prompt:" match put in bold. */
  predicate BoldedFrom(lines: seq<string>, out: string) {
    exists i, e: nat :: 0 <= i < |lines| && e <= |lines[i]| && MarkerEndsAt(lines[i], e) && out == Bolded(lines[i], e)
  }

  /** Every kept line comes from an original line, and nothing is kept when
      no line contains " Prompt:". */
  lemma {:induction false} PromptLinesSpec(lines: seq<string>)
    ensures |PromptLines(lines)| <= |lines|
    ensures forall k :: 0 <= k < |PromptLines(lines)| ==> BoldedFrom(lines, PromptLines(lines)[k])
    ensures (forall i :: 0 <= i < |lines| ==> PromptMatch(lines[i]).None?) ==> PromptLines(lines) == []
    decreases |lines|
  {
    if lines != [] {
      var init := lines[..|lines| - 1];
      var last := lines[|lines| - 1];
      PromptLinesSpec(init);
      var out := PromptLines(lines);
      var prev := PromptLines(init);
      forall k | 0 <= k < |out| ensures BoldedFrom(lines, out[k]) {
        if k < |prev| {
          assert out[k] == prev[k];
          var i, e: nat :| 0 <= i < |init| && e <= |init[i]| && MarkerEndsAt(init[i], e) && prev[k] == Bolded(init[i], e);
          assert init[i] == lines[i];
        } else {
          var e := PromptMatch(last).value;
          assert out[k] == Bolded(last, e);
          assert MarkerEndsAt(lines[|lines| - 1], e);
        }
      }
      if forall i :: 0 <= i < |lines| ==> PromptMatch(lines[i]).None? {
        assert forall i :: 0 <= i < |init| ==> init[i] == lines[i];
        assert PromptMatch(last).None?;
      }
    }
  }

  const NoPrompt := "**No prompt found**"

  lemma NoPromptBold()
    ensures HasPrefix(NoPrompt, "**")
  {
    assert NoPrompt[..2] == "**";
  }

  /** The markdown link to the image file. */
  function ImageLink(path: string): string {
    "\n![](" + path + ")"
  }

  /** The markdown shown for one image: its prompt, or a placeholder when it
      has none, and then the image itself. */
  function MarkdownFor(path: string, meta: Result<string>): string {
    (if PromptText(meta) == "" then NoPrompt else PromptText(meta)) + ImageLink(path)
  }

  /** The entry always opens in bold and always ends with the image link. */
  lemma MarkdownForShape(path: string, meta: Result<string>)
    ensures HasPrefix(MarkdownFor(path, meta), "**")
    ensures HasSuffix(MarkdownFor(path, meta), ImageLink(path))
  {
    var p := PromptText(meta);
    if p != "" {
      var lines := PromptLines(Split(meta.value, '\n'));
      assert lines != [];
      PromptLinesSpec(Split(meta.value, '\n'));
      assert BoldedFrom(Split(meta.value, '\n'), lines[0]);
      assert HasPrefix(lines[0], "**");
      JoinHead(lines, "\n\n");
    } else {
      NoPromptBold();
    }
    var head := if p == "" then NoPrompt else p;
    AffixesOfConcat(head, ImageLink(path), "**", ImageLink(path));
  }

  /** `MarkdownImage`, with the image's description as input. */
  method MarkdownImage(path: string, meta: Result<string>) returns (md: string)
    ensures md == MarkdownFor(path, meta)
  {
    var prompt := ExtractPrompt(meta);
    if prompt == "" {
      prompt := NoPrompt;
    }
    md := prompt + ImageLink(path);
  }
}
