/** The `dalle` command of cmd/dalle/main.go: it shows the latest images of
    the output folder, asks for a new one and shows the result. The API call
    and the download are one input, the outcome of generating the images. */
module DalleCmd {
  import opened Wrappers
  import opened Text
  import opened Alfred
  import opened Dalle
  import opened Images

  const OriginalLabel := "Original Prompt: "
  const RevisedLabel := "Revised Prompt: "
  const Paragraph := "\n\n"

  /** `buildPromptText` */
  function BuildPromptText(original: string, revised: string): (t: string)
    ensures HasPrefix(t, OriginalLabel + original)
    ensures t == OriginalLabel + original <==> TrimSpace(revised) == ""
    ensures TrimSpace(revised) != "" ==> HasSuffix(t, Paragraph + RevisedLabel + revised)
    ensures TrimSpace(revised) != "" ==> t == OriginalLabel + original + Paragraph + RevisedLabel + revised
  {
    var head := OriginalLabel + original;
    if TrimSpace(revised) == "" then head
    else
      var tail := Paragraph + RevisedLabel + revised;
      assert (head + tail)[..|head|] == head;
      assert (head + tail)[|head|..] == tail;
      head + tail
  }

  /** "Generated with DALL-E via Alfred workflow.", in three pieces that the
      lemmas below inspect one at a time. */
  const Generated := GeneratedWith + ViaDalle + AlfredWorkflow
  const GeneratedWith := "Generated with "
  const ViaDalle := "DALL-E via "
  const AlfredWorkflow := "Alfred workflow."

  /** The description stored with a downloaded image. */
  function Description(original: string, revised: string): string {
    Generated + Paragraph + BuildPromptText(original, revised)
  }

  /** A line without a 'P' holds no " Prompt:". */
  lemma NoMarkerWithoutP(line: string)
    requires 'P' !in line
    ensures PromptMatch(line) == None
  {
    forall e: nat ensures !MarkerEndsAt(line, e) {
      if |Marker| <= e <= |line| {
        assert line[e - |Marker| + 1] in line;
        assert line[e - |Marker|..e][1] != Marker[1];
      }
    }
  }

  /** A line `tag + " Prompt: " + rest` matches through its first " Prompt:"
      when neither the tag holds a space nor " " + rest a " Prompt:". */
  lemma TaggedLine(tag: string, rest: string)
    requires ' ' !in tag
    requires forall e :: !MarkerEndsAt(" " + rest, e)
    ensures var line := tag + Marker + " " + rest;
      PromptMatch(line) == Some(|tag| + |Marker|)
      && Bolded(line, |tag| + |Marker|) == "**" + tag + Marker + "** " + rest
  {
    var line := tag + Marker + " " + rest;
    var p := |tag| + |Marker|;
    TaggedLineMatch(tag, rest);
    assert line[..p] == tag + Marker;
    assert line[p..] == " " + rest;
    assert "** " == "**" + " ";
    BoldRegroup("**", tag, Marker, " ", rest);
  }

  /** Proof helper: the regrouping `TaggedLine` needs. */
  lemma BoldRegroup(a: string, t: string, m: string, sp: string, r: string)
    ensures a + (t + m) + a + (sp + r) == a + t + m + (a + sp) + r
  {
    assert a + (t + m) == a + t + m;
    assert a + t + m + a + (sp + r) == a + t + m + a + sp + r;
    assert a + t + m + (a + sp) == a + t + m + a + sp;
  }

  /** The last " Prompt:" of such a line is the one after the tag. */
  lemma TaggedLineMatch(tag: string, rest: string)
    requires ' ' !in tag
    requires forall e :: !MarkerEndsAt(" " + rest, e)
    ensures PromptMatch(tag + Marker + " " + rest) == Some(|tag| + |Marker|)
  {
    var line := tag + Marker + " " + rest;
    var p := |tag| + |Marker|;
    assert line[p - |Marker|..p] == Marker;
    forall e | p < e <= |line| ensures !MarkerEndsAt(line, e) {
      if e - |Marker| < p {
        var i := e - |Marker|;
        assert |tag| < i;
        assert line[i] == Marker[i - |tag|];
        assert line[i] != ' ';
        assert line[e - |Marker|..e][0] == line[i];
      } else {
        var tail := " " + rest;
        assert line == tag + Marker + tail;
        assert line[e - |Marker|..e] == tail[e - |Marker| - p..e - p];
        assert !MarkerEndsAt(tail, e - p);
      }
    }
    assert MarkerEndsAt(line, p);
  }

  const BoldOriginal := "**Original Prompt:** "
  const BoldRevised := "**Revised Prompt:** "

  // Proof helpers. The lemmas from here to `GeneratedText`, and `JoinTwoMore`,
  // `Regroup` and `BoldRegroup`, state facts about the fixed texts and about
  // regrouping concatenations; they model nothing of the command and serve
  // only the description lemmas.

  /** The original-prompt label is a space-free tag and " Prompt: ". */
  lemma OriginalLabels()
    ensures OriginalLabel == "Original" + Marker + " " && ' ' !in "Original"
    ensures BoldOriginal == "**" + "Original" + Marker + "** "
  {
  }

  /** The revised-prompt label is a space-free tag and " Prompt: ". */
  lemma RevisedLabels()
    ensures RevisedLabel == "Revised" + Marker + " " && ' ' !in "Revised"
    ensures BoldRevised == "**" + "Revised" + Marker + "** "
  {
  }

  /** The fixed texts are single lines and the header holds no 'P'. */
  lemma FixedTexts()
    ensures Paragraph == "\n" + "" + "\n"
    ensures '\n' !in OriginalLabel && '\n' !in RevisedLabel
  {
  }

  /** Each piece of the header is a single line without a 'P'. */
  lemma GeneratedWithText()
    ensures '\n' !in GeneratedWith && 'P' !in GeneratedWith
  {
  }

  lemma ViaDalleText()
    ensures '\n' !in ViaDalle && 'P' !in ViaDalle
  {
  }

  lemma AlfredWorkflowText()
    ensures '\n' !in AlfredWorkflow && 'P' !in AlfredWorkflow
  {
  }

  /** The header is a single line without a 'P'. */
  lemma GeneratedText()
    ensures '\n' !in Generated && 'P' !in Generated
  {
    GeneratedWithText();
    ViaDalleText();
    AlfredWorkflowText();
  }

  /** A labelled prompt line reads back as the bold title and the prompt. */
  lemma LabelledLine(tag: string, title: string, bold: string, rest: string)
    requires title == tag + Marker + " " && ' ' !in tag && bold == "**" + tag + Marker + "** "
    requires forall e :: !MarkerEndsAt(" " + rest, e)
    ensures PromptMatch(title + rest).Some?
    ensures Bolded(title + rest, PromptMatch(title + rest).value) == bold + rest
  {
    TaggedLine(tag, rest);
    assert title + rest == tag + Marker + " " + rest;
    assert bold + rest == "**" + tag + Marker + "** " + rest;
  }

  lemma JoinThree(a: string, b: string, c: string, sep: string)
    ensures Join([a, b, c], sep) == a + sep + b + sep + c
  {
    assert [a, b, c][1..] == [b, c];
    assert [b, c][1..] == [c];
    assert Join([c], sep) == c;
    assert Join([b, c], sep) == b + sep + c;
    assert a + sep + (b + sep + c) == a + sep + b + sep + c;
  }

  /** Proof helper: `Join` of two parts followed by more. */
  lemma JoinTwoMore(a: string, b: string, rest: seq<string>, sep: string)
    requires rest != []
    ensures Join([a, b] + rest, sep) == a + sep + b + sep + Join(rest, sep)
  {
    assert ([a, b] + rest)[1..] == [b] + rest;
    assert ([b] + rest)[1..] == rest;
    assert Join([b] + rest, sep) == b + sep + Join(rest, sep);
    assert a + sep + (b + sep + Join(rest, sep)) == a + sep + b + sep + Join(rest, sep);
  }

  /** Two lines with a blank line between them. */
  lemma SplitParagraphs2(a: string, c: string, par: string)
    requires '\n' !in a && '\n' !in c && par == "\n" + "" + "\n"
    ensures Split(a + par + c, '\n') == [a, "", c]
  {
    JoinThree(a, "", c, "\n");
    assert a + par + c == a + "\n" + "" + "\n" + c;
    SplitJoin([a, "", c], '\n');
  }

  /** Three lines with blank lines between them. */
  lemma SplitParagraphs3(a: string, c: string, e: string, par: string)
    requires '\n' !in a && '\n' !in c && '\n' !in e && par == "\n" + "" + "\n"
    ensures Split(a + par + (c + par + e), '\n') == [a, "", c, "", e]
  {
    var tail := c + "\n" + "" + "\n" + e;
    JoinThree(c, "", e, "\n");
    JoinTwoMore(a, "", [c, "", e], "\n");
    assert [a, ""] + [c, "", e] == [a, "", c, "", e];
    assert Join([a, "", c, "", e], "\n") == a + "\n" + "" + "\n" + tail;
    assert a + par + (c + par + e) == a + "\n" + "" + "\n" + tail;
    SplitJoin([a, "", c, "", e], '\n');
  }

  /** Proof helper: the regrouping the description lemmas need. */
  lemma Regroup(a: string, b: string, c: string, d: string)
    ensures a + (b + c + d) == a + b + (c + d)
  {
    assert a + (b + c + d) == a + b + c + d;
  }

  /** The lines of a description under a single-line header `g`. */
  lemma HeadedLines(g: string, original: string, revised: string)
    requires '\n' !in g && '\n' !in original && '\n' !in revised
    ensures TrimSpace(revised) == "" ==>
      Split(g + Paragraph + BuildPromptText(original, revised), '\n') == [g, "", OriginalLabel + original]
    ensures TrimSpace(revised) != "" ==>
      Split(g + Paragraph + BuildPromptText(original, revised), '\n')
        == [g, "", OriginalLabel + original, "", RevisedLabel + revised]
  {
    FixedTexts();
    var o := OriginalLabel + original;
    var r := RevisedLabel + revised;
    assert '\n' !in o && '\n' !in r;
    if TrimSpace(revised) == "" {
      SplitParagraphs2(g, o, Paragraph);
    } else {
      Regroup(o, Paragraph, RevisedLabel, revised);
      SplitParagraphs3(g, o, r, Paragraph);
    }
  }

  /** The lines of a description. */
  lemma DescriptionLines(original: string, revised: string)
    requires '\n' !in original && '\n' !in revised
    ensures TrimSpace(revised) == "" ==>
      Split(Description(original, revised), '\n') == [Generated, "", OriginalLabel + original]
    ensures TrimSpace(revised) != "" ==>
      Split(Description(original, revised), '\n')
        == [Generated, "", OriginalLabel + original, "", RevisedLabel + revised]
  {
    GeneratedText();
    HeadedLines(Generated, original, revised);
  }

  /** A description under a header `g` without a 'P' and without a revised
      prompt: one bold line. */
  lemma HeadedPromptSingle(g: string, original: string, revised: string)
    requires '\n' !in g && 'P' !in g
    requires '\n' !in original && '\n' !in revised && TrimSpace(revised) == ""
    requires forall e :: !MarkerEndsAt(" " + original, e)
    ensures PromptText(Success(g + Paragraph + BuildPromptText(original, revised))) == BoldOriginal + original
  {
    var text := g + Paragraph + BuildPromptText(original, revised);
    var o := OriginalLabel + original;
    var bo := BoldOriginal + original;
    OriginalLabels();
    LabelledLine("Original", OriginalLabel, BoldOriginal, original);
    NoMarkerWithoutP(g);
    NoMarkerWithoutP("");
    HeadedLines(g, original, revised);
    PromptLinesThree(g, o, bo);
    assert |text| >= |Paragraph| > 0;
    assert PromptText(Success(text)) == Join([bo], "\n\n");
  }

  /** A description under a header `g` without a 'P' and with a revised
      prompt: two bold lines, a blank line between them. */
  lemma HeadedPromptDouble(g: string, original: string, revised: string)
    requires '\n' !in g && 'P' !in g
    requires '\n' !in original && '\n' !in revised && TrimSpace(revised) != ""
    requires forall e :: !MarkerEndsAt(" " + original, e)
    requires forall e :: !MarkerEndsAt(" " + revised, e)
    ensures PromptText(Success(g + Paragraph + BuildPromptText(original, revised)))
      == BoldOriginal + original + (Paragraph + BoldRevised + revised)
  {
    var text := g + Paragraph + BuildPromptText(original, revised);
    var o := OriginalLabel + original;
    var r := RevisedLabel + revised;
    var bo := BoldOriginal + original;
    var br := BoldRevised + revised;
    OriginalLabels();
    RevisedLabels();
    LabelledLine("Original", OriginalLabel, BoldOriginal, original);
    LabelledLine("Revised", RevisedLabel, BoldRevised, revised);
    NoMarkerWithoutP(g);
    NoMarkerWithoutP("");
    HeadedLines(g, original, revised);
    PromptLinesFive(g, o, bo, r, br);
    assert |text| >= |Paragraph| > 0;
    assert PromptText(Success(text)) == Join([bo, br], "\n\n");
    assert Join([bo, br], Paragraph) == bo + Paragraph + br;
    Regroup(bo, Paragraph, BoldRevised, revised);
  }

  /** The prompt lines of a description under a header `g` without a 'P'. */
  lemma HeadedPrompt(g: string, original: string, revised: string)
    requires '\n' !in g && 'P' !in g
    requires '\n' !in original && '\n' !in revised
    requires forall e :: !MarkerEndsAt(" " + original, e)
    requires forall e :: !MarkerEndsAt(" " + revised, e)
    ensures PromptText(Success(g + Paragraph + BuildPromptText(original, revised))) ==
      BoldOriginal + original
      + (if TrimSpace(revised) == "" then "" else Paragraph + BoldRevised + revised)
  {
    if TrimSpace(revised) == "" {
      HeadedPromptSingle(g, original, revised);
      assert BoldOriginal + original + "" == BoldOriginal + original;
    } else {
      HeadedPromptDouble(g, original, revised);
    }
  }

  /** The description written with an image (cmd/dalle/main.go:178-179) reads
      back through `ExtractPrompt` as the bold prompt lines, provided the
      prompts are single lines that hold no " Prompt:" of their own. */
  lemma DescriptionPrompt(original: string, revised: string)
    requires '\n' !in original && '\n' !in revised
    requires forall e :: !MarkerEndsAt(" " + original, e)
    requires forall e :: !MarkerEndsAt(" " + revised, e)
    ensures PromptText(Success(Description(original, revised))) ==
      BoldOriginal + original
      + (if TrimSpace(revised) == "" then "" else Paragraph + BoldRevised + revised)
  {
    GeneratedText();
    HeadedPrompt(Generated, original, revised);
  }

  /** A header line, a blank line and one prompt line. */
  lemma PromptLinesThree(g: string, o: string, bo: string)
    requires PromptMatch(g).None? && PromptMatch("").None?
    requires PromptMatch(o).Some? && Bolded(o, PromptMatch(o).value) == bo
    ensures PromptLines([g, "", o]) == [bo]
  {
    PromptLinesSnoc([], g);
    PromptLinesSnoc([g], "");
    assert [g] == [] + [g];
    assert [g, ""] == [g] + [""];
    PromptLinesSnoc([g, ""], o);
    assert [g, "", o] == [g, ""] + [o];
  }

  /** A header line and two prompt lines, with blank lines between them. */
  lemma PromptLinesFive(g: string, o: string, bo: string, r: string, br: string)
    requires PromptMatch(g).None? && PromptMatch("").None?
    requires PromptMatch(o).Some? && Bolded(o, PromptMatch(o).value) == bo
    requires PromptMatch(r).Some? && Bolded(r, PromptMatch(r).value) == br
    ensures PromptLines([g, "", o, "", r]) == [bo, br]
  {
    PromptLinesThree(g, o, bo);
    PromptLinesSnoc([g, "", o], "");
    PromptLinesSnoc([g, "", o, ""], r);
    assert [g, "", o, ""] == [g, "", o] + [""];
    assert [g, "", o, "", r] == [g, "", o, ""] + [r];
  }

  const ScrollEnd := map["scroll" := "end"]
  const LoadedPrevious := map["loaded_previous" := "true"]

  /** `respondWithPreviousError` */
  method RespondWithPreviousError(previous: string, prompt: string, err: string) returns (resp: Response)
    ensures resp.response ==
      (if previous == "" then "" else previous + Paragraph) + BoldOriginal + prompt + Paragraph + err
    ensures HasPrefix(resp.response, previous) && HasSuffix(resp.response, err)
    ensures resp.rerun == 0.0 && resp.variables == map[] && resp.footer == ""
    ensures resp.behaviour == map["response" := "append", "scroll" := "end"]
  {
    var message := previous;
    if message != "" {
      message := message + Paragraph;
    }
    var tail := BoldOriginal + prompt + Paragraph + err;
    assert HasPrefix(message, previous);
    AffixesOfConcat(BoldOriginal + prompt + Paragraph, err, [], err);
    AffixesOfConcat(message, tail, previous, err);
    message := message + tail;
    resp := Response(message, 0.0, map[], map["response" := "append", "scroll" := "end"], "");
  }

  /** `f` applied to each element, in order. */
  function MapSeq<T, U>(s: seq<T>, f: T -> U): (r: seq<U>)
    ensures |r| == |s|
    ensures forall i :: 0 <= i < |s| ==> r[i] == f(s[i])
    decreases |s|
  {
    if s == [] then [] else MapSeq(s[..|s| - 1], f) + [f(s[|s| - 1])]
  }

  /** The markdown of each image, in order, under `meta`'s descriptions. */
  function Markdowns(paths: seq<string>, meta: string -> Result<string>): (r: seq<string>)
    ensures |r| == |paths|
    ensures forall i :: 0 <= i < |paths| ==> r[i] == MarkdownFor(paths[i], meta(paths[i]))
  {
    MapSeq(paths, path => MarkdownFor(path, meta(path)))
  }

  lemma MarkdownsStep(paths: seq<string>, i: nat, meta: string -> Result<string>)
    requires i < |paths|
    ensures Markdowns(paths[..i + 1], meta) == Markdowns(paths[..i], meta) + [MarkdownFor(paths[i], meta(paths[i]))]
  {
    var ps := paths[..i + 1];
    assert ps[..|ps| - 1] == paths[..i];
    assert ps[|ps| - 1] == paths[i];
  }

  /** The loop both `previousMarkdown` and `run` run over a list of paths. */
  method MarkdownList(paths: seq<string>, meta: string -> Result<string>) returns (markdown: seq<string>)
    ensures markdown == Markdowns(paths, meta)
  {
    markdown := [];
    for i := 0 to |paths|
      invariant markdown == Markdowns(paths[..i], meta)
    {
      var md := MarkdownImage(paths[i], meta(paths[i]));
      MarkdownsStep(paths, i, meta);
      markdown := markdown + [md];
    }
    assert paths[..|paths|] == paths;
  }

  /** `previousMarkdown`: the markdown of the latest `max` images of the
      listing, oldest name first. */
  method PreviousMarkdown(folder: string, listing: Result<seq<DirEntry>>, meta: string -> Result<string>, max: int)
    returns (r: Result<seq<string>>)
    requires max >= 0
    ensures listing.Failure? ==> r == Failure(listing.error)
    ensures listing.Success? ==> r == Success(Markdowns(Latest(PngPaths(folder, listing.value), max), meta))
  {
    var images := LatestImages(folder, listing, max);
    if images.Failure? {
      return Failure(images.error);
    }
    var markdown := MarkdownList(images.value, meta);
    r := Success(markdown);
  }

  /** The previous images as one response text. */
  function PreviousResponse(folder: string, entries: seq<DirEntry>, meta: string -> Result<string>): string {
    Join(Markdowns(Latest(PngPaths(folder, entries), 10), meta), "\n\n")
  }

  /** `run` once the environment is loaded. `loadedPrevious` is the
      `loaded_previous` variable, `listing` the output folder's listing,
      `meta` the image descriptions and `generated` the outcome of asking
      for the new image and downloading it: its paths, or the error text. */
  method Run(apiKey: string, folder: string, typedQuery: string, loadedPrevious: string,
             listing: Result<seq<DirEntry>>, meta: string -> Result<string>,
             generated: Result<seq<string>>)
    returns (resp: Response)
    ensures apiKey == "" ==> resp == RespondError("OpenAI API key missing")
    ensures apiKey != "" && listing.Failure? ==> resp == RespondError(listing.error)
    ensures apiKey != "" && listing.Success? ==>
      var previous := PreviousResponse(folder, listing.value, meta);
      if loadedPrevious == "" then
        resp == Response(previous, RerunInterval, LoadedPrevious, ScrollEnd, "")
      else if typedQuery == "" then
        resp == Response(previous, 0.0, LoadedPrevious, ScrollEnd, "")
      else if generated.Failure? then
        resp.response == (if previous == "" then "" else previous + Paragraph)
                         + BoldOriginal + typedQuery + Paragraph + generated.error
        && resp.rerun == 0.0 && resp.variables == map[]
        && resp.behaviour == map["response" := "append", "scroll" := "end"]
        && resp.footer == ""
      else
        resp == Response(Join(Markdowns(generated.value, meta), "\n\n"), 0.0, LoadedPrevious,
                         map["response" := "append"], "")
  {
    if apiKey == "" {
      return RespondError("OpenAI API key missing");
    }
    var previous := PreviousMarkdown(folder, listing, meta, 10);
    if previous.Failure? {
      return RespondError(previous.error);
    }
    var previousResponse := Join(previous.value, "\n\n");
    var variables := LoadedPrevious;
    if loadedPrevious == "" {
      return Response(previousResponse, RerunInterval, variables, ScrollEnd, "");
    }
    if typedQuery == "" {
      return Response(previousResponse, 0.0, variables, ScrollEnd, "");
    }
    if generated.Failure? {
      resp := RespondWithPreviousError(previousResponse, typedQuery, generated.error);
      return;
    }
    var markdown := MarkdownList(generated.value, meta);
    resp := Response(Join(markdown, "\n\n"), 0.0, variables, map["response" := "append"], "");
  }
}
