/** The PDF form of the digest: the cleaning of HTML fragments for the fallback
    renderer, the default file name, the order in which the two renderers are
    tried, the image references resolved for the preferred renderer, and the
    paragraphs of a signal card in the fallback layout. Whether each renderer is
    installed and how it fares are parameters. */
module Pdf {
  import opened Model
  import opened Text
  import Gmail
  import Composer

  // ---------------------------------------------------------------- _clean_html

  /** The tag pattern `<[^>]+>` matches at `i`: a "<", at least one character that is
      not ">", then a ">". Its `[^>]+` stops at the first ">", so a match exists
      exactly when the next character is not ">" and a ">" follows later. */
  predicate TagAt(s: string, i: int)
    requires 0 <= i < |s|
  {
    s[i] == '<' && i + 1 < |s| && s[i + 1] != '>' && '>' in s[i + 2..]
  }

  /** The tag pattern matches nowhere. */
  predicate TagFree(s: string) {
    forall i :: 0 <= i < |s| ==> !TagAt(s, i)
  }

  /** `re.sub(r"<[^>]+>", " ", s)`: scanning from the left, each match becomes one
      space and scanning resumes after it. */
  function StripTags(s: string): (r: string)
    ensures '>' !in s ==> '>' !in r
    decreases |s|
  {
    if s == [] then []
    else if TagAt(s, 0) then
      IndexOfFound(s[2..], '>');
      var j := 2 + IndexOf(s[2..], '>');
      " " + StripTags(s[j + 1..])
    else
      [s[0]] + StripTags(s[1..])
  }

  /** A character that occurs is found before the end. */
  lemma {:induction false} IndexOfFound(s: string, c: char)
    requires c in s
    ensures IndexOf(s, c) < |s|
  {
    if s[0] != c {
      assert c in s[1..];
      IndexOfFound(s[1..], c);
    }
  }

  /** `s` without its leading whitespace. */
  function DropSpaces(s: string): (r: string)
    ensures |r| <= |s| && r == s[|s| - |r|..]
    ensures r == [] || !IsSpace(r[0])
    ensures s != [] && IsSpace(s[0]) ==> |r| < |s|
  {
    s[StripStart(s, 0)..]
  }

  /** `re.sub(r"\s+", " ", s)`: every run of whitespace becomes one space. */
  function Collapse(s: string): (r: string)
    ensures '>' !in s ==> '>' !in r
    ensures s != [] && !IsSpace(s[0]) ==> r != [] && r[0] == s[0]
    ensures s != [] && IsSpace(s[0]) ==> r != [] && r[0] == ' '
    decreases |s|
  {
    if s == [] then []
    else if IsSpace(s[0]) then
      " " + Collapse(DropSpaces(s))
    else
      [s[0]] + Collapse(s[1..])
  }

  /** `_clean_html`: "" for empty text; otherwise tags become spaces, whitespace runs
      one space, and the ends are stripped. */
  function CleanHtml(text: string): string {
    if text == "" then "" else Strip(Collapse(StripTags(text)))
  }

  /** The only whitespace is single spaces. */
  predicate SingleSpaced(s: string) {
    forall k :: 0 <= k < |s| && IsSpace(s[k]) ==> s[k] == ' ' && (k + 1 < |s| ==> !IsSpace(s[k + 1]))
  }

  /** Putting a character in front keeps a text tag-free unless it opens a tag. */
  lemma TagFreeCons(c: char, t: string)
    requires TagFree(t)
    requires c == '<' ==> t == [] || t[0] == '>' || '>' !in t[1..]
    ensures TagFree([c] + t)
  {
    var s := [c] + t;
    forall i | 0 <= i < |s|
      ensures !TagAt(s, i)
    {
      if i > 0 && i + 2 <= |s| {
        assert s[i + 2..] == t[i + 1..];
        assert !TagAt(t, i - 1);
      }
    }
  }

  /** A piece of a tag-free text is tag-free. */
  lemma TagFreeInfix(s: string, a: nat, b: nat)
    requires a <= b <= |s| && TagFree(s)
    ensures TagFree(s[a..b])
  {
    var t := s[a..b];
    forall i | 0 <= i < |t|
      ensures !TagAt(t, i)
    {
      assert !TagAt(s, a + i);
      if i + 2 <= |t| && '>' in t[i + 2..] {
        var k :| 0 <= k < |t[i + 2..]| && t[i + 2..][k] == '>';
        assert s[a + i + 2..][k] == '>';
      }
    }
  }

  /** A piece of a single-spaced text is single-spaced. */
  lemma SingleSpacedInfix(s: string, a: nat, b: nat)
    requires a <= b <= |s| && SingleSpaced(s)
    ensures SingleSpaced(s[a..b])
  {
    var t := s[a..b];
    forall k | 0 <= k < |t| && IsSpace(t[k])
      ensures t[k] == ' ' && (k + 1 < |t| ==> !IsSpace(t[k + 1]))
    {
      assert t[k] == s[a + k];
      if k + 1 < |t| {
        assert t[k + 1] == s[a + k + 1];
      }
    }
  }

  /** Whatever is stripped of tags is tag-free. */
  lemma {:induction false} StripTagsTagFree(s: string)
    ensures TagFree(StripTags(s))
    decreases |s|
  {
    if s != [] {
      if TagAt(s, 0) {
        IndexOfFound(s[2..], '>');
        var j := 2 + IndexOf(s[2..], '>');
        StripTagsTagFree(s[j + 1..]);
        TagFreeCons(' ', StripTags(s[j + 1..]));
        assert StripTags(s) == [' '] + StripTags(s[j + 1..]);
      } else {
        StripTagsTagFree(s[1..]);
        StripTagsTagFreeChar(s);
      }
    }
  }

  /** A first character that opens no tag is kept, and keeps the result tag-free. */
  lemma {:induction false} StripTagsTagFreeChar(s: string)
    requires s != [] && !TagAt(s, 0) && TagFree(StripTags(s[1..]))
    ensures TagFree(StripTags(s))
  {
    if s[0] == '<' && |s| > 1 {
      StrippedAfterOpen(s);
    }
    TagFreeCons(s[0], StripTags(s[1..]));
    assert StripTags(s) == [s[0]] + StripTags(s[1..]);
  }

  /** A `<` that does not open a tag stays harmless once the rest is stripped:
      what follows it either starts with `>` or has no `>` at all. */
  lemma {:induction false} StrippedAfterOpen(s: string)
    requires |s| > 1 && s[0] == '<' && !TagAt(s, 0)
    ensures StripTags(s[1..]) == [] || StripTags(s[1..])[0] == '>' || '>' !in StripTags(s[1..])[1..]
  {
    var t := StripTags(s[1..]);
    if s[1] == '>' {
      assert s[1..][0] == '>';
      assert !TagAt(s[1..], 0);
      assert t[0] == '>';
    } else {
      assert '>' !in s[2..];
      assert '>' !in s[1..] by {
        forall k | 0 <= k < |s[1..]|
          ensures s[1..][k] != '>'
        {
          if k > 0 {
            assert s[1..][k] == s[2..][k - 1];
          }
        }
      }
      assert '>' !in t;
    }
  }

  /** The character after an opening "<" that is not a tag keeps the text after it
      free of tags: it has no ">" or begins with one. */
  lemma NotTagStart(s: string)
    requires |s| > 1 && s[0] == '<' && !TagAt(s, 0) && s[1] != '>'
    ensures '>' !in s[1..]
  {
    forall k | 0 <= k < |s[1..]|
      ensures s[1..][k] != '>'
    {
      if k > 0 {
        assert s[1..][k] == s[2..][k - 1];
      }
    }
  }

  /** One step of `CollapseTagFree` for leading whitespace. */
  lemma CollapseSpaceTagFree(s: string)
    requires s != [] && IsSpace(s[0]) && TagFree(Collapse(DropSpaces(s)))
    ensures TagFree(Collapse(s))
  {
    TagFreeCons(' ', Collapse(DropSpaces(s)));
  }

  /** One step of `CollapseTagFree` for a leading character that is kept. */
  lemma CollapseKeepTagFree(s: string)
    requires s != [] && !IsSpace(s[0]) && !TagAt(s, 0) && TagFree(Collapse(s[1..]))
    ensures TagFree(Collapse(s))
  {
    var t := Collapse(s[1..]);
    if s[0] == '<' && |s| > 1 {
      if s[1] == '>' {
        assert s[1..][0] == '>';
        assert t[0] == '>';
      } else {
        NotTagStart(s);
        assert '>' !in t;
        assert t == [] || '>' !in t[1..];
      }
    }
    TagFreeCons(s[0], t);
  }

  /** Collapsing whitespace keeps a text tag-free. */
  lemma {:induction false} CollapseTagFree(s: string)
    requires TagFree(s)
    ensures TagFree(Collapse(s))
    decreases |s|
  {
    if s != [] {
      if IsSpace(s[0]) {
        var rest := DropSpaces(s);
        TagFreeInfix(s, |s| - |rest|, |s|);
        assert s[|s| - |rest|..|s|] == rest;
        CollapseTagFree(rest);
        CollapseSpaceTagFree(s);
      } else {
        TagFreeInfix(s, 1, |s|);
        assert s[1..|s|] == s[1..];
        CollapseTagFree(s[1..]);
        assert !TagAt(s, 0);
        CollapseKeepTagFree(s);
      }
    }
  }

  /** Collapsing whitespace leaves a text single-spaced. */
  lemma {:induction false} CollapseSingle(s: string)
    ensures SingleSpaced(Collapse(s))
    decreases |s|
  {
    if s != [] {
      if IsSpace(s[0]) {
        var rest := DropSpaces(s);
        CollapseSingle(rest);
        SingleCons(' ', Collapse(rest));
      } else {
        CollapseSingle(s[1..]);
        SingleCons(s[0], Collapse(s[1..]));
      }
    }
  }

  /** Putting a character in front of a single-spaced text keeps it single-spaced
      unless it is whitespace before whitespace, or whitespace other than a space. */
  lemma SingleCons(c: char, t: string)
    requires SingleSpaced(t)
    requires IsSpace(c) ==> c == ' ' && (t == [] || !IsSpace(t[0]))
    ensures SingleSpaced([c] + t)
  {
    var s := [c] + t;
    forall k | 0 <= k < |s| && IsSpace(s[k])
      ensures s[k] == ' ' && (k + 1 < |s| ==> !IsSpace(s[k + 1]))
    {
      if k > 0 {
        assert s[k] == t[k - 1];
        if k + 1 < |s| {
          assert s[k + 1] == t[k];
        }
      }
    }
  }

  /** The cleaned text holds no tag, no whitespace other than single spaces, and no
      whitespace at either end. */
  lemma CleanHtmlShape(text: string)
    ensures TagFree(CleanHtml(text))
    ensures SingleSpaced(CleanHtml(text))
    ensures CleanHtml(text) == [] || (!IsSpace(CleanHtml(text)[0]) && !IsSpace(CleanHtml(text)[|CleanHtml(text)| - 1]))
  {
    if text != "" {
      var c := Collapse(StripTags(text));
      StripTagsTagFree(text);
      CollapseTagFree(StripTags(text));
      CollapseSingle(StripTags(text));
      var a := StripStart(c, 0);
      var b := StripEnd(c, a, |c|);
      TagFreeInfix(c, a, b);
      SingleSpacedInfix(c, a, b);
    }
  }

  /** A tag-free text has nothing to strip. */
  lemma {:induction false} StripTagsUnchanged(s: string)
    requires TagFree(s)
    ensures StripTags(s) == s
    decreases |s|
  {
    if s != [] {
      TagFreeInfix(s, 1, |s|);
      assert s[1..|s|] == s[1..];
      StripTagsUnchanged(s[1..]);
      assert !TagAt(s, 0);
    }
  }

  /** A single-spaced text has nothing to collapse. */
  lemma {:induction false} CollapseUnchanged(s: string)
    requires SingleSpaced(s)
    ensures Collapse(s) == s
    decreases |s|
  {
    if s != [] {
      var t := s[1..];
      SingleSpacedInfix(s, 1, |s|);
      assert s[1..|s|] == t;
      CollapseUnchanged(t);
      assert s == [s[0]] + t;
      if IsSpace(s[0]) {
        assert s[0] == ' ' && (|s| > 1 ==> !IsSpace(s[1]));
        assert StripStart(s, 1) == 1;
        assert StripStart(s, 0) == 1;
        assert DropSpaces(s) == t;
        assert Collapse(s) == " " + Collapse(t);
      } else {
        assert Collapse(s) == [s[0]] + Collapse(t);
      }
    }
  }

  /** Cleaning is idempotent: a cleaned text is its own cleaning. */
  lemma CleanHtmlIdempotent(text: string)
    ensures CleanHtml(CleanHtml(text)) == CleanHtml(text)
  {
    var r := CleanHtml(text);
    CleanHtmlShape(text);
    if r != "" {
      StripTagsUnchanged(r);
      CollapseUnchanged(r);
      StripUnchanged(r);
    }
  }

  /** Text without "<" and other than single spaces passes through unchanged. */
  lemma CleanPlainText(text: string)
    requires '<' !in text && SingleSpaced(text)
    requires text == [] || (!IsSpace(text[0]) && !IsSpace(text[|text| - 1]))
    ensures CleanHtml(text) == text
  {
    if text != "" {
      assert TagFree(text);
      StripTagsUnchanged(text);
      CollapseUnchanged(text);
      StripUnchanged(text);
    }
  }

  // ---------------------------------------------------------------- generate_pdf

  /** `digest-{year}-W{week:02d}.pdf` */
  function DefaultPdfName(week: nat, year: int): (name: string)
    ensures name == Composer.DigestStem(week, year) + ".pdf"
  {
    "digest-" + IntToString(year) + "-W" + TwoDigits(week) + ".pdf"
  }

  /** The file name: the one given unless it is missing or empty. */
  function PdfFileName(filename: Option<string>, week: nat, year: int): (name: string)
    ensures filename.Some? && filename.value != "" ==> name == filename.value
    ensures filename.None? || filename == Some("") ==> name == DefaultPdfName(week, year)
  {
    if filename.Some? && filename.value != "" then filename.value else DefaultPdfName(week, year)
  }

  /** The PDF of a week and the page of the same week share their stem. */
  lemma SameStemAsPage(week: nat, year: int)
    ensures PdfFileName(None, week, year) == Composer.DigestStem(week, year) + ".pdf"
    ensures Composer.DigestFileName(None, week, year) == Composer.DigestStem(week, year) + ".html"
  {
    Composer.DefaultFileName(None, week, year);
  }

  /** How a renderer fares: it cannot be imported, it raises, or it writes the file. */
  datatype Engine = Missing | Broken(error: string) | Works

  datatype Renderer = Weasyprint | Reportlab

  /** What `generate_pdf` does: it writes the file with one of the renderers, raises
      the `RuntimeError` for two unavailable renderers, or re-raises the fallback's
      own error. */
  datatype PdfOutcome =
    | Written(path: string, renderer: Renderer)
    | NoRenderer(message: string)
    | Reraised(error: string)

  const NoRendererMessage := "PDF generation requires weasyprint or reportlab. Install with: pip install weasyprint  or  pip install reportlab"

  function GeneratePdf(weasyprint: Engine, reportlab: Engine, outDir: string,
                       filename: Option<string>, week: nat, year: int): (r: PdfOutcome)
    ensures r.Written? ==> r.path == outDir + "/" + PdfFileName(filename, week, year)
  {
    var path := outDir + "/" + PdfFileName(filename, week, year);
    if weasyprint == Works then Written(path, Weasyprint)
    else match reportlab
      case Works => Written(path, Reportlab)
      case Missing => NoRenderer(NoRendererMessage)
      case Broken(e) => Reraised(e)
  }

  /** The preferred renderer is used whenever it works; the fallback is tried only
      after it failed in any way. */
  lemma FallbackOrder(weasyprint: Engine, reportlab: Engine, outDir: string,
                      filename: Option<string>, week: nat, year: int)
    ensures var r := GeneratePdf(weasyprint, reportlab, outDir, filename, week, year);
      && (r.Written? && r.renderer == Weasyprint <==> weasyprint == Works)
      && (r.Written? && r.renderer == Reportlab <==> weasyprint != Works && reportlab == Works)
      && (r.Written? <==> weasyprint == Works || reportlab == Works)
  {
  }

  /** The `RuntimeError` is raised exactly when the fallback cannot be imported and
      the preferred renderer did not write the file: it need not be missing, it may
      have raised. Another error of the fallback is passed on unchanged. */
  lemma RuntimeErrorCases(weasyprint: Engine, reportlab: Engine, outDir: string,
                          filename: Option<string>, week: nat, year: int)
    ensures var r := GeneratePdf(weasyprint, reportlab, outDir, filename, week, year);
      && (r.NoRenderer? <==> weasyprint != Works && reportlab == Missing)
      && (r.NoRenderer? ==> r.message == NoRendererMessage)
      && (r.Reraised? <==> weasyprint != Works && reportlab.Broken?)
      && (r.Reraised? ==> r.error == reportlab.error)
  {
  }

  /** The image references resolved before the preferred renderer runs: the same
      replacement as the mail preview, image by image. */
  method ResolveImages(html: string, images: seq<Gmail.Image>) returns (pdfHtml: string)
    ensures pdfHtml == Gmail.PreviewHtml(html, images)
  {
    pdfHtml := html;
    var k := 0;
    while k < |images|
      invariant k <= |images|
      invariant pdfHtml == Gmail.PreviewHtml(html, images[..k])
    {
      assert images[..k + 1][..k] == images[..k];
      var dataUri := images[k].dataUri;
      if dataUri != "" {
        pdfHtml := ReplaceAll(pdfHtml, "cid:" + images[k].cid, dataUri);
      }
      k := k + 1;
    }
    assert images[..k] == images;
  }

  // ---------------------------------------------------------------- signal cards

  /** The caption of a signal class: its identifier with "-" as " ", title-cased. */
  function Caption(t: SignalType): string {
    TitleCase(ReplaceAll(t.Id(), "-", " "))
  }

  /** A caption holds no "-" and starts with a capital letter. */
  lemma CaptionShape(t: SignalType)
    ensures '-' !in Caption(t)
    ensures Caption(t) != [] && 'A' <= Caption(t)[0] <= 'Z'
  {
    var id := t.Id();
    var spaced := ReplaceAll(id, "-", " ");
    ReplaceRemovesChar(id, '-', " ");
    ReplaceCharStep(id, '-', " ");
    assert 'a' <= id[0] <= 'z';
    assert spaced[0] == id[0];
    var c := Caption(t);
    forall k | 0 <= k < |c|
      ensures c[k] != '-'
    {
      assert spaced[k] != '-';
    }
  }

  /** A paragraph or a spacer of the fallback layout. */
  datatype Flowable =
    | Heading(signalType: SignalType, score: Option<real>, headline: string)
    | FieldLabel(name: string)
    | Body(source: string, cleaned: bool)
    | SourceLink(url: string, shown: string)
    | Spacer(height: nat)

  /** The text a body paragraph shows: its field, cleaned of markup when asked. */
  function BodyText(f: Flowable): string
    requires f.Body?
  {
    if f.cleaned then CleanHtml(f.source) else f.source
  }

  /** A labelled section: nothing for an empty field, otherwise the label and the
      field's paragraph. */
  function Field(name: string, field: string, cleaned: bool): seq<Flowable> {
    if field == "" then [] else [FieldLabel(name), Body(field, cleaned)]
  }

  /** The score label of the heading: none for a zero score. */
  function ScoreLabel(composite: real): Option<real> {
    if composite == 0.0 then None else Some(composite)
  }

  /** `_render_signal_card`: the heading, the five labelled sections, the source
      link with the first 80 characters of the url shown, and a spacer. */
  function Card(s: ScoredSignal): seq<Flowable> {
    [CardHeading(s.analysis)] + Fields(s.analysis) + Link(s.signal.url) + [Spacer(6)]
  }

  /** The heading: the class, shown by its caption, the score label and the headline. */
  function CardHeading(a: Analysis): Flowable {
    Heading(a.signalType, ScoreLabel(a.composite), a.headline)
  }

  /** The five labelled sections, in order; the three prose ones are cleaned. */
  function Fields(a: Analysis): seq<Flowable> {
    Field("WHAT", a.whatSummary, true)
    + Field("WHY IT MATTERS", a.whyItMatters, true)
    + Field("QUICK WIN", a.quickWin, true)
    + Field("OWNER", a.suggestedOwner, false)
    + Field("EST. IMPACT", a.estimatedImpact, false)
  }

  /** The source link: none without a url. */
  function Link(url: string): seq<Flowable> {
    if url == "" then [] else [SourceLink(url, Prefix(url, 80))]
  }

  /** The card opens with the heading, closes with the spacer, and shows the score
      exactly when it is not zero. */
  lemma CardFrame(s: ScoredSignal)
    ensures |Card(s)| >= 2
    ensures Card(s)[0] == Heading(s.analysis.signalType, ScoreLabel(s.analysis.composite), s.analysis.headline)
    ensures Card(s)[|Card(s)| - 1] == Spacer(6)
    ensures ScoreLabel(s.analysis.composite).None? <==> s.analysis.composite == 0.0
  {
  }

  /** A section's label is in its piece exactly when the field is not empty. */
  lemma FieldMember(n: string, m: string, field: string, cleaned: bool)
    ensures FieldLabel(n) in Field(m, field, cleaned) <==> n == m && field != ""
  {
  }

  /** The labels among the sections: each one exactly when its field is not empty. */
  lemma FieldsLabels(a: Analysis, n: string)
    ensures FieldLabel(n) in Fields(a) <==>
      (n == "WHAT" && a.whatSummary != "") || (n == "WHY IT MATTERS" && a.whyItMatters != "")
      || (n == "QUICK WIN" && a.quickWin != "") || (n == "OWNER" && a.suggestedOwner != "")
      || (n == "EST. IMPACT" && a.estimatedImpact != "")
  {
    var f1, f2, f3, f4, f5 := Field("WHAT", a.whatSummary, true), Field("WHY IT MATTERS", a.whyItMatters, true),
      Field("QUICK WIN", a.quickWin, true), Field("OWNER", a.suggestedOwner, false), Field("EST. IMPACT", a.estimatedImpact, false);
    var x := FieldLabel(n);
    FieldMember(n, "WHAT", a.whatSummary, true);
    FieldMember(n, "WHY IT MATTERS", a.whyItMatters, true);
    FieldMember(n, "QUICK WIN", a.quickWin, true);
    FieldMember(n, "OWNER", a.suggestedOwner, false);
    FieldMember(n, "EST. IMPACT", a.estimatedImpact, false);
    assert Fields(a) == f1 + f2 + f3 + f4 + f5;
    assert x in Fields(a) <==> x in f1 || x in f2 || x in f3 || x in f4 || x in f5;
  }

  /** Each labelled section is in the card exactly when its field is not empty,
      even when cleaning leaves nothing of it. */
  lemma CardSections(s: ScoredSignal, n: string)
    ensures FieldLabel(n) in Card(s) <==>
      (n == "WHAT" && s.analysis.whatSummary != "") || (n == "WHY IT MATTERS" && s.analysis.whyItMatters != "")
      || (n == "QUICK WIN" && s.analysis.quickWin != "") || (n == "OWNER" && s.analysis.suggestedOwner != "")
      || (n == "EST. IMPACT" && s.analysis.estimatedImpact != "")
  {
    FieldsLabels(s.analysis, n);
    assert FieldLabel(n) !in Link(s.signal.url);
    assert Card(s) == [CardHeading(s.analysis)] + Fields(s.analysis) + Link(s.signal.url) + [Spacer(6)];
  }

  /** The card links its source exactly when there is a url, showing at most the
      first 80 of its characters. */
  lemma CardSource(s: ScoredSignal)
    ensures (exists f :: f in Card(s) && f.SourceLink?) <==> s.signal.url != ""
    ensures forall f :: f in Card(s) && f.SourceLink? ==> f.url == s.signal.url && |f.shown| <= 80 && StartsWith(f.url, f.shown)
  {
    var a := s.analysis;
    var c := Card(s);
    assert forall f :: f in Fields(a) ==> !f.SourceLink?;
    if s.signal.url != "" {
      var f := SourceLink(s.signal.url, Prefix(s.signal.url, 80));
      assert f in Link(s.signal.url);
      assert f in c;
    }
  }

  /** The pieces appended in order make the card. */
  lemma CardPieces(s: ScoredSignal, card: seq<Flowable>)
    requires var a := s.analysis;
      card == [CardHeading(a)] + Field("WHAT", a.whatSummary, true)
        + Field("WHY IT MATTERS", a.whyItMatters, true) + Field("QUICK WIN", a.quickWin, true)
        + Field("OWNER", a.suggestedOwner, false) + Field("EST. IMPACT", a.estimatedImpact, false)
        + Link(s.signal.url) + [Spacer(6)]
    ensures card == Card(s)
  {
    var a := s.analysis;
    var f1, f2, f3, f4, f5 := Field("WHAT", a.whatSummary, true), Field("WHY IT MATTERS", a.whyItMatters, true),
      Field("QUICK WIN", a.quickWin, true), Field("OWNER", a.suggestedOwner, false), Field("EST. IMPACT", a.estimatedImpact, false);
    var h := [CardHeading(a)];
    AppendAssoc(h, f1, f2);
    AppendAssoc(h, f1 + f2, f3);
    AppendAssoc(h, f1 + f2 + f3, f4);
    AppendAssoc(h, f1 + f2 + f3 + f4, f5);
  }

  /** The story the fallback renderer builds, appended to card by card. */
  class Story {
    var items: seq<Flowable>

    constructor ()
      ensures items == []
    {
      items := [];
    }

    /** `_render_signal_card(signal, story)` */
    method RenderCard(s: ScoredSignal)
      modifies this
      ensures items == old(items) + Card(s)
    {
      var a := s.analysis;
      var url := s.signal.url;
      var card := [CardHeading(a)];
      ghost var c0 := card;
      if a.whatSummary != "" {
        card := card + [FieldLabel("WHAT"), Body(a.whatSummary, true)];
      }
      assert card == c0 + Field("WHAT", a.whatSummary, true);
      ghost var c1 := card;
      if a.whyItMatters != "" {
        card := card + [FieldLabel("WHY IT MATTERS"), Body(a.whyItMatters, true)];
      }
      assert card == c1 + Field("WHY IT MATTERS", a.whyItMatters, true);
      ghost var c2 := card;
      if a.quickWin != "" {
        card := card + [FieldLabel("QUICK WIN"), Body(a.quickWin, true)];
      }
      assert card == c2 + Field("QUICK WIN", a.quickWin, true);
      ghost var c3 := card;
      if a.suggestedOwner != "" {
        card := card + [FieldLabel("OWNER"), Body(a.suggestedOwner, false)];
      }
      assert card == c3 + Field("OWNER", a.suggestedOwner, false);
      ghost var c4 := card;
      if a.estimatedImpact != "" {
        card := card + [FieldLabel("EST. IMPACT"), Body(a.estimatedImpact, false)];
      }
      assert card == c4 + Field("EST. IMPACT", a.estimatedImpact, false);
      ghost var c5 := card;
      if url != "" {
        card := card + [SourceLink(url, Prefix(url, 80))];
      }
      assert card == c5 + Link(url);
      card := card + [Spacer(6)];
      CardPieces(s, card);
      items := items + card;
    }
  }
}
