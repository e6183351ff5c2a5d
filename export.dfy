/** `exportUtils.ts`: the document handed to the DOCX writer, as a list of paragraphs,
    and the guard and option record of the PDF export. The writers themselves
    (`Packer`, `saveAs`, `html2pdf`) are outside the model; what is modelled is
    exactly what they are given. */
module ExportUtils {
  import opened Report
  import opened Wrappers

  // ---------------------------------------------------------------- DOCX

  datatype HeadingLevel = Heading1 | Heading2 | Heading3

  /** Spacing in twentieths of a point, each side optional. */
  datatype Spacing = Spacing(before: Option<nat>, after: Option<nat>)

  const NoSpacing := Spacing(None, None)

  datatype Paragraph = Paragraph(heading: Option<HeadingLevel>, text: string, spacing: Spacing)

  /** A body paragraph without heading or spacing: `new Paragraph(text)`. */
  function Plain(text: string): Paragraph
  {
    Paragraph(None, text, NoSpacing)
  }

  /** The five paragraphs of one key concept; its tip is not exported. */
  function ConceptParagraphs(c: KeyConcept): (ps: seq<Paragraph>)
    ensures |ps| == 5
  {
    [Paragraph(Some(Heading3), c.title, Spacing(Some(200), None)),
     Plain(c.description),
     Plain("Importância: " + c.importance),
     Plain("Dificuldade: " + c.difficulty),
     Paragraph(None, "Exemplo: " + c.example, Spacing(None, Some(200)))]
  }

  /** `keyConcepts.flatMap(concept => [...])`. */
  function ConceptsParagraphs(cs: seq<KeyConcept>): seq<Paragraph>
  {
    if |cs| == 0 then [] else ConceptParagraphs(cs[0]) + ConceptsParagraphs(cs[1..])
  }

  const DocxPreamble: seq<Paragraph> := [
    Paragraph(Some(Heading1), "Relatório de Análise", Spacing(None, Some(200))),
    Paragraph(Some(Heading2), "Resumo Executivo", NoSpacing)]

  /** The children of the document's single section, as `exportToDocx` lists them. */
  function DocxParagraphs(result: AnalysisResult): seq<Paragraph>
  {
    var s := result.summary;
    DocxPreamble
    + [Paragraph(None, s.executiveSummary, Spacing(None, Some(200))),
       Paragraph(Some(Heading2), "Conceitos Chave", NoSpacing)]
    + ConceptsParagraphs(s.keyConcepts)
  }

  /** Five paragraphs per concept, concept `i`'s at `5 * i` onwards. */
  lemma {:induction false} ConceptsParagraphsLayout(cs: seq<KeyConcept>)
    ensures |ConceptsParagraphs(cs)| == 5 * |cs|
    ensures forall i, j :: 0 <= i < |cs| && 0 <= j < 5 ==>
      ConceptsParagraphs(cs)[5 * i + j] == ConceptParagraphs(cs[i])[j]
  {
    if |cs| > 0 {
      ConceptsParagraphsLayout(cs[1..]);
      var head, rest := ConceptParagraphs(cs[0]), ConceptsParagraphs(cs[1..]);
      forall i, j | 0 <= i < |cs| && 0 <= j < 5
        ensures ConceptsParagraphs(cs)[5 * i + j] == ConceptParagraphs(cs[i])[j]
      {
        if i > 0 {
          assert ConceptsParagraphs(cs)[5 * i + j] == rest[5 * (i - 1) + j];
          assert cs[1..][i - 1] == cs[i];
        }
      }
    }
  }

  /** The document has exactly `4 + 5 * |keyConcepts|` paragraphs: the title, the summary
      heading, the whole summary as one paragraph, the concepts heading, then per concept
      its title heading, description, importance, difficulty and example. */
  lemma DocxLayout(result: AnalysisResult)
    ensures var ps, s := DocxParagraphs(result), result.summary;
      |ps| == 4 + 5 * |s.keyConcepts|
      && ps[0] == Paragraph(Some(Heading1), "Relatório de Análise", Spacing(None, Some(200)))
      && ps[1] == Paragraph(Some(Heading2), "Resumo Executivo", NoSpacing)
      && ps[2] == Paragraph(None, s.executiveSummary, Spacing(None, Some(200)))
      && ps[3] == Paragraph(Some(Heading2), "Conceitos Chave", NoSpacing)
    ensures var ps, cs := DocxParagraphs(result), result.summary.keyConcepts;
      forall i :: 0 <= i < |cs| ==>
        4 + 5 * i + 4 < |ps|
        && ps[4 + 5 * i] == Paragraph(Some(Heading3), cs[i].title, Spacing(Some(200), None))
        && ps[4 + 5 * i + 1] == Plain(cs[i].description)
        && ps[4 + 5 * i + 2] == Plain("Importância: " + cs[i].importance)
        && ps[4 + 5 * i + 3] == Plain("Dificuldade: " + cs[i].difficulty)
        && ps[4 + 5 * i + 4] == Paragraph(None, "Exemplo: " + cs[i].example, Spacing(None, Some(200)))
  {
    var cs := result.summary.keyConcepts;
    ConceptsParagraphsLayout(cs);
    var ps, tail := DocxParagraphs(result), ConceptsParagraphs(cs);
    assert ps == DocxPreamble + [ps[2], ps[3]] + tail;
    forall i | 0 <= i < |cs|
      ensures ps[4 + 5 * i] == ConceptParagraphs(cs[i])[0]
      ensures ps[4 + 5 * i + 1] == ConceptParagraphs(cs[i])[1]
      ensures ps[4 + 5 * i + 2] == ConceptParagraphs(cs[i])[2]
      ensures ps[4 + 5 * i + 3] == ConceptParagraphs(cs[i])[3]
      ensures ps[4 + 5 * i + 4] == ConceptParagraphs(cs[i])[4]
    {
      assert tail[5 * i + 0] == ConceptParagraphs(cs[i])[0];
      assert tail[5 * i + 1] == ConceptParagraphs(cs[i])[1];
      assert tail[5 * i + 2] == ConceptParagraphs(cs[i])[2];
      assert tail[5 * i + 3] == ConceptParagraphs(cs[i])[3];
      assert tail[5 * i + 4] == ConceptParagraphs(cs[i])[4];
    }
  }

  /** Two concepts that agree on the five exported fields are exported alike. */
  predicate SameExportedFields(a: KeyConcept, b: KeyConcept)
  {
    a.title == b.title && a.description == b.description && a.importance == b.importance
    && a.difficulty == b.difficulty && a.example == b.example
  }

  /** Only the executive summary and the five concept fields reach the document: tips, main
      points, contexts, learning structure, techniques, questions and metadata never do. */
  lemma DocxDependsOnlyOnSummaryAndConcepts(r1: AnalysisResult, r2: AnalysisResult)
    requires r1.summary.executiveSummary == r2.summary.executiveSummary
    requires |r1.summary.keyConcepts| == |r2.summary.keyConcepts|
    requires forall i :: 0 <= i < |r1.summary.keyConcepts| ==>
      SameExportedFields(r1.summary.keyConcepts[i], r2.summary.keyConcepts[i])
    ensures DocxParagraphs(r1) == DocxParagraphs(r2)
  {
    ConceptsAlike(r1.summary.keyConcepts, r2.summary.keyConcepts);
  }

  lemma {:induction false} ConceptsAlike(xs: seq<KeyConcept>, ys: seq<KeyConcept>)
    requires |xs| == |ys|
    requires forall i :: 0 <= i < |xs| ==> SameExportedFields(xs[i], ys[i])
    ensures ConceptsParagraphs(xs) == ConceptsParagraphs(ys)
  {
    if |xs| > 0 {
      assert SameExportedFields(xs[0], ys[0]);
      forall i | 0 <= i < |xs[1..]| ensures SameExportedFields(xs[1..][i], ys[1..][i]) {
        assert SameExportedFields(xs[i + 1], ys[i + 1]);
      }
      ConceptsAlike(xs[1..], ys[1..]);
    }
  }

  /** What `saveAs` receives: the document and the file name. */
  datatype DocxSave = DocxSave(paragraphs: seq<Paragraph>, filename: string)

  /** `exportToDocx`: the document of the result, saved as `<filename>.docx`. */
  function ExportToDocx(result: AnalysisResult, filename: string): (f: DocxSave)
    ensures f.filename == filename + ".docx"
    ensures |f.paragraphs| == 4 + 5 * |result.summary.keyConcepts|
  {
    DocxLayout(result);
    DocxSave(DocxParagraphs(result), filename + ".docx")
  }

  // ---------------------------------------------------------------- PDF

  /** The option record passed to `html2pdf().set`; the JPEG quality 0.98 as a real. */
  datatype PdfOptions = PdfOptions(
    margin: nat, filename: string, imageType: string, imageQuality: real,
    scale: nat, unit: string, format: string, orientation: string)

  /** The rendering of element `elementId` with these options. */
  datatype PdfJob = PdfJob(elementId: string, options: PdfOptions)

  /** `exportToPdf`: the page is given as the set of element ids it contains; a missing
      element makes the export do nothing. */
  function ExportToPdf(pageIds: set<string>, elementId: string, filename: string): (job: Option<PdfJob>)
    ensures job.Some? <==> elementId in pageIds
    ensures job.Some? ==> job.value.elementId == elementId
    ensures job.Some? ==> var o := job.value.options;
      o.filename == filename + ".pdf" && o.margin == 10
      && o.unit == "mm" && o.format == "a4" && o.orientation == "portrait"
      && o.imageType == "jpeg" && o.imageQuality == 0.98 && o.scale == 2
  {
    if elementId !in pageIds then None
    else Some(PdfJob(elementId, PdfOptions(10, filename + ".pdf", "jpeg", 0.98, 2, "mm", "a4", "portrait")))
  }

  // ---------------------------------------------------------------- the report's export buttons, end to end

  /** From the report's PDF and DOCX buttons, the files are `analise-<date>.pdf` of the
      `report-content` element and `analise-<date>.docx` of the same result. */
  lemma ReportExportFiles(result: AnalysisResult, isoNow: string, pageIds: set<string>)
    ensures var a := HandleReportExport(Pdf, result, isoNow);
      a.ExportPdfAction? && a.elementId == ReportContentId
      && (ReportContentId in pageIds ==>
            ExportToPdf(pageIds, a.elementId, a.filename).value.options.filename == "analise-" + DatePart(isoNow) + ".pdf")
      && (ReportContentId !in pageIds ==> ExportToPdf(pageIds, a.elementId, a.filename).None?)
    ensures var a := HandleReportExport(Docx, result, isoNow);
      a.ExportDocxAction?
      && ExportToDocx(a.result, a.filename) == DocxSave(DocxParagraphs(result), "analise-" + DatePart(isoNow) + ".docx")
  {
  }
}
