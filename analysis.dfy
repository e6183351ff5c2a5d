/** The transcript-analysis page of `TranscricaoAnalise.tsx`: the plain-text
    export of a report (a serialiser of its own, not the one behind "copy"),
    the download chosen by the page's export handler, and the page's
    submission state machine around the analysis provider. */
module Analysis {
  import opened TextUtil
  import opened Report
  import opened Wrappers

  // ---------------------------------------------------------------- the exported text

  function ExportConceptBlock(c: KeyConcept): string
  {
    var base := c.title + "\n" + c.description + "\n"
                + "Importância: " + c.importance + "\n"
                + "Dificuldade: " + c.difficulty + "\n"
                + "Exemplo: " + c.example + "\n\n";
    if Truthy(c.tip) then base + TipMarker + c.tip.value + "\n\n" else base
  }

  function ExportPointBlock(p: MainPoint): string
  {
    p.title + "\n" + p.description + "\n"
    + "📌 Contexto: " + p.context + "\n"
    + "📌 Aplicação: " + p.application + "\n"
    + "🧠 Técnica de Memória: " + p.memoryTechnique + "\n\n"
  }

  function ExportContextsBody(ctx: ImportantContexts): string
  {
    ctx.description + "\n"
    + "Relevância: " + ctx.relevance + "\n"
    + "Exemplos: " + Join(ctx.examples, ", ") + "\n\n"
  }

  /** The prerequisite lines `- item` and the step lines `k. step`, each line-terminated. */
  function ExportLearningBody(ls: LearningStructure): string
  {
    "Pré-requisitos:\n"
    + ConcatMap(Prefixed("- ", ls.prerequisites), Line)
    + "\nSequência de Aprendizado:\n"
    + ConcatMap(Numbered(ls.learningSequence), Line)
    + "\n"
  }

  function ExportTechniqueBlock(t: StudyTechnique): string
  {
    "🔧 " + t.name + "\n"
    + "Quando usar: " + t.whenToUse + "\n"
    + "Efetividade: " + t.effectiveness + "\n\n"
  }

  function ExportQuestionBlock(q: StudyQuestion): string
  {
    var base := "❓ " + q.question + "\n"
                + "💡 Resposta: " + q.answer + "\n"
                + "📊 Nível: " + q.level + "\n";
    (if Truthy(q.tip) then base + TipMarker + q.tip.value + "\n" else base) + "\n"
  }

  function ExportMetadataBody(m: Metadata): string
  {
    "Data: " + m.date + "\n"
    + "Contagem de palavras: " + IntToString(m.wordCount) + "\n"
    + "Segmentos: " + IntToString(m.segments) + "\n"
    + "Fonte: " + m.source + "\n"
  }

  /** The text `generateTextExport` returns, as its eight sections in their fixed order. */
  function ExportSections(data: AnalysisResult): seq<Section>
  {
    var s := data.summary;
    [Section("RESUMO EXECUTIVO", s.executiveSummary + "\n\n"),
     Section("CONCEITOS CHAVE", ConcatMap(s.keyConcepts, ExportConceptBlock)),
     Section("PONTOS PRINCIPAIS", ConcatMap(s.mainPoints, ExportPointBlock)),
     Section(Upper(s.importantContexts.title), ExportContextsBody(s.importantContexts)),
     Section("ESTRUTURA DE APRENDIZADO", ExportLearningBody(s.learningStructure)),
     Section("TÉCNICAS DE ESTUDO", ConcatMap(s.studyTechniques, ExportTechniqueBlock)),
     Section("PERGUNTAS DE ESTUDO", ConcatMap(s.studyQuestions, ExportQuestionBlock)),
     Section("METADADOS", ExportMetadataBody(s.metadata))]
  }

  function ExportText(data: AnalysisResult): string
  {
    JoinSections(ExportSections(data))
  }

  /** `generateTextExport`: the accumulator of the text export, section by section.
      The list sections are appended by loops of their own below. */
  method GenerateTextExport(data: AnalysisResult) returns (text: string)
    ensures text == ExportText(data)
  {
    var s := data.summary;
    var body := s.executiveSummary + "\n\n";
    SectionAppended([], "", "RESUMO EXECUTIVO", body);
    text := "" + Delimiter("RESUMO EXECUTIVO") + body;
    ghost var ss := [] + [Section("RESUMO EXECUTIVO", body)];

    ghost var done := text;
    text := AppendExportConcepts(text + Delimiter("CONCEITOS CHAVE"), s.keyConcepts);
    SectionAppended(ss, done, "CONCEITOS CHAVE", ConcatMap(s.keyConcepts, ExportConceptBlock));
    ss := ss + [Section("CONCEITOS CHAVE", ConcatMap(s.keyConcepts, ExportConceptBlock))];

    done := text;
    text := AppendExportPoints(text + Delimiter("PONTOS PRINCIPAIS"), s.mainPoints);
    SectionAppended(ss, done, "PONTOS PRINCIPAIS", ConcatMap(s.mainPoints, ExportPointBlock));
    ss := ss + [Section("PONTOS PRINCIPAIS", ConcatMap(s.mainPoints, ExportPointBlock))];

    done := text;
    var ctx := s.importantContexts;
    text := text + Delimiter(Upper(ctx.title));
    body := ctx.description + "\n"
            + "Relevância: " + ctx.relevance + "\n"
            + "Exemplos: " + Join(ctx.examples, ", ") + "\n\n";
    text := text + body;
    SectionAppended(ss, done, Upper(ctx.title), body);
    ss := ss + [Section(Upper(ctx.title), body)];

    done := text;
    var ls := s.learningStructure;
    text := AppendLearning(text + Delimiter("ESTRUTURA DE APRENDIZADO"), ls);
    SectionAppended(ss, done, "ESTRUTURA DE APRENDIZADO", ExportLearningBody(ls));
    ss := ss + [Section("ESTRUTURA DE APRENDIZADO", ExportLearningBody(ls))];

    done := text;
    text := AppendExportTechniques(text + Delimiter("TÉCNICAS DE ESTUDO"), s.studyTechniques);
    SectionAppended(ss, done, "TÉCNICAS DE ESTUDO", ConcatMap(s.studyTechniques, ExportTechniqueBlock));
    ss := ss + [Section("TÉCNICAS DE ESTUDO", ConcatMap(s.studyTechniques, ExportTechniqueBlock))];

    done := text;
    text := AppendExportQuestions(text + Delimiter("PERGUNTAS DE ESTUDO"), s.studyQuestions);
    SectionAppended(ss, done, "PERGUNTAS DE ESTUDO", ConcatMap(s.studyQuestions, ExportQuestionBlock));
    ss := ss + [Section("PERGUNTAS DE ESTUDO", ConcatMap(s.studyQuestions, ExportQuestionBlock))];

    done := text;
    var meta := s.metadata;
    text := text + Delimiter("METADADOS");
    body := "Data: " + meta.date + "\n"
            + "Contagem de palavras: " + IntToString(meta.wordCount) + "\n"
            + "Segmentos: " + IntToString(meta.segments) + "\n"
            + "Fonte: " + meta.source + "\n";
    text := text + body;
    SectionAppended(ss, done, "METADADOS", body);
    ss := ss + [Section("METADADOS", body)];
    assert ss == ExportSections(data) by {
      var r := ExportSections(data);
      EightSections(r[0], r[1], r[2], r[3], r[4], r[5], r[6], r[7]);
    }
  }

  /** The `keyConcepts.forEach` loop of the export. */
  method AppendExportConcepts(start: string, cs: seq<KeyConcept>) returns (text: string)
    ensures text == start + ConcatMap(cs, ExportConceptBlock)
  {
    text := start;
    for i := 0 to |cs|
      invariant text == start + ConcatMap(cs[..i], ExportConceptBlock)
    {
      var concept := cs[i];
      var block := concept.title + "\n" + concept.description + "\n"
                   + "Importância: " + concept.importance + "\n"
                   + "Dificuldade: " + concept.difficulty + "\n"
                   + "Exemplo: " + concept.example + "\n\n";
      if Truthy(concept.tip) {
        block := block + TipMarker + concept.tip.value + "\n\n";
      }
      ConcatMapStep(start, cs, ExportConceptBlock, i, block);
      text := text + block;
    }
    assert cs[..|cs|] == cs;
  }

  /** The `mainPoints.forEach` loop of the export. */
  method AppendExportPoints(start: string, ps: seq<MainPoint>) returns (text: string)
    ensures text == start + ConcatMap(ps, ExportPointBlock)
  {
    text := start;
    for i := 0 to |ps|
      invariant text == start + ConcatMap(ps[..i], ExportPointBlock)
    {
      var point := ps[i];
      var block := point.title + "\n" + point.description + "\n"
                   + "📌 Contexto: " + point.context + "\n"
                   + "📌 Aplicação: " + point.application + "\n"
                   + "🧠 Técnica de Memória: " + point.memoryTechnique + "\n\n";
      ConcatMapStep(start, ps, ExportPointBlock, i, block);
      text := text + block;
    }
    assert ps[..|ps|] == ps;
  }

  /** The learning-structure section: a `- item` line per prerequisite, then a
      `k. step` line per step, numbered from 1. */
  method AppendLearning(start: string, ls: LearningStructure) returns (text: string)
    ensures text == start + ExportLearningBody(ls)
  {
    var prereqs := Prefixed("- ", ls.prerequisites);
    text := start + "Pré-requisitos:\n";
    ghost var head := text;
    for i := 0 to |ls.prerequisites|
      invariant text == head + ConcatMap(prereqs[..i], Line)
    {
      var line := "- " + ls.prerequisites[i] + "\n";
      ConcatMapStep(head, prereqs, Line, i, line);
      text := text + line;
    }
    assert prereqs[..|prereqs|] == prereqs;
    var steps := Numbered(ls.learningSequence);
    text := text + "\nSequência de Aprendizado:\n";
    ghost var middle := text;
    for i := 0 to |ls.learningSequence|
      invariant text == middle + ConcatMap(steps[..i], Line)
    {
      var line := NatToString(i + 1) + ". " + ls.learningSequence[i] + "\n";
      ConcatMapStep(middle, steps, Line, i, line);
      text := text + line;
    }
    assert steps[..|steps|] == steps;
    text := text + "\n";
    LearningAssembled(start, ConcatMap(prereqs, Line), ConcatMap(steps, Line));
  }

  lemma LearningAssembled(start: string, pre: string, steps: string)
    ensures start + "Pré-requisitos:\n" + pre + "\nSequência de Aprendizado:\n" + steps + "\n"
            == start + ("Pré-requisitos:\n" + pre + "\nSequência de Aprendizado:\n" + steps + "\n")
  {
  }

  /** The `studyTechniques.forEach` loop of the export. */
  method AppendExportTechniques(start: string, ts: seq<StudyTechnique>) returns (text: string)
    ensures text == start + ConcatMap(ts, ExportTechniqueBlock)
  {
    text := start;
    for i := 0 to |ts|
      invariant text == start + ConcatMap(ts[..i], ExportTechniqueBlock)
    {
      var tech := ts[i];
      var block := "🔧 " + tech.name + "\n"
                   + "Quando usar: " + tech.whenToUse + "\n"
                   + "Efetividade: " + tech.effectiveness + "\n\n";
      ConcatMapStep(start, ts, ExportTechniqueBlock, i, block);
      text := text + block;
    }
    assert ts[..|ts|] == ts;
  }

  /** The `studyQuestions.forEach` loop of the export. */
  method AppendExportQuestions(start: string, qs: seq<StudyQuestion>) returns (text: string)
    ensures text == start + ConcatMap(qs, ExportQuestionBlock)
  {
    text := start;
    for i := 0 to |qs|
      invariant text == start + ConcatMap(qs[..i], ExportQuestionBlock)
    {
      var q := qs[i];
      var block := "❓ " + q.question + "\n"
                   + "💡 Resposta: " + q.answer + "\n"
                   + "📊 Nível: " + q.level + "\n";
      if Truthy(q.tip) {
        block := block + TipMarker + q.tip.value + "\n";
      }
      block := block + "\n";
      ConcatMapStep(start, qs, ExportQuestionBlock, i, block);
      text := text + block;
    }
    assert qs[..|qs|] == qs;
  }

  // ---------------------------------------------------------------- properties of the exported text

  /** The export has eight sections with these headings in this order, whatever the
      content; the last is `METADADOS`, not the copy's `INFORMAÇÕES DAS NOTAS`. */
  lemma ExportSectionHeadings(data: AnalysisResult)
    ensures |ExportSections(data)| == 8
    ensures Headings(ExportSections(data))
            == ["RESUMO EXECUTIVO", "CONCEITOS CHAVE", "PONTOS PRINCIPAIS",
                Upper(data.summary.importantContexts.title),
                "ESTRUTURA DE APRENDIZADO", "TÉCNICAS DE ESTUDO", "PERGUNTAS DE ESTUDO",
                "METADADOS"]
  {
  }

  /** Heading `k` of the export appears as its delimiter line at the section's offset,
      after the heading before it. */
  lemma ExportHeadingLine(data: AnalysisResult, k: nat)
    requires k < 8
    ensures var ss := ExportSections(data);
      var text, off, line := ExportText(data), SectionOffset(ss, k), Delimiter(Headings(ss)[k]);
      off + |line| <= |text| && text[off..off + |line|] == line
    ensures k < 7 ==> SectionOffset(ExportSections(data), k) < SectionOffset(ExportSections(data), k + 1)
  {
    SectionHeadingAt(ExportSections(data), k);
  }

  /** The export ends with the whole `METADADOS` block. */
  lemma ExportTextEnd(data: AnalysisResult)
    ensures var text, m := ExportText(data), data.summary.metadata;
      var last := Delimiter("METADADOS") + ExportMetadataBody(m);
      |last| <= |text| && text[|text| - |last|..] == last
  {
    var ss := ExportSections(data);
    EndsWithLastSection(ss);
    assert ss[|ss| - 1] == Section("METADADOS", ExportMetadataBody(data.summary.metadata));
  }

  /** The `METADADOS` block's last line is the source. */
  lemma ExportMetadataEnd(m: Metadata)
    ensures var body, line := ExportMetadataBody(m), "Fonte: " + m.source + "\n";
      |line| <= |body| && body[|body| - |line|..] == line
  {
  }

  /** A concept's tip line is in the export exactly when the tip is truthy; nothing else changes. */
  lemma ExportConceptTipLine(c: KeyConcept)
    ensures ExportConceptBlock(c) == ExportConceptBlock(c.(tip := None))
                                     + (if Truthy(c.tip) then TipMarker + c.tip.value + "\n\n" else "")
  {
  }

  /** A question's tip line is in the export exactly when the tip is truthy, just before the closing blank line. */
  lemma ExportQuestionTipLine(q: StudyQuestion)
    ensures var bare := ExportQuestionBlock(q.(tip := None));
      |bare| >= 1 && bare[|bare| - 1] == '\n' &&
      ExportQuestionBlock(q) == bare[..|bare| - 1] + (if Truthy(q.tip) then TipMarker + q.tip.value + "\n" else "") + "\n"
  {
    var bare := ExportQuestionBlock(q.(tip := None));
    var core := "❓ " + q.question + "\n" + "💡 Resposta: " + q.answer + "\n" + "📊 Nível: " + q.level + "\n";
    assert bare == core + "\n";
    assert bare[..|bare| - 1] == core;
  }

  /** With no line breaks inside, the contexts body is exactly three lines and a blank one:
      the description, the relevance and all examples joined by `, ` on a single line. */
  lemma ExportContextsLines(ctx: ImportantContexts)
    requires '\n' !in ctx.description && '\n' !in ctx.relevance
    requires forall i :: 0 <= i < |ctx.examples| ==> '\n' !in ctx.examples[i]
    ensures Split(ExportContextsBody(ctx), '\n')
            == [ctx.description, "Relevância: " + ctx.relevance, "Exemplos: " + Join(ctx.examples, ", "), "", ""]
  {
    var l2, l3 := "Relevância: " + ctx.relevance, "Exemplos: " + Join(ctx.examples, ", ");
    JoinFree(ctx.examples, ", ", '\n');
    assert ExportContextsBody(ctx) == ctx.description + ['\n'] + (l2 + ['\n'] + (l3 + ['\n'] + ("" + ['\n'] + "")));
    SplitLine("", "", '\n');
    SplitLine(l3, "" + ['\n'] + "", '\n');
    SplitLine(l2, l3 + ['\n'] + ("" + ['\n'] + ""), '\n');
    SplitLine(ctx.description, l2 + ['\n'] + (l3 + ['\n'] + ("" + ['\n'] + "")), '\n');
  }

  /** With no line breaks inside, the prerequisite text is one `- item` line per prerequisite
      and the step text one `k. step` line per step, in input order; an empty list emits no line. */
  lemma ExportLearningLines(ls: LearningStructure)
    requires forall i :: 0 <= i < |ls.prerequisites| ==> '\n' !in ls.prerequisites[i]
    requires forall i :: 0 <= i < |ls.learningSequence| ==> '\n' !in ls.learningSequence[i]
    ensures Split(ConcatMap(Prefixed("- ", ls.prerequisites), Line), '\n') == Prefixed("- ", ls.prerequisites) + [""]
    ensures Split(ConcatMap(Numbered(ls.learningSequence), Line), '\n') == Numbered(ls.learningSequence) + [""]
  {
    var ps := Prefixed("- ", ls.prerequisites);
    forall i | 0 <= i < |ps| ensures '\n' !in ps[i] {
      assert ps[i] == "- " + ls.prerequisites[i];
    }
    ItemLines(ps);
    var ns := Numbered(ls.learningSequence);
    forall i | 0 <= i < |ns| ensures '\n' !in ns[i] {
      assert ns[i] == NatToString(i + 1) + ". " + ls.learningSequence[i];
    }
    ItemLines(ns);
  }

  /** On an empty learning structure the export emits no item lines, while the copy keeps
      the blank lines of its two empty joins: the copy is two line breaks longer. */
  lemma EmptyLearningExport(ls: LearningStructure)
    requires ls.prerequisites == [] && ls.learningSequence == []
    ensures ExportLearningBody(ls) == "Pré-requisitos:\n\nSequência de Aprendizado:\n\n"
    ensures |LearningBody(ls)| == |ExportLearningBody(ls)| + 2
  {
    assert Prefixed("- ", ls.prerequisites) == [] && Numbered(ls.learningSequence) == [];
    assert Prefixed("• ", ls.prerequisites) == [];
  }

  // ---------------------------------------------------------------- the page's export handler

  /** What is handed to the download: the text export, or the document for `JSON.stringify`. */
  datatype Payload = PlainText(text: string) | JsonDocument(doc: AnalysisResult)

  datatype Download = Download(filename: string, mimeType: string, payload: Payload)

  /** `handleExport` of the page: nothing without a result, a `.txt` or `.json` download for
      text and JSON, nothing for PDF and DOCX (the report handles those itself). */
  function HandleExport(analysisResult: Option<AnalysisResult>, format: ExportFormat, isoNow: string): (d: Option<Download>)
    ensures d.Some? <==> analysisResult.Some? && format in {Text, Json}
    ensures d.Some? && format == Text ==>
      d.value == Download("analise-" + DatePart(isoNow) + ".txt", "text/plain", PlainText(ExportText(analysisResult.value)))
    ensures d.Some? && format == Json ==>
      d.value == Download("analise-" + DatePart(isoNow) + ".json", "application/json", JsonDocument(analysisResult.value))
  {
    if analysisResult.None? then None
    else if format == Text then
      Some(Download(BaseFilename(isoNow) + ".txt", "text/plain", PlainText(ExportText(analysisResult.value))))
    else if format == Json then
      Some(Download(BaseFilename(isoNow) + ".json", "application/json", JsonDocument(analysisResult.value)))
    else None
  }

  /** For a timestamp `date + "T" + time`, the page's downloads are named `analise-<date>.txt`
      and `analise-<date>.json`. */
  lemma ExportFilenameOfTimestamp(result: AnalysisResult, date: string, time: string)
    requires 'T' !in date
    ensures HandleExport(Some(result), Text, date + "T" + time).value.filename == "analise-" + date + ".txt"
    ensures HandleExport(Some(result), Json, date + "T" + time).value.filename == "analise-" + date + ".json"
  {
    DatePartOfTimestamp(date, time);
  }

  // ---------------------------------------------------------------- the submission state machine

  datatype Tab = Transcricao | Analise

  datatype Toast = Toast(title: string, description: string, destructive: bool)

  const UrlMissingToast := Toast("Erro", "Por favor, insira uma URL do YouTube válida.", true)
  const AnalysisDoneToast := Toast("Análise concluída!", "O relatório foi gerado com sucesso.", false)
  const AnalysisFailedToast := Toast("Erro", "Ocorreu um erro ao analisar o conteúdo. Tente novamente.", true)

  /** How the analysis provider's promise settles. */
  datatype ProviderOutcome = Success(result: AnalysisResult) | Failure

  /** The page's state: the URL field, the processing flag, whether results are shown,
      the last result and the selected tab. */
  class AnalysisPage {
    var youtubeUrl: string
    var isProcessing: bool
    var hasResults: bool
    var analysisResult: Option<AnalysisResult>
    var activeTab: Tab

    /** Results are shown exactly when there is a result. */
    predicate Consistent()
      reads this
    {
      hasResults <==> analysisResult.Some?
    }

    /** The analyse button's `disabled`: while processing or with an empty URL. */
    predicate AnalyzeDisabled()
      reads this
    {
      isProcessing || youtubeUrl == ""
    }

    constructor()
      ensures youtubeUrl == "" && !isProcessing && !hasResults
      ensures analysisResult == None && activeTab == Transcricao
      ensures Consistent() && AnalyzeDisabled()
    {
      youtubeUrl := "";
      isProcessing := false;
      hasResults := false;
      analysisResult := None;
      activeTab := Transcricao;
    }

    /** The URL field's `onChange`. */
    method SetYoutubeUrl(url: string)
      modifies this
      ensures youtubeUrl == url
      ensures isProcessing == old(isProcessing) && hasResults == old(hasResults)
      ensures analysisResult == old(analysisResult) && activeTab == old(activeTab)
      ensures AnalyzeDisabled() <==> isProcessing || url == ""
    {
      youtubeUrl := url;
    }

    /** The tab buttons. */
    method SelectTab(tab: Tab)
      modifies this
      ensures activeTab == tab
      ensures youtubeUrl == old(youtubeUrl) && isProcessing == old(isProcessing)
      ensures hasResults == old(hasResults) && analysisResult == old(analysisResult)
    {
      activeTab := tab;
    }

    /** `handleAnalyze` up to the provider call: with an empty URL it shows the error toast
        and stops without touching the state; otherwise it raises `isProcessing`. */
    method StartAnalyze() returns (proceed: bool, toast: Option<Toast>)
      modifies this
      ensures proceed <==> old(youtubeUrl) != ""
      ensures !proceed ==> toast == Some(UrlMissingToast) && unchanged(this)
      ensures proceed ==> toast == None && isProcessing && AnalyzeDisabled()
      ensures proceed ==> youtubeUrl == old(youtubeUrl) && hasResults == old(hasResults)
      ensures proceed ==> analysisResult == old(analysisResult) && activeTab == old(activeTab)
    {
      if youtubeUrl == "" {
        return false, Some(UrlMissingToast);
      }
      isProcessing := true;
      return true, None;
    }

    /** `handleAnalyze` after the provider settles: a result is stored and shown on the
        analysis tab; a failure keeps the previous result and tab; `finally` lowers the flag. */
    method FinishAnalyze(outcome: ProviderOutcome) returns (toast: Toast)
      modifies this
      ensures !isProcessing && youtubeUrl == old(youtubeUrl)
      ensures outcome.Success? ==>
        analysisResult == Some(outcome.result) && hasResults && activeTab == Analise && toast == AnalysisDoneToast
      ensures outcome.Failure? ==>
        analysisResult == old(analysisResult) && hasResults == old(hasResults) && activeTab == old(activeTab)
        && toast == AnalysisFailedToast
      ensures old(Consistent()) ==> Consistent()
    {
      match outcome {
        case Success(result) =>
          analysisResult := Some(result);
          hasResults := true;
          activeTab := Analise;
          toast := AnalysisDoneToast;
        case Failure =>
          toast := AnalysisFailedToast;
      }
      isProcessing := false;
    }

    /** The whole `handleAnalyze`: the provider is consulted only for a non-empty URL. */
    method HandleAnalyze(outcome: ProviderOutcome) returns (providerCalled: bool, toast: Toast)
      modifies this
      ensures providerCalled <==> old(youtubeUrl) != ""
      ensures !providerCalled ==> toast == UrlMissingToast && unchanged(this)
      ensures providerCalled ==> !isProcessing && youtubeUrl == old(youtubeUrl)
      ensures providerCalled && outcome.Success? ==>
        analysisResult == Some(outcome.result) && hasResults && activeTab == Analise && toast == AnalysisDoneToast
      ensures providerCalled && outcome.Failure? ==>
        analysisResult == old(analysisResult) && hasResults == old(hasResults) && activeTab == old(activeTab)
        && toast == AnalysisFailedToast
      ensures old(Consistent()) ==> Consistent()
    {
      var early: Option<Toast>;
      providerCalled, early := StartAnalyze();
      if !providerCalled {
        return false, early.value;
      }
      toast := FinishAnalyze(outcome);
    }
  }
}
