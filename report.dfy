/** The analysis report of `ReportSection.tsx`: its document model and the
    parts of the component that compute rather than draw: the text copied to
    the clipboard, the open/closed map the component keeps (no rendering reads it), the
    paragraphs of the executive summary and the export dispatch. */
module Report {
  import opened TextUtil
  import opened Wrappers

  // ---------------------------------------------------------------- document model

  datatype KeyConcept = KeyConcept(
    title: string, description: string, importance: string, difficulty: string,
    example: string, tip: Option<string>)

  datatype MainPoint = MainPoint(
    title: string, description: string, context: string, application: string,
    memoryTechnique: string)

  datatype StudyQuestion = StudyQuestion(
    question: string, answer: string, level: string, tip: Option<string>)

  datatype ImportantContexts = ImportantContexts(
    title: string, description: string, relevance: string, examples: seq<string>)

  datatype LearningStructure = LearningStructure(
    prerequisites: seq<string>, learningSequence: seq<string>)

  datatype StudyTechnique = StudyTechnique(
    name: string, whenToUse: string, effectiveness: string)

  /** `wordCount` and `segments` are JavaScript numbers; the model takes integers. */
  datatype Metadata = Metadata(date: string, wordCount: int, segments: int, source: string)

  datatype Summary = Summary(
    executiveSummary: string,
    keyConcepts: seq<KeyConcept>,
    mainPoints: seq<MainPoint>,
    importantContexts: ImportantContexts,
    learningStructure: LearningStructure,
    studyTechniques: seq<StudyTechnique>,
    studyQuestions: seq<StudyQuestion>,
    metadata: Metadata)

  datatype AnalysisResult = AnalysisResult(summary: Summary)

  /** JavaScript truthiness of an optional tip: present and not the empty string. */
  predicate Truthy(tip: Option<string>)
  {
    tip.Some? && tip.value != ""
  }

  /** `xs.map(x => prefix + x)`. */
  function Prefixed(prefix: string, xs: seq<string>): seq<string>
  {
    seq(|xs|, i requires 0 <= i < |xs| => prefix + xs[i])
  }

  /** `xs.map((x, i) => `${i + 1}. ${x}`)`. */
  function Numbered(xs: seq<string>): seq<string>
  {
    seq(|xs|, i requires 0 <= i < |xs| => NatToString(i + 1) + ". " + xs[i])
  }

  // ---------------------------------------------------------------- the copied text

  const TipMarker := "💡 Dica: "

  function ConceptBlock(c: KeyConcept): string
  {
    var base := c.title + "\n" + c.description + "\n"
                + "Importância: " + c.importance + "\n"
                + "Dificuldade: " + c.difficulty + "\n"
                + "Exemplo:\n" + c.example + "\n\n";
    if Truthy(c.tip) then base + TipMarker + c.tip.value + "\n\n" else base
  }

  function PointBlock(p: MainPoint): string
  {
    p.title + "\n" + p.description + "\n"
    + "📍 Contexto: " + p.context + "\n"
    + "📍 Aplicação: " + p.application + "\n"
    + "📍 Técnica de Memória: " + p.memoryTechnique + "\n\n"
  }

  function ContextsBody(ctx: ImportantContexts): string
  {
    ctx.description + "\n"
    + "Relevância: " + ctx.relevance + "\n"
    + "Exemplos:\n" + Join(Prefixed("➤ ", ctx.examples), "\n") + "\n\n"
  }

  function LearningBody(ls: LearningStructure): string
  {
    "Pré-requisitos:\n"
    + Join(Prefixed("• ", ls.prerequisites), "\n") + "\n\n"
    + "Sequência de Aprendizado:\n"
    + Join(Numbered(ls.learningSequence), "\n") + "\n\n"
  }

  function TechniqueBlock(t: StudyTechnique): string
  {
    t.name + "\n"
    + "📍 Quando usar: " + t.whenToUse + "\n"
    + "📍 Eficácia: " + t.effectiveness + "\n\n"
  }

  function QuestionBlock(q: StudyQuestion): string
  {
    var base := q.question + "\n"
                + "Resposta:\n" + q.answer + "\n"
                + "📍 Nível: " + q.level + "\n";
    (if Truthy(q.tip) then base + TipMarker + q.tip.value + "\n" else base) + "\n"
  }

  function MetadataBody(m: Metadata): string
  {
    "Data: " + m.date + "\n"
    + "Palavras: " + IntToString(m.wordCount) + "\n"
    + "Segmentos: " + IntToString(m.segments) + "\n"
    + "Fonte: " + m.source + "\n"
  }

  /** The text `generateReportText` returns, as its eight sections in their fixed order. */
  function ReportSections(data: AnalysisResult): seq<Section>
  {
    var s := data.summary;
    [Section("RESUMO EXECUTIVO", s.executiveSummary + "\n\n"),
     Section("CONCEITOS CHAVE", ConcatMap(s.keyConcepts, ConceptBlock)),
     Section("PONTOS PRINCIPAIS", ConcatMap(s.mainPoints, PointBlock)),
     Section(Upper(s.importantContexts.title), ContextsBody(s.importantContexts)),
     Section("ESTRUTURA DE APRENDIZADO", LearningBody(s.learningStructure)),
     Section("TÉCNICAS DE ESTUDO", ConcatMap(s.studyTechniques, TechniqueBlock)),
     Section("PERGUNTAS DE ESTUDO", ConcatMap(s.studyQuestions, QuestionBlock)),
     Section("INFORMAÇÕES DAS NOTAS", MetadataBody(s.metadata))]
  }

  function ReportText(data: AnalysisResult): string
  {
    JoinSections(ReportSections(data))
  }

  /** `generateReportText`: the accumulator of the copy action, section by section.
      The four list sections are appended by loops of their own below. */
  method GenerateReportText(data: AnalysisResult) returns (text: string)
    ensures text == ReportText(data)
  {
    var s := data.summary;
    var body := s.executiveSummary + "\n\n";
    SectionAppended([], "", "RESUMO EXECUTIVO", body);
    text := "" + Delimiter("RESUMO EXECUTIVO") + body;
    ghost var ss := [] + [Section("RESUMO EXECUTIVO", body)];

    ghost var done := text;
    text := AppendConcepts(text + Delimiter("CONCEITOS CHAVE"), s.keyConcepts);
    SectionAppended(ss, done, "CONCEITOS CHAVE", ConcatMap(s.keyConcepts, ConceptBlock));
    ss := ss + [Section("CONCEITOS CHAVE", ConcatMap(s.keyConcepts, ConceptBlock))];

    done := text;
    text := AppendPoints(text + Delimiter("PONTOS PRINCIPAIS"), s.mainPoints);
    SectionAppended(ss, done, "PONTOS PRINCIPAIS", ConcatMap(s.mainPoints, PointBlock));
    ss := ss + [Section("PONTOS PRINCIPAIS", ConcatMap(s.mainPoints, PointBlock))];

    done := text;
    var ctx := s.importantContexts;
    text := text + Delimiter(Upper(ctx.title));
    body := ctx.description + "\n"
            + "Relevância: " + ctx.relevance + "\n"
            + "Exemplos:\n" + Join(Prefixed("➤ ", ctx.examples), "\n") + "\n\n";
    text := text + body;
    SectionAppended(ss, done, Upper(ctx.title), body);
    ss := ss + [Section(Upper(ctx.title), body)];

    done := text;
    text := text + Delimiter("ESTRUTURA DE APRENDIZADO");
    body := "Pré-requisitos:\n"
            + Join(Prefixed("• ", s.learningStructure.prerequisites), "\n") + "\n\n"
            + "Sequência de Aprendizado:\n"
            + Join(Numbered(s.learningStructure.learningSequence), "\n") + "\n\n";
    text := text + body;
    SectionAppended(ss, done, "ESTRUTURA DE APRENDIZADO", body);
    ss := ss + [Section("ESTRUTURA DE APRENDIZADO", body)];

    done := text;
    text := AppendTechniques(text + Delimiter("TÉCNICAS DE ESTUDO"), s.studyTechniques);
    SectionAppended(ss, done, "TÉCNICAS DE ESTUDO", ConcatMap(s.studyTechniques, TechniqueBlock));
    ss := ss + [Section("TÉCNICAS DE ESTUDO", ConcatMap(s.studyTechniques, TechniqueBlock))];

    done := text;
    text := AppendQuestions(text + Delimiter("PERGUNTAS DE ESTUDO"), s.studyQuestions);
    SectionAppended(ss, done, "PERGUNTAS DE ESTUDO", ConcatMap(s.studyQuestions, QuestionBlock));
    ss := ss + [Section("PERGUNTAS DE ESTUDO", ConcatMap(s.studyQuestions, QuestionBlock))];

    done := text;
    var meta := s.metadata;
    text := text + Delimiter("INFORMAÇÕES DAS NOTAS");
    body := "Data: " + meta.date + "\n"
            + "Palavras: " + IntToString(meta.wordCount) + "\n"
            + "Segmentos: " + IntToString(meta.segments) + "\n"
            + "Fonte: " + meta.source + "\n";
    text := text + body;
    SectionAppended(ss, done, "INFORMAÇÕES DAS NOTAS", body);
    ss := ss + [Section("INFORMAÇÕES DAS NOTAS", body)];
    assert ss == ReportSections(data) by {
      var r := ReportSections(data);
      EightSections(r[0], r[1], r[2], r[3], r[4], r[5], r[6], r[7]);
    }
  }

  /** Eight one-element appends to the empty list are the eight-element list. */
  lemma EightSections(a: Section, b: Section, c: Section, d: Section, e: Section, f: Section, g: Section, h: Section)
    ensures [] + [a] + [b] + [c] + [d] + [e] + [f] + [g] + [h] == [a, b, c, d, e, f, g, h]
  {
  }

  /** The `keyConcepts.forEach` loop: each concept's lines, in order, after `start`. */
  method AppendConcepts(start: string, cs: seq<KeyConcept>) returns (text: string)
    ensures text == start + ConcatMap(cs, ConceptBlock)
  {
    text := start;
    for i := 0 to |cs|
      invariant text == start + ConcatMap(cs[..i], ConceptBlock)
    {
      var concept := cs[i];
      var block := concept.title + "\n" + concept.description + "\n"
                   + "Importância: " + concept.importance + "\n"
                   + "Dificuldade: " + concept.difficulty + "\n"
                   + "Exemplo:\n" + concept.example + "\n\n";
      if Truthy(concept.tip) {
        block := block + TipMarker + concept.tip.value + "\n\n";
      }
      ConcatMapStep(start, cs, ConceptBlock, i, block);
      text := text + block;
    }
    assert cs[..|cs|] == cs;
  }

  /** The `mainPoints.forEach` loop. */
  method AppendPoints(start: string, ps: seq<MainPoint>) returns (text: string)
    ensures text == start + ConcatMap(ps, PointBlock)
  {
    text := start;
    for i := 0 to |ps|
      invariant text == start + ConcatMap(ps[..i], PointBlock)
    {
      var point := ps[i];
      var block := point.title + "\n" + point.description + "\n"
                   + "📍 Contexto: " + point.context + "\n"
                   + "📍 Aplicação: " + point.application + "\n"
                   + "📍 Técnica de Memória: " + point.memoryTechnique + "\n\n";
      ConcatMapStep(start, ps, PointBlock, i, block);
      text := text + block;
    }
    assert ps[..|ps|] == ps;
  }

  /** The `studyTechniques.forEach` loop. */
  method AppendTechniques(start: string, ts: seq<StudyTechnique>) returns (text: string)
    ensures text == start + ConcatMap(ts, TechniqueBlock)
  {
    text := start;
    for i := 0 to |ts|
      invariant text == start + ConcatMap(ts[..i], TechniqueBlock)
    {
      var tech := ts[i];
      var block := tech.name + "\n"
                   + "📍 Quando usar: " + tech.whenToUse + "\n"
                   + "📍 Eficácia: " + tech.effectiveness + "\n\n";
      ConcatMapStep(start, ts, TechniqueBlock, i, block);
      text := text + block;
    }
    assert ts[..|ts|] == ts;
  }

  /** The `studyQuestions.forEach` loop. */
  method AppendQuestions(start: string, qs: seq<StudyQuestion>) returns (text: string)
    ensures text == start + ConcatMap(qs, QuestionBlock)
  {
    text := start;
    for i := 0 to |qs|
      invariant text == start + ConcatMap(qs[..i], QuestionBlock)
    {
      var q := qs[i];
      var block := q.question + "\n"
                   + "Resposta:\n" + q.answer + "\n"
                   + "📍 Nível: " + q.level + "\n";
      if Truthy(q.tip) {
        block := block + TipMarker + q.tip.value + "\n";
      }
      block := block + "\n";
      ConcatMapStep(start, qs, QuestionBlock, i, block);
      text := text + block;
    }
    assert qs[..|qs|] == qs;
  }

  // ---------------------------------------------------------------- properties of the copied text

  /** Whatever the content, the copy has eight sections with these headings in this
      order (an empty list still gets its heading); the fourth is the document's own
      contexts title in upper case. */
  lemma ReportSectionHeadings(data: AnalysisResult)
    ensures |ReportSections(data)| == 8
    ensures Headings(ReportSections(data))
            == ["RESUMO EXECUTIVO", "CONCEITOS CHAVE", "PONTOS PRINCIPAIS",
                Upper(data.summary.importantContexts.title),
                "ESTRUTURA DE APRENDIZADO", "TÉCNICAS DE ESTUDO", "PERGUNTAS DE ESTUDO",
                "INFORMAÇÕES DAS NOTAS"]
  {
  }

  /** Heading `k` appears as the line `=== heading ===` followed by a blank line,
      and every heading starts after the one before it. */
  lemma ReportHeadingLine(data: AnalysisResult, k: nat)
    requires k < 8
    ensures var ss := ReportSections(data);
      var text, off, line := ReportText(data), SectionOffset(ss, k), Delimiter(Headings(ss)[k]);
      off + |line| <= |text| && text[off..off + |line|] == line
    ensures k < 7 ==> SectionOffset(ReportSections(data), k) < SectionOffset(ReportSections(data), k + 1)
  {
    SectionHeadingAt(ReportSections(data), k);
  }

  /** The copied text ends with the source line of the metadata. */
  lemma ReportTextEnd(data: AnalysisResult)
    ensures var text, last := ReportText(data), "Fonte: " + data.summary.metadata.source + "\n";
      |last| <= |text| && text[|text| - |last|..] == last
  {
  }

  /** A concept's tip line is there exactly when the tip is truthy; nothing else changes. */
  lemma ConceptTipLine(c: KeyConcept)
    ensures ConceptBlock(c) == ConceptBlock(c.(tip := None))
                               + (if Truthy(c.tip) then TipMarker + c.tip.value + "\n\n" else "")
  {
  }

  /** A question's tip line is there exactly when the tip is truthy, just before the closing blank line. */
  lemma QuestionTipLine(q: StudyQuestion)
    ensures var bare := QuestionBlock(q.(tip := None));
      |bare| >= 1 && bare[|bare| - 1] == '\n' &&
      QuestionBlock(q) == bare[..|bare| - 1] + (if Truthy(q.tip) then TipMarker + q.tip.value + "\n" else "") + "\n"
  {
    var bare := QuestionBlock(q.(tip := None));
    var core := q.question + "\n" + "Resposta:\n" + q.answer + "\n" + "📍 Nível: " + q.level + "\n";
    assert bare == core + "\n";
    assert bare[..|bare| - 1] == core;
  }

  /** Every concept contributes its block at its own position: no reordering. */
  lemma ReportConceptAt(data: AnalysisResult, i: nat)
    requires i < |data.summary.keyConcepts|
    ensures var cs := data.summary.keyConcepts;
      ConcatMap(cs, ConceptBlock)
        == ConcatMap(cs[..i], ConceptBlock) + ConceptBlock(cs[i]) + ConcatMap(cs[i + 1..], ConceptBlock)
  {
    ConcatMapAt(data.summary.keyConcepts, ConceptBlock, i);
  }

  /** With items free of line breaks, the learning sequence is one line `k. item` per item, in input order. */
  lemma NumberedLines(xs: seq<string>)
    requires |xs| >= 1
    requires forall i :: 0 <= i < |xs| ==> '\n' !in xs[i]
    ensures Split(Join(Numbered(xs), "\n"), '\n') == Numbered(xs)
    ensures forall i :: 0 <= i < |xs| ==> Numbered(xs)[i] == NatToString(i + 1) + ". " + xs[i]
  {
    var ns := Numbered(xs);
    forall i | 0 <= i < |ns| ensures '\n' !in ns[i] {
      assert ns[i] == NatToString(i + 1) + ". " + xs[i];
    }
    SplitJoin(ns, '\n');
  }

  /** An empty list under a copy heading still yields its line breaks. */
  lemma EmptyLearningStructure(ls: LearningStructure)
    requires ls.prerequisites == [] && ls.learningSequence == []
    ensures LearningBody(ls) == "Pré-requisitos:\n\n\nSequência de Aprendizado:\n\n\n"
  {
  }

  // ---------------------------------------------------------------- open/closed sections

  /** `openSections`: which sections are open, keyed by name. The component keeps this map
      and defines `toggleSection`, but nothing renders from it or calls the toggle: every
      collapsible widget keeps its own open state. */
  type OpenSections = map<string, bool>

  const SectionKeys: set<string> :=
    {"keyConcepts", "mainPoints", "importantContexts", "learningStructure", "studyTechniques", "studyQuestions"}

  /** The initial `openSections`: the six keys, all open. */
  function InitialOpenSections(): (m: OpenSections)
    ensures m.Keys == SectionKeys
    ensures forall k :: k in m ==> m[k]
  {
    map["keyConcepts" := true, "mainPoints" := true, "importantContexts" := true,
        "learningStructure" := true, "studyTechniques" := true, "studyQuestions" := true]
  }

  /** The names every object inherits from `Object.prototype`: looked up on a map without
      an own key of that name, they read as a function (or, for `__proto__`, an object). */
  const InheritedKeys: set<string> :=
    {"constructor", "hasOwnProperty", "isPrototypeOf", "propertyIsEnumerable",
     "toLocaleString", "toString", "valueOf", "__proto__",
     "__defineGetter__", "__defineSetter__", "__lookupGetter__", "__lookupSetter__"}

  /** The truthiness of `prev[section]`: an own key gives its value, an inherited name a
      truthy value, any other absent key `undefined`. */
  predicate Lookup(prev: OpenSections, section: string)
  {
    if section in prev then prev[section] else section in InheritedKeys
  }

  /** `toggleSection`: `{...prev, [section]: !prev[section]}`. */
  function ToggleSection(prev: OpenSections, section: string): (next: OpenSections)
    ensures next.Keys == prev.Keys + {section}
    ensures section in prev ==> next[section] == !prev[section]
    ensures section !in prev ==> (next[section] <==> section !in InheritedKeys)
    ensures forall k :: k in prev && k != section ==> next[k] == prev[k]
  {
    prev[section := !Lookup(prev, section)]
  }

  /** Toggling a known section twice restores the state. */
  lemma ToggleTwice(prev: OpenSections, section: string)
    requires section in prev
    ensures ToggleSection(ToggleSection(prev, section), section) == prev
  {
  }

  /** Toggling an absent key twice leaves it present, the state is not restored: an ordinary
      name ends closed, an inherited name (first stored as closed) ends open. */
  lemma ToggleUnknownTwice(prev: OpenSections, section: string)
    requires section !in prev
    ensures ToggleSection(ToggleSection(prev, section), section) == prev[section := section in InheritedKeys]
    ensures ToggleSection(ToggleSection(prev, section), section) != prev
  {
  }

  /** Toggling two different sections gives the same state in either order. */
  lemma ToggleCommutes(prev: OpenSections, a: string, b: string)
    requires a != b
    ensures ToggleSection(ToggleSection(prev, a), b) == ToggleSection(ToggleSection(prev, b), a)
  {
  }

  // ---------------------------------------------------------------- executive summary paragraphs

  /** `executiveSummary.split('\n')`: one paragraph per line, the paragraphs rejoin to the summary. */
  function SummaryParagraphs(data: AnalysisResult): (ps: seq<string>)
    ensures |ps| == Count(data.summary.executiveSummary, '\n') + 1
    ensures Join(ps, "\n") == data.summary.executiveSummary
    ensures forall i :: 0 <= i < |ps| ==> '\n' !in ps[i]
  {
    var s := data.summary.executiveSummary;
    SplitLength(s, '\n');
    JoinSplit(s, '\n');
    SplitPiecesFree(s, '\n');
    Split(s, '\n')
  }

  // ---------------------------------------------------------------- export dispatch

  datatype ExportFormat = Text | Json | Pdf | Docx

  /** `isoNow.split('T')[0]`: the date part of an ISO timestamp. */
  function DatePart(isoNow: string): (d: string)
    ensures 'T' !in d
    ensures |d| <= |isoNow| && isoNow[..|d|] == d
    ensures |d| < |isoNow| ==> isoNow[|d|] == 'T'
  {
    SplitPrefixPiece(isoNow, 'T');
    SplitPiecesFree(isoNow, 'T');
    FirstPiece(isoNow, 'T')
  }

  /** `analise-<date>` */
  function BaseFilename(isoNow: string): string
  {
    "analise-" + DatePart(isoNow)
  }

  /** For a timestamp `date + "T" + time` with no `T` in the date, the date part is the date. */
  lemma DatePartOfTimestamp(date: string, time: string)
    requires 'T' !in date
    ensures DatePart(date + "T" + time) == date
  {
    SplitAround(date, time, 'T');
    SplitWithout(date, 'T');
  }

  /** What the report's export buttons do. */
  datatype ReportExportAction =
    | ExportPdfAction(elementId: string, filename: string)
    | ExportDocxAction(result: AnalysisResult, filename: string)
    | ForwardToPage(format: ExportFormat)

  const ReportContentId := "report-content"

  /** `handleExport` of the report: PDF and DOCX are exported here, text and JSON go to `onExport`. */
  function HandleReportExport(format: ExportFormat, result: AnalysisResult, isoNow: string): (a: ReportExportAction)
    ensures format == Pdf <==> a.ExportPdfAction?
    ensures format == Docx <==> a.ExportDocxAction?
    ensures a.ExportPdfAction? ==> a == ExportPdfAction(ReportContentId, "analise-" + DatePart(isoNow))
    ensures a.ExportDocxAction? ==> a == ExportDocxAction(result, "analise-" + DatePart(isoNow))
    ensures a.ForwardToPage? ==> a.format == format && format in {Text, Json}
  {
    match format
    case Pdf => ExportPdfAction(ReportContentId, BaseFilename(isoNow))
    case Docx => ExportDocxAction(result, BaseFilename(isoNow))
    case _ => ForwardToPage(format)
  }
}
