/**
 * The document-link entry point (`LinkProvider.provideDocumentLinks` with
 * `isDocumentInfoAssessmentFile` and `parseDocument`): decide whether the
 * document is an assessment file inside a course, parse it, and build its
 * links. Every inapplicable case resolves to no links.
 */
module LinkProvider {
  import opened Wrappers
  import opened JsonAst
  import opened FileSystem
  import opened RootLocator
  import opened LinkExtractor

  const AssessmentFileName: string := "infoAssessment.json"

  /** `isDocumentInfoAssessmentFile`: the file's name (its last path segment) is `infoAssessment.json`. */
  function IsDocumentInfoAssessmentFile(documentPath: Path): (r: bool)
    ensures r <==> documentPath != [] && documentPath[|documentPath| - 1] == "infoAssessment.json"
  {
    Basename(documentPath) == AssessmentFileName
  }

  /** `parseDocument`: the parser's tree, or None when the parser throws. */
  function ParseDocument(outcome: ParseOutcome): (r: Option<JsonDocument>)
    ensures r.None? <==> outcome.ParserThrew?
    ensures r.Some? ==> r.value == outcome.document
  {
    match outcome
    case Parsed(document) => Some(document)
    case ParserThrew => None
  }

  /** What the provider's promise settles to: the links, or the TypeError a callback threw. */
  datatype ProviderResult = Resolved(links: seq<DocumentLink>) | Rejected(reason: TypeError)

  /**
   * The value `provideDocumentLinks` settles to, for a filesystem state, the
   * workspace folder the host reports for the document (if any), the
   * document's path and what the parser makes of its text.
   */
  function ProvidedLinks(fs: FileSystem, workspaceFolder: Option<Path>, documentPath: Path,
                         parsed: ParseOutcome): ProviderResult
    requires workspaceFolder.Some? ==> workspaceFolder.value < documentPath
  {
    var isPLCourse := FindPrairieLearnRoot(fs, workspaceFolder, documentPath).Some?;
    if !IsDocumentInfoAssessmentFile(documentPath) || !isPLCourse then Resolved([])
    else
      match ParseDocument(parsed)
      case None => Resolved([])
      case Some(jsonAst) =>
        if TypeTag(jsonAst) == "Array" || TypeTag(jsonAst) == "Literal" then Resolved([])
        else
          match FindPrairieLearnRoot(fs, workspaceFolder, documentPath)
          case None => Resolved([])
          case Some(root) =>
            match DocumentLinks(root, jsonAst)
            case Success(links) => Resolved(links)
            case Failure(e) => Rejected(e)
  }

  /** `provideDocumentLinks`, building the links with the loops of `buildLinks`. */
  method ProvideDocumentLinks(fs: FileSystem, workspaceFolder: Option<Path>, documentPath: Path,
                              parsed: ParseOutcome) returns (r: ProviderResult)
    requires workspaceFolder.Some? ==> workspaceFolder.value < documentPath
    ensures r == ProvidedLinks(fs, workspaceFolder, documentPath, parsed)
  {
    var isPLCourse := FindPrairieLearnRoot(fs, workspaceFolder, documentPath).Some?;
    if !IsDocumentInfoAssessmentFile(documentPath) || !isPLCourse {
      return Resolved([]);
    }
    var jsonAst := ParseDocument(parsed);
    if jsonAst.None? {
      // Probably a parser error
      return Resolved([]);
    }
    if TypeTag(jsonAst.value) == "Array" || TypeTag(jsonAst.value) == "Literal" {
      // Malformed document
      return Resolved([]);
    }
    var prairieLearnRoot := FindPrairieLearnRoot(fs, workspaceFolder, documentPath);
    if prairieLearnRoot.None? {
      return Resolved([]);
    }
    var links := BuildLinks(prairieLearnRoot.value, jsonAst.value);
    match links
    case Success(ls) => r := Resolved(ls);
    case Failure(e) => r := Rejected(e);
  }

  /**
   * Every inapplicable case resolves to no links: a file not named
   * `infoAssessment.json`, no course root, a parser exception, a top-level
   * Array or Literal.
   */
  lemma InapplicableYieldsNoLinks(fs: FileSystem, workspaceFolder: Option<Path>, documentPath: Path,
                                  parsed: ParseOutcome)
    requires workspaceFolder.Some? ==> workspaceFolder.value < documentPath
    requires || !IsDocumentInfoAssessmentFile(documentPath)
             || FindPrairieLearnRoot(fs, workspaceFolder, documentPath).None?
             || parsed.ParserThrew?
             || parsed.document.Array? || parsed.document.Literal?
    ensures ProvidedLinks(fs, workspaceFolder, documentPath, parsed) == Resolved([])
  {
  }

  /**
   * Otherwise the result is that of `buildLinks` on the top-level Object,
   * with the course root the walk found.
   */
  lemma ApplicableYieldsDocumentLinks(fs: FileSystem, workspaceFolder: Option<Path>, documentPath: Path,
                                      document: JsonDocument, root: Path)
    requires workspaceFolder.Some? ==> workspaceFolder.value < documentPath
    requires IsDocumentInfoAssessmentFile(documentPath)
    requires FindPrairieLearnRoot(fs, workspaceFolder, documentPath) == Some(root)
    requires document.Object?
    ensures ProvidedLinks(fs, workspaceFolder, documentPath, Parsed(document))
            == match DocumentLinks(root, document)
               case Success(links) => Resolved(links)
               case Failure(e) => Rejected(e)
  {
  }

  /**
   * End to end: links come only from an assessment file in a course whose
   * text parses to an Object; the root is the nearest marker directory up
   * to the workspace folder; the k-th link is the link of the k-th
   * qualifying `id` literal across all zones, with range computed from its
   * location and target `<root>/questions/<qid>/question.html`.
   */
  lemma ResolvedLinksComeFromIds(fs: FileSystem, workspaceFolder: Option<Path>, documentPath: Path,
                                 parsed: ParseOutcome, links: seq<DocumentLink>)
    requires workspaceFolder.Some? ==> workspaceFolder.value < documentPath
    requires ProvidedLinks(fs, workspaceFolder, documentPath, parsed) == Resolved(links)
    requires links != []
    ensures IsDocumentInfoAssessmentFile(documentPath)
    ensures parsed.Parsed? && parsed.document.Object?
    ensures workspaceFolder.Some?
    ensures var root := NearestInfoCourse(fs, workspaceFolder.value, Parent(documentPath));
            var ids := IdLiterals(AllQuestions(DocumentZones(parsed.document)));
            && root.Some?
            && |links| == |ids|
            && forall k :: 0 <= k < |ids| ==>
                 Linkable(ids[k])
                 && links[k] == DocumentLink(LinkRange(ids[k].loc.value), GetQuestionUri(root.value, ids[k].value.str))
  {
    var root := FindPrairieLearnRoot(fs, workspaceFolder, documentPath).value;
    var document := parsed.document;
    var questions := AllQuestions(DocumentZones(document));
    ZonesLinksFlatten(root, DocumentZones(document));
    QuestionsLinksMatchIds(root, questions);
  }

  /**
   * The provider rejects only when some qualifying `id` literal lacks a
   * location or a string value, and then with that literal's exception.
   */
  lemma RejectionComesFromAnId(fs: FileSystem, workspaceFolder: Option<Path>, documentPath: Path,
                               parsed: ParseOutcome, e: TypeError)
    requires workspaceFolder.Some? ==> workspaceFolder.value < documentPath
    requires ProvidedLinks(fs, workspaceFolder, documentPath, parsed) == Rejected(e)
    ensures parsed.Parsed? && parsed.document.Object?
    ensures var ids := IdLiterals(AllQuestions(DocumentZones(parsed.document)));
            exists k :: 0 <= k < |ids| && !Linkable(ids[k]) && e == LinkError(ids[k])
  {
    var root := FindPrairieLearnRoot(fs, workspaceFolder, documentPath).value;
    var document := parsed.document;
    ZonesLinksFlatten(root, DocumentZones(document));
    QuestionsLinksFirstFailure(root, AllQuestions(DocumentZones(document)));
  }

  // ---------------------------------------------------------------------------
  // Worked examples
  // ---------------------------------------------------------------------------

  /** The location json-to-ast reports for characters [from, to) of a one-line text. */
  function Span(from: int, to: int): Option<JsonLocation> {
    Some(JsonLocation(JsonPosition(1, from + 1, from), JsonPosition(1, to + 1, to), None))
  }

  /** The question `{"<key>":"<qid>"}` at offset 24 of the example text. */
  function ExampleQuestion(key: string, qid: string): Node {
    var idStart := 25 + |key| + 3;
    var idEnd := idStart + |qid| + 2;
    var idLiteral := Literal(StringValue(qid), "\"" + qid + "\"", Span(idStart, idEnd));
    Object([Property(Identifier(key, "\"" + key + "\"", Span(25, 25 + |key| + 2)), idLiteral, Span(25, idEnd))],
           Span(24, idEnd + 1))
  }

  /** The zone `{"questions":[<question>]}` at offset 10, for a question ending at offset `end`. */
  function ExampleZone(question: Node, end: int): Node {
    Object([Property(Identifier("questions", "\"questions\"", Span(11, 22)), Array([question], Span(23, end + 1)),
                     Span(11, end + 1))], Span(10, end + 2))
  }

  /** The tree of the one-line text `{"zones":[{"questions":[{"<key>":"<qid>"}]}]}`. */
  function ExampleDocument(key: string, qid: string): JsonDocument {
    var questionEnd := 25 + |key| + 3 + |qid| + 2 + 1;
    var zones := Array([ExampleZone(ExampleQuestion(key, qid), questionEnd)], Span(9, questionEnd + 3));
    Object([Property(Identifier("zones", "\"zones\"", Span(1, 8)), zones, Span(1, questionEnd + 3))],
           Span(0, questionEnd + 4))
  }

  /** The example document's links are its one question's links. */
  lemma ExampleDocumentLinks(root: Path, key: string, qid: string)
    ensures DocumentLinks(root, ExampleDocument(key, qid)) == QuestionLinks(root, ExampleQuestion(key, qid))
  {
    var question := ExampleQuestion(key, qid);
    var zone := ExampleZone(question, 25 + |key| + 3 + |qid| + 2 + 1);
    assert DocumentZones(ExampleDocument(key, qid)) == [zone];
    assert ZoneQuestions(zone) == [question];
    QuestionsLinksUnfold(root, [question]);
    assert [question][1..] == [];
    ZonesLinksUnfold(root, [zone]);
    assert [zone][1..] == [];
  }

  const CourseFs: FileSystem := map[["course", "infoCourse.json"] := RegularFile]
  const AssessmentPath: Path := ["course", "courseInstances", "Sp20", "assessments", "hw1", "infoAssessment.json"]

  /** In a course rooted at `/course`, the root walk from the assessment's directory stops at `/course`. */
  lemma AssessmentRootScenario()
    ensures FindPrairieLearnRoot(CourseFs, Some(["course"]), AssessmentPath) == Some(["course"])
  {
    var dir := Parent(AssessmentPath);
    assert dir == ["course", "courseInstances", "Sp20", "assessments", "hw1"];
    assert forall k :: 1 < k <= 5 ==> !HasMarker(CourseFs, dir[..k]);
    assert dir[..1] == ["course"];
    assert Join(["course"], MarkerName) == ["course", "infoCourse.json"];
    assert HasMarker(CourseFs, dir[..1]);
  }

  /**
   * `{"zones":[{"questions":[{"id":"addNumbers"}]}]}` in a course rooted at
   * `/course` yields one link, covering the 10 characters of `addNumbers`
   * (0-indexed columns 31 to 41) and opening
   * `/course/questions/addNumbers/question.html`.
   */
  lemma AddNumbersScenario()
    ensures ProvidedLinks(CourseFs, Some(["course"]), AssessmentPath, Parsed(ExampleDocument("id", "addNumbers")))
            == Resolved([DocumentLink(Range(Position(0, 31), Position(0, 41)),
                                      FileUri(["course", "questions", "addNumbers", "question.html"]))])
  {
    var root := ["course"];
    var question := ExampleQuestion("id", "addNumbers");
    var idLiteral := Literal(StringValue("addNumbers"), "\"addNumbers\"", Span(30, 42));
    assert |"id"| == 2 && |"addNumbers"| == 10;
    assert "\"" + "addNumbers" + "\"" == "\"addNumbers\"";
    assert question.properties[0].value == idLiteral;
    assert FindProperty(question.properties, "id") == Some(question.properties[0]);
    assert IdLiteral(question) == Some(idLiteral);
    assert LinkRange(Span(30, 42).value) == Range(Position(0, 31), Position(0, 41));
    assert GetQuestionUri(root, "addNumbers") == FileUri(["course", "questions", "addNumbers", "question.html"]);
    ExampleDocumentLinks(root, "id", "addNumbers");
    AssessmentRootScenario();
    ApplicableYieldsDocumentLinks(CourseFs, Some(root), AssessmentPath, ExampleDocument("id", "addNumbers"), root);
  }

  /** `{"zones":[{"questions":[{"notId":"x"}]}]}` yields no links. */
  lemma NotIdScenario()
    ensures ProvidedLinks(CourseFs, Some(["course"]), AssessmentPath, Parsed(ExampleDocument("notId", "x")))
            == Resolved([])
  {
    AssessmentRootScenario();
    ExampleDocumentLinks(["course"], "notId", "x");
    assert IdLiteral(ExampleQuestion("notId", "x")).None?;
  }
}
