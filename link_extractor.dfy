/**
 * Link extraction (`buildLinks`, `buildLinksFromZoneQuestions`,
 * `getQuestionUri` in src/providers/LinkProvider.ts): walk the fixed
 * zones -> questions -> id schema of an `infoAssessment.json` tree and turn
 * every qualifying `id` literal into a document link.
 */
module LinkExtractor {
  import opened Wrappers
  import opened JsonAst
  import opened FileSystem

  /** `vscode.Position`: a 0-indexed line and character. */
  datatype Position = Position(line: int, character: int)

  /** `vscode.Range`. */
  datatype Range = Range(start: Position, end: Position)

  /** `vscode.Uri.file(path)`. */
  datatype Uri = FileUri(path: Path)

  /** `vscode.DocumentLink`: where to click and what to open. */
  datatype DocumentLink = DocumentLink(range: Range, target: Uri)

  /** The TypeErrors that a link-building callback can throw; each one aborts the whole traversal. */
  datatype TypeError =
    | UndefinedLocation      // `qid.loc!.start` on a literal that carries no location
    | NonStringPathArgument  // `path.join` given a qid that is not a string

  /** The links built so far, or the exception that stopped the traversal. */
  type Links = Result<seq<DocumentLink>, TypeError>

  // ---------------------------------------------------------------------------
  // Sequencing: `links.push(...)` in a `forEach` whose callback may throw
  // ---------------------------------------------------------------------------

  /** The links of `first` followed by those of `rest`; the first exception wins. */
  function Then(first: Links, rest: Links): (r: Links)
    ensures r.Success? <==> first.Success? && rest.Success?
    ensures r.Success? ==> r.value == first.value + rest.value
    ensures first.Failure? ==> r == first
    ensures first.Success? && rest.Failure? ==> r == rest
    ensures first == Success([]) ==> r == rest
    ensures rest == Success([]) ==> r == first
  {
    match first
    case Failure(e) => Failure(e)
    case Success(ls) =>
      match rest
      case Failure(e) => Failure(e)
      case Success(more) =>
        assert ls == [] ==> ls + more == more;
        assert more == [] ==> ls + more == ls;
        Success(ls + more)
  }

  /** Appending the links of three pieces does not depend on how they are grouped. */
  lemma ThenAssociative(x: Links, y: Links, z: Links)
    ensures Then(x, Then(y, z)) == Then(Then(x, y), z)
  {
    if x.Success? && y.Success? && z.Success? {
      assert x.value + (y.value + z.value) == (x.value + y.value) + z.value;
    }
  }

  /** Visit `xs` in array order, concatenating what `f` yields for each; stop at the first exception. */
  function Collect(xs: seq<Node>, f: Node -> Links): Links
    decreases |xs|
  {
    if xs == [] then Success([]) else Then(f(xs[0]), Collect(xs[1..], f))
  }

  /** Visiting `a + b` is visiting `a`, then `b`. */
  lemma {:induction false} CollectAppend(a: seq<Node>, b: seq<Node>, f: Node -> Links)
    ensures Collect(a + b, f) == Then(Collect(a, f), Collect(b, f))
    decreases |a|
  {
    if a == [] {
      assert a + b == b;
    } else {
      assert (a + b)[0] == a[0];
      assert (a + b)[1..] == a[1..] + b;
      CollectAppend(a[1..], b, f);
      ThenAssociative(f(a[0]), Collect(a[1..], f), Collect(b, f));
    }
  }

  /** An element that yields nothing and throws nothing does not change what its siblings yield. */
  lemma CollectSkip(a: seq<Node>, x: Node, b: seq<Node>, f: Node -> Links)
    requires f(x) == Success([])
    ensures Collect(a + [x] + b, f) == Collect(a + b, f)
  {
    assert a + [x] + b == a + ([x] + b);
    CollectAppend(a, [x] + b, f);
    CollectAppend([x], b, f);
    assert [x][1..] == [];
    CollectAppend(a, b, f);
  }

  // ---------------------------------------------------------------------------
  // Property lookup: `children.find(prop => prop.key.value === key)`
  // ---------------------------------------------------------------------------

  /** The first property whose key is `key`, or None when no property has that key. */
  function FindProperty(props: seq<Property>, key: string): (r: Option<Property>)
    ensures r.None? <==> forall i :: 0 <= i < |props| ==> props[i].key.value != key
    ensures r.Some? ==> exists i :: FirstKeyAt(props, key, i) && props[i] == r.value
    ensures forall i :: FirstKeyAt(props, key, i) ==> r == Some(props[i])
    decreases |props|
  {
    if props == [] then None
    else if props[0].key.value == key then Some(props[0])
    else
      var r := FindProperty(props[1..], key);
      assert forall i :: 1 <= i < |props| ==> props[i] == props[1..][i - 1];
      assert forall i :: FirstKeyAt(props, key, i) ==> i > 0 && FirstKeyAt(props[1..], key, i - 1);
      assert forall i :: FirstKeyAt(props[1..], key, i) ==> FirstKeyAt(props, key, i + 1);
      r
  }

  /** Index `i` holds the first property whose key is `key`. */
  predicate FirstKeyAt(props: seq<Property>, key: string, i: int) {
    0 <= i < |props| && props[i].key.value == key && forall j :: 0 <= j < i ==> props[j].key.value != key
  }

  // ---------------------------------------------------------------------------
  // Range and target of one link
  // ---------------------------------------------------------------------------

  /**
   * The clickable range of a literal at `loc`: the parser's 1-indexed lines
   * become 0-indexed, the start column is used as is (which skips the
   * opening quote) and the end column loses 2 (the closing quote and the
   * 1-indexing).
   */
  function LinkRange(loc: JsonLocation): Range {
    Range(Position(loc.start.line - 1, loc.start.column),
          Position(loc.end.line - 1, loc.end.column - 2))
  }

  /**
   * For a one-line string literal whose span is exactly its quoted raw text,
   * the link built for it runs on the 0-indexed line from just after the
   * opening quote to just before the closing quote: on the text of that
   * line, where the parser's 1-indexed column c is index c - 1, the range
   * selects exactly the characters of the qid.
   */
  lemma RangeExcludesQuotes(root: Path, lit: Node, qid: string, loc: JsonLocation, lineText: string)
    requires lit == Literal(StringValue(qid), "\"" + qid + "\"", Some(loc))
    requires loc.start.line == loc.end.line
    requires loc.end.column - loc.start.column == |lit.raw|
    requires 1 <= loc.start.column && loc.start.column - 1 + |lit.raw| <= |lineText|
    requires lineText[loc.start.column - 1 .. loc.start.column - 1 + |lit.raw|] == lit.raw
    ensures LinkFor(root, lit)
            == Success(DocumentLink(Range(Position(loc.start.line - 1, loc.start.column),
                                          Position(loc.start.line - 1, loc.start.column + |qid|)),
                                    GetQuestionUri(root, qid)))
    ensures lineText[LinkFor(root, lit).value.range.start.character .. LinkFor(root, lit).value.range.end.character]
            == qid
  {
    var c := loc.start.column;
    var raw := lit.raw;
    assert |raw| == |qid| + 2;
    assert raw[1..|qid| + 1] == qid;
    forall k | 0 <= k < |qid|
      ensures lineText[c .. c + |qid|][k] == qid[k]
    {
      assert lineText[c .. c + |qid|][k] == lineText[c - 1 .. c - 1 + |raw|][k + 1];
    }
  }

  /** The qid of a `<root>/questions/<qid>/question.html` locator, or None for any other locator. */
  function QuestionOfUri(root: Path, uri: Uri): Option<string> {
    var p := uri.path;
    if |p| == |root| + 3 && p[..|root|] == root && p[|root|] == "questions" && p[|root| + 2] == "question.html"
    then Some(p[|root| + 1])
    else None
  }

  /** `getQuestionUri`: `<root>/questions/<qid>/question.html`; the qid can be read back from it. */
  function GetQuestionUri(root: Path, qid: string): (r: Uri)
    ensures QuestionOfUri(root, r) == Some(qid)
    ensures root < r.path && Basename(r.path) == "question.html"
  {
    var p := Join(Join(Join(root, "questions"), qid), "question.html");
    assert p[..|root|] == root;
    FileUri(p)
  }

  /**
   * A qid that `path.join` keeps as one path segment: non-empty, without a
   * separator, and not a `.` or `..` step that normalisation would fold away.
   */
  predicate PlainSegment(qid: string) {
    qid != "" && '/' !in qid && qid != "." && qid != ".."
  }

  /** Distinct qids that are single plain segments get distinct targets. */
  lemma QuestionUriInjective(root: Path, a: string, b: string)
    requires PlainSegment(a) && PlainSegment(b)
    requires GetQuestionUri(root, a) == GetQuestionUri(root, b)
    ensures a == b
  {
    assert QuestionOfUri(root, GetQuestionUri(root, a)) == Some(a);
  }

  /** `path.join` accepts only strings: any other qid makes it throw. */
  function PathArgument(v: LiteralValue): (r: Result<string, TypeError>)
    ensures r.Success? <==> v.StringValue?
    ensures r.Success? ==> r.value == v.str
  {
    if v.StringValue? then Success(v.str) else Failure(NonStringPathArgument)
  }

  /**
   * The link for an `id` literal, in the order the callback evaluates it:
   * the location is dereferenced first, then the qid goes to `path.join`.
   */
  function LinkFor(root: Path, lit: Node): (r: Result<DocumentLink, TypeError>)
    requires lit.Literal?
    ensures r.Success? <==> Linkable(lit)
    ensures r.Success? ==> r.value.range == LinkRange(lit.loc.value)
                           && QuestionOfUri(root, r.value.target) == Some(lit.value.str)
    ensures r.Failure? ==> r.error == LinkError(lit)
  {
    match lit.loc
    case None => Failure(UndefinedLocation)
    case Some(loc) =>
      var range := LinkRange(loc);
      match PathArgument(lit.value)
      case Failure(e) => Failure(e)
      case Success(qid) => Success(DocumentLink(range, GetQuestionUri(root, qid)))
  }

  // ---------------------------------------------------------------------------
  // The schema walk, as specification functions
  // ---------------------------------------------------------------------------

  /** The value of a question's first `id` property, when the question is an Object and that value is a Literal. */
  function IdLiteral(question: Node): (r: Option<Node>)
    ensures r.Some? ==> r.value.Literal?
  {
    if TypeTag(question) != "Object" then None
    else match FindProperty(question.properties, "id")
      case None => None
      case Some(qidProp) => if TypeTag(qidProp.value) != "Literal" then None else Some(qidProp.value)
  }

  /**
   * Only the FIRST `id` property decides: a question qualifies exactly when
   * it is an Object whose first `id` property holds a Literal.
   */
  lemma IdLiteralIsFirstIdProperty(question: Node, lit: Node)
    ensures IdLiteral(question) == Some(lit) <==>
            question.Object? && lit.Literal? &&
            exists i :: FirstKeyAt(question.properties, "id", i) && question.properties[i].value == lit
  {
  }

  /** What one question contributes: nothing, its one link, or the exception its callback throws. */
  function QuestionLinks(root: Path, question: Node): Links {
    match IdLiteral(question)
    case None => Success([])
    case Some(lit) =>
      match LinkFor(root, lit)
      case Failure(e) => Failure(e)
      case Success(link) => Success([link])
  }

  /** The links of a `questions` array. */
  function QuestionsLinks(root: Path, questions: seq<Node>): Links {
    Collect(questions, q => QuestionLinks(root, q))
  }

  /** The first question's contribution comes before the rest's. */
  lemma QuestionsLinksUnfold(root: Path, questions: seq<Node>)
    requires questions != []
    ensures QuestionsLinks(root, questions)
            == Then(QuestionLinks(root, questions[0]), QuestionsLinks(root, questions[1..]))
  {
  }

  /**
   * A zone's question list: the elements of its first `questions` property
   * when the zone is an Object and that property holds an Array; otherwise
   * (not an Object, no `questions`, or a first `questions` that is not an
   * Array) none.
   */
  function ZoneQuestions(zone: Node): (r: seq<Node>)
    ensures forall i :: zone.Object? && FirstKeyAt(zone.properties, "questions", i) && zone.properties[i].value.Array?
                        ==> r == zone.properties[i].value.elements
    ensures (|| !zone.Object?
             || forall i :: FirstKeyAt(zone.properties, "questions", i) ==> !zone.properties[i].value.Array?)
            ==> r == []
  {

    if TypeTag(zone) != "Object" then []
    else match FindProperty(zone.properties, "questions")
      case None => []
      case Some(zoneQuestions) =>
        if TypeTag(zoneQuestions.value) != "Array" then [] else zoneQuestions.value.elements
  }

  /** The links of a `zones` array. */
  function ZonesLinks(root: Path, zones: seq<Node>): Links {
    Collect(zones, z => QuestionsLinks(root, ZoneQuestions(z)))
  }

  /** The first zone's links come before the rest's. */
  lemma ZonesLinksUnfold(root: Path, zones: seq<Node>)
    requires zones != []
    ensures ZonesLinks(root, zones)
            == Then(QuestionsLinks(root, ZoneQuestions(zones[0])), ZonesLinks(root, zones[1..]))
  {
  }

  /**
   * The document's zone list: the elements of its first `zones` property when
   * that property holds an Array; otherwise (no `zones`, or a first `zones`
   * that is not an Array) none.
   */
  function DocumentZones(document: Node): (r: seq<Node>)
    requires document.Object?
    ensures forall i :: FirstKeyAt(document.properties, "zones", i) && document.properties[i].value.Array?
                        ==> r == document.properties[i].value.elements
    ensures (forall i :: FirstKeyAt(document.properties, "zones", i) ==> !document.properties[i].value.Array?)
            ==> r == []
  {
    match FindProperty(document.properties, "zones")
    case None => []
    case Some(zones) => if TypeTag(zones.value) != "Array" then [] else zones.value.elements
  }

  /** The links of a whole top-level Object. */
  function DocumentLinks(root: Path, document: Node): Links
    requires document.Object?
  {
    ZonesLinks(root, DocumentZones(document))
  }

  // ---------------------------------------------------------------------------
  // What the walk yields, against a reference: filter the id literals, then map
  // ---------------------------------------------------------------------------

  /** The `id` literals of the qualifying questions, in array order. */
  function IdLiterals(questions: seq<Node>): (r: seq<Node>)
    ensures |r| <= |questions|
    ensures forall k :: 0 <= k < |r| ==> r[k].Literal?
    decreases |questions|
  {
    if questions == [] then []
    else
      match IdLiteral(questions[0])
      case None => IdLiterals(questions[1..])
      case Some(lit) => [lit] + IdLiterals(questions[1..])
  }

  /** Every question of every zone, zone after zone (a skipped zone has none). */
  function AllQuestions(zones: seq<Node>): (r: seq<Node>)
    decreases |zones|
  {
    if zones == [] then [] else ZoneQuestions(zones[0]) + AllQuestions(zones[1..])
  }

  /** An `id` literal the callback can turn into a link: it has a location and a string value. */
  predicate Linkable(lit: Node) {
    lit.Literal? && lit.loc.Some? && lit.value.StringValue?
  }

  /**
   * A questions array yields its links exactly when every qualifying `id`
   * literal has a location and a string value.
   */
  lemma {:induction false} QuestionsLinksSucceed(root: Path, questions: seq<Node>)
    ensures QuestionsLinks(root, questions).Success? <==> forall lit <- IdLiterals(questions) :: Linkable(lit)
    decreases |questions|
  {
    if questions != [] {
      QuestionsLinksUnfold(root, questions);
      QuestionsLinksSucceed(root, questions[1..]);
      match IdLiteral(questions[0])
      case None =>
        assert IdLiterals(questions) == IdLiterals(questions[1..]);
      case Some(lit) =>
        assert IdLiterals(questions) == [lit] + IdLiterals(questions[1..]);
        assert QuestionLinks(root, questions[0]).Success? <==> LinkFor(root, lit).Success?;
        assert LinkFor(root, lit).Success? <==> Linkable(lit);
        assert QuestionsLinks(root, questions).Success?
               <==> Linkable(lit) && QuestionsLinks(root, questions[1..]).Success?;
    }
  }

  /**
   * One link per qualifying question, in array order: the k-th link is the
   * link of the k-th qualifying `id` literal.
   */
  lemma {:induction false} QuestionsLinksMatchIds(root: Path, questions: seq<Node>)
    requires QuestionsLinks(root, questions).Success?
    ensures |QuestionsLinks(root, questions).value| == |IdLiterals(questions)|
    ensures forall k :: 0 <= k < |IdLiterals(questions)| ==>
              LinkFor(root, IdLiterals(questions)[k]) == Success(QuestionsLinks(root, questions).value[k])
    decreases |questions|
  {
    if questions != [] {
      QuestionsLinksUnfold(root, questions);
      QuestionsLinksMatchIds(root, questions[1..]);
      var ids, rest := IdLiterals(questions), IdLiterals(questions[1..]);
      var links, more := QuestionsLinks(root, questions).value, QuestionsLinks(root, questions[1..]).value;
      match IdLiteral(questions[0])
      case None =>
        assert ids == rest && links == more;
      case Some(lit) =>
        assert ids == [lit] + rest;
        assert QuestionLinks(root, questions[0]).Success?;
        assert QuestionLinks(root, questions[0]) == Success([LinkFor(root, lit).value]);
        assert links == [LinkFor(root, lit).value] + more;
        forall k | 0 <= k < |ids|
          ensures LinkFor(root, ids[k]) == Success(links[k])
        {
          if k > 0 {
            assert ids[k] == rest[k - 1] && links[k] == more[k - 1];
          }
        }
    }
  }

  /** The exception the callback throws for a literal that is not linkable: the location is dereferenced first. */
  function LinkError(lit: Node): TypeError {
    if lit.loc.None? then UndefinedLocation else NonStringPathArgument
  }

  /**
   * A questions array that throws, throws the exception of its first
   * qualifying `id` literal that is not linkable; the literals before it
   * are all linkable.
   */
  lemma {:induction false} QuestionsLinksFirstFailure(root: Path, questions: seq<Node>)
    requires QuestionsLinks(root, questions).Failure?
    ensures exists k :: 0 <= k < |IdLiterals(questions)|
                        && !Linkable(IdLiterals(questions)[k])
                        && QuestionsLinks(root, questions).error == LinkError(IdLiterals(questions)[k])
                        && forall j :: 0 <= j < k ==> Linkable(IdLiterals(questions)[j])
    decreases |questions|
  {
    QuestionsLinksUnfold(root, questions);
    var ids, rest := IdLiterals(questions), IdLiterals(questions[1..]);
    var e := QuestionsLinks(root, questions).error;
    match IdLiteral(questions[0])
    case None =>
      assert ids == rest;
      assert QuestionsLinks(root, questions) == QuestionsLinks(root, questions[1..]);
      QuestionsLinksFirstFailure(root, questions[1..]);
    case Some(lit) =>
      assert ids == [lit] + rest;
      assert QuestionLinks(root, questions[0]).Success? <==> LinkFor(root, lit).Success?;
      if !Linkable(lit) {
        assert QuestionLinks(root, questions[0]) == Failure(LinkError(lit));
        assert !Linkable(ids[0]) && e == LinkError(ids[0]);
      } else {
        assert QuestionsLinks(root, questions).error == QuestionsLinks(root, questions[1..]).error;
        QuestionsLinksFirstFailure(root, questions[1..]);
        FirstFailureBehindLinkable(lit, rest, e);
      }
  }

  /** A first unlinkable literal of `rest` is still the first one behind a linkable `lit`. */
  lemma FirstFailureBehindLinkable(lit: Node, rest: seq<Node>, e: TypeError)
    requires Linkable(lit)
    requires exists k :: 0 <= k < |rest| && !Linkable(rest[k]) && e == LinkError(rest[k])
                         && forall j :: 0 <= j < k ==> Linkable(rest[j])
    ensures exists k :: 0 <= k < |[lit] + rest| && !Linkable(([lit] + rest)[k]) && e == LinkError(([lit] + rest)[k])
                        && forall j :: 0 <= j < k ==> Linkable(([lit] + rest)[j])
  {
    var ids := [lit] + rest;
    var k :| 0 <= k < |rest| && !Linkable(rest[k]) && e == LinkError(rest[k])
             && forall j :: 0 <= j < k ==> Linkable(rest[j]);
    assert forall j :: 1 <= j <= k + 1 ==> ids[j] == rest[j - 1];
    assert !Linkable(ids[k + 1]) && e == LinkError(ids[k + 1]);
  }

  /** The zones yield what their questions, laid end to end, yield. */
  lemma {:induction false} ZonesLinksFlatten(root: Path, zones: seq<Node>)
    ensures ZonesLinks(root, zones) == QuestionsLinks(root, AllQuestions(zones))
    decreases |zones|
  {
    if zones != [] {
      ZonesLinksUnfold(root, zones);
      ZonesLinksFlatten(root, zones[1..]);
      CollectAppend(ZoneQuestions(zones[0]), AllQuestions(zones[1..]), q => QuestionLinks(root, q));
    }
  }

  /**
   * Number of links: a document that yields links yields exactly one per
   * question, across all zones, whose first `id` is a Literal.
   */
  lemma DocumentLinkCount(root: Path, document: Node)
    requires document.Object?
    ensures DocumentLinks(root, document).Success? ==>
            |DocumentLinks(root, document).value| == |IdLiterals(AllQuestions(DocumentZones(document)))|
  {
    ZonesLinksFlatten(root, DocumentZones(document));
    if DocumentLinks(root, document).Success? {
      QuestionsLinksMatchIds(root, AllQuestions(DocumentZones(document)));
    }
  }

  /** The links of consecutive zones come out zone after zone. */
  lemma ZonesLinksAppend(root: Path, first: seq<Node>, rest: seq<Node>)
    ensures ZonesLinks(root, first + rest) == Then(ZonesLinks(root, first), ZonesLinks(root, rest))
  {
    CollectAppend(first, rest, z => QuestionsLinks(root, ZoneQuestions(z)));
  }

  /** A question that does not qualify is skipped without changing what its siblings yield. */
  lemma SkippedQuestionKeepsSiblings(root: Path, before: seq<Node>, question: Node, after: seq<Node>)
    requires IdLiteral(question).None?
    ensures QuestionsLinks(root, before + [question] + after) == QuestionsLinks(root, before + after)
  {
    CollectSkip(before, question, after, q => QuestionLinks(root, q));
  }

  /**
   * A zone that is not an Object, or whose `questions` is missing or not an
   * Array, is skipped without changing what its siblings yield.
   */
  lemma SkippedZoneKeepsSiblings(root: Path, before: seq<Node>, zone: Node, after: seq<Node>)
    requires !zone.Object?
             || FindProperty(zone.properties, "questions").None?
             || !FindProperty(zone.properties, "questions").value.value.Array?
    ensures ZonesLinks(root, before + [zone] + after) == ZonesLinks(root, before + after)
  {
    assert ZoneQuestions(zone) == [];
    CollectSkip(before, zone, after, z => QuestionsLinks(root, ZoneQuestions(z)));
  }

  /** No `zones` property, or one that is not an Array: the document yields no links. */
  lemma NoZonesNoLinks(root: Path, document: Node)
    requires document.Object?
    requires FindProperty(document.properties, "zones").None?
             || !FindProperty(document.properties, "zones").value.value.Array?
    ensures DocumentLinks(root, document) == Success([])
  {
  }

  // ---------------------------------------------------------------------------
  // The schema walk, as the source runs it
  // ---------------------------------------------------------------------------

  /** `buildLinksFromZoneQuestions`: one link per qualifying question, pushed in array order. */
  method BuildLinksFromZoneQuestions(root: Path, questions: Node) returns (r: Links)
    requires questions.Array?
    ensures r == QuestionsLinks(root, questions.elements)
  {
    var links: seq<DocumentLink> := [];
    var qs := questions.elements;
    assert qs[0..] == qs;
    for i := 0 to |qs|
      invariant QuestionsLinks(root, qs) == Then(Success(links), QuestionsLinks(root, qs[i..]))
    {
      var question := qs[i];
      assert qs[i..][0] == question && qs[i..][1..] == qs[i + 1..];
      QuestionsLinksUnfold(root, qs[i..]);
      ThenAssociative(Success(links), QuestionLinks(root, question), QuestionsLinks(root, qs[i + 1..]));
      if TypeTag(question) != "Object" {
        continue;
      }
      var qidProp := FindProperty(question.properties, "id");
      if qidProp.None? || TypeTag(qidProp.value.value) != "Literal" {
        continue;
      }
      var qid := qidProp.value.value;
      if qid.loc.None? {
        return Failure(UndefinedLocation);
      }
      var range := LinkRange(qid.loc.value);
      var qidPath := PathArgument(qid.value);
      if qidPath.Failure? {
        return Failure(qidPath.error);
      }
      var link := DocumentLink(range, GetQuestionUri(root, qidPath.value));
      links := links + [link];
    }
    assert qs[|qs|..] == [];
    return Success(links);
  }

  /** `buildLinks`: the links of every usable zone, zone after zone. */
  method BuildLinks(root: Path, document: Node) returns (r: Links)
    requires document.Object?
    ensures r == DocumentLinks(root, document)
  {
    var links: seq<DocumentLink> := [];
    var zones := FindProperty(document.properties, "zones");
    if zones.None? || TypeTag(zones.value.value) != "Array" {
      // Malformed document
      return Success([]);
    }
    var zs := zones.value.value.elements;
    assert zs[0..] == zs;
    for i := 0 to |zs|
      invariant ZonesLinks(root, zs) == Then(Success(links), ZonesLinks(root, zs[i..]))
    {
      var zone := zs[i];
      assert zs[i..][0] == zone && zs[i..][1..] == zs[i + 1..];
      ZonesLinksUnfold(root, zs[i..]);
      ThenAssociative(Success(links), QuestionsLinks(root, ZoneQuestions(zone)), ZonesLinks(root, zs[i + 1..]));
      if TypeTag(zone) != "Object" {
        continue;
      }
      var zoneQuestions := FindProperty(zone.properties, "questions");
      if zoneQuestions.None? || TypeTag(zoneQuestions.value.value) != "Array" {
        continue;
      }
      var zoneLinks := BuildLinksFromZoneQuestions(root, zoneQuestions.value.value);
      if zoneLinks.Failure? {
        return zoneLinks;
      }
      links := links + zoneLinks.value;
    }
    assert zs[|zs|..] == [];
    return Success(links);
  }
}
