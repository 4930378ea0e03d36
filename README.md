# Document links for PrairieLearn assessments — a Dafny model

This project models the link provider of the PrairieLearn VS Code extension.
When the editor asks for the links of a JSON document, the provider checks that the document is an `infoAssessment.json` inside a PrairieLearn course.
A course is found by walking up from the document's directory to the workspace folder, looking for `infoCourse.json`.
The provider then parses the text into a location-annotated tree and walks the fixed schema zones → questions → id.
Each question's `id` literal becomes a clickable range on the qid, without its quotes.
The link opens `<course root>/questions/<qid>/question.html`.

Modules (one file each):

- `Wrappers` (`wrappers.dfy`): `Option` and `Result`.
- `JsonAst` (`json_ast.dfy`): the tree of `src/util/json-to-ast.ts`. The TypeScript `type` tag is the constructor of `Node`. `Node` has only Object, Array and Literal, so a document, a property value or an array element can never be a bare Property or Identifier. Every `loc` is optional. Both `children` arrays are renamed: `properties` on an Object, `elements` on an Array. A Literal's value is a string, number, boolean or null, and it keeps its raw text.
- `FileSystem` (`file_system.dfy`): a path is its sequence of segments below `/`. `path.join(p, "..")` drops the last segment, and `/` is its own parent. What `fs.stat` can see is a map from path to entry kind.
- `RootLocator` (`root_locator.dfy`): `nearestInfoCourse` and `findPrairieLearnRoot`.
- `LinkExtractor` (`link_extractor.dfy`): `getQuestionUri`, `buildLinksFromZoneQuestions` and `buildLinks`. The two builders are methods with loops, as in the source. Each is proved equal to a specification function, and the lemmas state the properties of those functions.
- `LinkProvider` (`link_provider.dfy`): `isDocumentInfoAssessmentFile`, `parseDocument` and `provideDocumentLinks`, plus worked examples.

Exceptions are modelled, not skipped. In the source, `qid.loc!` on a literal without a location throws a TypeError. `path.join` given a qid that is not a string also throws a TypeError, because Node's `path` checks its arguments. Either exception ends the `forEach`, and `promiseWrapper` rejects the provider's promise. The model returns `Failure` from the builders and `Rejected` from the entry point in those cases.

A question qualifies when its first `id` is a Literal (`src/providers/LinkProvider.ts:115`). Its value is cast with `as string` (line 128), so a number, boolean or null id reaches `path.join` and rejects the whole request.

The entry point checks the course root before the file name (lines 182-183) and walks up a second time (line 195). Both are pure over one filesystem state, so the order does not change the result.

## Model

| member | source | states |
|---|---|---|
| `JsonAst.TypeTag` | src/util/json-to-ast.ts:20-53 | the `type` tag is "Object", "Array" or "Literal" exactly for those node kinds, and a value node is never tagged "Property" or "Identifier" |
| `FileSystem.Parent` | src/providers/LinkProvider.ts:57 | `path.join(p, "..")` is one segment shorter and a prefix of `p`; the root `/` is its own parent |
| `FileSystem.Join` | src/providers/LinkProvider.ts:47 | `path.join(dir, name)` with a plain segment: one segment longer, with `dir` as its prefix and `name` as its last segment |
| `FileSystem.Basename` | src/providers/LinkProvider.ts:77 | `path.basename` is the last segment: joined back onto the parent it gives the path; the root's name is empty |
| `FileSystem.CheckIsFile` | src/providers/LinkProvider.ts:19-25 | true exactly when `stat` succeeds and reports a regular file; a missing path reads as false, never as an error |
| `RootLocator.NearestInfoCourse` | src/providers/LinkProvider.ts:43-58 | a found directory lies between the boundary and the start and holds the marker (`RootLocator.HasMarker`: `checkIsFile` on `<dir>/infoCourse.json`, lines 47-48), and no directory below it on the way up holds one (it is the nearest); the result is null exactly when no directory from the start up to and including the boundary holds the marker; terminates because the boundary is an ancestor-or-self of the start |
| `RootLocator.FindPrairieLearnRoot` | src/providers/LinkProvider.ts:32-41 | no workspace folder gives no root; a root found lies inside the workspace folder, above the document, and holds the marker; it is the nearest such directory, since none between it and the document holds the marker; and there is no root exactly when no directory from the document's directory up to and including the workspace folder holds the marker |
| `RootLocator.CourseRootScenario` | src/providers/LinkProvider.ts:43-58 | from `/course/questions/foo` with boundary `/course`, where only `/course` holds the marker, the walk returns `/course` |
| `LinkExtractor.FindProperty` | src/providers/LinkProvider.ts:114 | `Array.prototype.find` by key: None exactly when no property has the key; otherwise the property at the first index whose key matches |
| `LinkExtractor.RangeExcludesQuotes` | src/providers/LinkProvider.ts:119-125 | for a one-line string literal whose span is its quoted raw text, the link built for it is on the 0-indexed line, from the column just after the opening quote to the column just before the closing quote, and targets the qid's question page; on the text of that line the range selects exactly the qid (the range arithmetic itself is the helper `LinkExtractor.LinkRange`) |
| `LinkExtractor.GetQuestionUri` | src/providers/LinkProvider.ts:86-90 | the target is `<root>/questions/<qid>/question.html` with the qid as one segment: the qid reads back from it, it lies below the root and its name is `question.html`; this matches `path.join` only for a qid that is one plain segment (see Left out) |
| `LinkExtractor.QuestionUriInjective` | src/providers/LinkProvider.ts:86-90 | different qids that are each one plain segment (non-empty, no `/`, not `.` or `..`) get different targets |
| `LinkExtractor.PathArgument` | src/providers/LinkProvider.ts:88 | `path.join` accepts the qid exactly when it is a string, and then uses that string |
| `LinkExtractor.LinkFor` | src/providers/LinkProvider.ts:118-129 | a link is built exactly when the literal has a location and a string value; its range is `LinkRange` of the location (see `RangeExcludesQuotes`) and its target reads back to the qid; otherwise the TypeError is that of the location dereference if the location is missing, else that of `path.join` |
| `LinkExtractor.IdLiteral` | src/providers/LinkProvider.ts:111-117 | what a question offers is always a Literal |
| `LinkExtractor.IdLiteralIsFirstIdProperty` | src/providers/LinkProvider.ts:111-117 | a question qualifies with literal `lit` exactly when it is an Object whose FIRST `id` property has value `lit` and `lit` is a Literal; a later `id` never counts |
| `LinkExtractor.IdLiterals` | src/providers/LinkProvider.ts:110-118 | the qualifying literals, in order: never more than the questions, all Literals |
| `LinkExtractor.ZoneQuestions` | src/providers/LinkProvider.ts:146-154 | a zone's questions are the elements of its FIRST `questions` property when that is an Array; a zone that is not an Object, or whose first `questions` is missing or not an Array, contributes no questions |
| `LinkExtractor.DocumentZones` | src/providers/LinkProvider.ts:140-144 | a document's zones are the elements of its FIRST `zones` property when that is an Array; without a `zones` property, or when the first one is not an Array, there are no zones |
| `LinkExtractor.QuestionsLinksSucceed` | src/providers/LinkProvider.ts:110-131 | a questions array yields its links exactly when every qualifying `id` literal has a location and a string value (one question's callback is the helper `LinkExtractor.QuestionLinks`: nothing, `LinkFor` of its `id` literal, or that call's exception) |
| `LinkExtractor.QuestionsLinksMatchIds` | src/providers/LinkProvider.ts:110-131 | one link per qualifying question, in array order: the k-th link is the link of the k-th qualifying `id` literal |
| `LinkExtractor.QuestionsLinksFirstFailure` | src/providers/LinkProvider.ts:110-131 | when the walk throws, it throws the exception of the first qualifying literal that is not linkable, and every literal before it is linkable |
| `LinkExtractor.SkippedQuestionKeepsSiblings` | src/providers/LinkProvider.ts:111-117 | a question that does not qualify is skipped without changing what its siblings yield |
| `LinkExtractor.ZonesLinksFlatten` | src/providers/LinkProvider.ts:145-157 | the zones yield exactly what all their questions, laid end to end in zone order, yield |
| `LinkExtractor.ZonesLinksAppend` | src/providers/LinkProvider.ts:145-157 | the links of consecutive zones come out zone after zone, and an exception in an earlier zone wins |
| `LinkExtractor.SkippedZoneKeepsSiblings` | src/providers/LinkProvider.ts:146-154 | a zone that is not an Object, or whose `questions` is missing or not an Array, is skipped without changing what its siblings yield |
| `LinkExtractor.NoZonesNoLinks` | src/providers/LinkProvider.ts:140-144 | no `zones` property, or one that is not an Array: no links |
| `LinkExtractor.DocumentLinkCount` | src/providers/LinkProvider.ts:135-158 | a document that yields links yields exactly one per question, across all zones, whose first `id` is a Literal |
| `LinkExtractor.BuildLinksFromZoneQuestions` | src/providers/LinkProvider.ts:105-133 | the push loop over the questions returns exactly `LinkExtractor.QuestionsLinks`, or its first exception; `QuestionsLinks` is `LinkExtractor.Collect` of each question's callback, where `Collect`/`Then` model `links.push` inside a `forEach` whose callback can throw (the first exception ends the walk) |
| `LinkExtractor.BuildLinks` | src/providers/LinkProvider.ts:135-158 | the push loop over the zones returns exactly `LinkExtractor.DocumentLinks`: `ZonesLinks`, the `Collect` over the document's zones of each zone's `QuestionsLinks`, with the first exception winning; a document whose first `zones` is missing or not an Array has no zones and yields no links |
| `LinkProvider.IsDocumentInfoAssessmentFile` | src/providers/LinkProvider.ts:76-79 | true exactly when the last path segment (`FileSystem.Basename`) is `infoAssessment.json` |
| `LinkProvider.ParseDocument` | src/providers/LinkProvider.ts:97-103 | null exactly when the parser throws; otherwise the parser's tree unchanged |
| `LinkProvider.ProvideDocumentLinks` | src/providers/LinkProvider.ts:176-207 | the provider method settles to `LinkProvider.ProvidedLinks` (lines 181-205), the entry point's specification, which `InapplicableYieldsNoLinks`, `ApplicableYieldsDocumentLinks`, `ResolvedLinksComeFromIds` and `RejectionComesFromAnId` characterise |
| `LinkProvider.InapplicableYieldsNoLinks` | src/providers/LinkProvider.ts:182-194 | wrong file name, no course root, a parser exception, or a top-level Array or Literal: no links |
| `LinkProvider.ApplicableYieldsDocumentLinks` | src/providers/LinkProvider.ts:195-204 | otherwise the result is `buildLinks` on the top-level Object with the found root: its links, or a rejection with its exception |
| `LinkProvider.ResolvedLinksComeFromIds` | src/providers/LinkProvider.ts:176-207 | any link returned comes from an assessment file in a course whose text parsed to an Object; the k-th link has the range of the k-th qualifying `id` literal and targets `<nearest course root>/questions/<qid>/question.html` |
| `LinkProvider.RejectionComesFromAnId` | src/providers/LinkProvider.ts:164-173 | the provider rejects only when some qualifying `id` literal has no location or a non-string value, and then with that literal's exception |
| `LinkProvider.AssessmentRootScenario` | src/providers/LinkProvider.ts:32-41 | for `/course/courseInstances/Sp20/assessments/hw1/infoAssessment.json` in workspace `/course`, with the marker only in `/course`, the root is `/course` |
| `LinkProvider.AddNumbersScenario` | src/providers/LinkProvider.ts:176-207 | `{"zones":[{"questions":[{"id":"addNumbers"}]}]}` under `/course` yields one link, on 0-indexed columns 31 to 41, opening `/course/questions/addNumbers/question.html` |
| `LinkProvider.NotIdScenario` | src/providers/LinkProvider.ts:110-117 | `{"zones":[{"questions":[{"notId":"x"}]}]}` yields no links |

## Left out

- The JSON parser itself (`parse` over the `json-to-ast` library, src/util/json-to-ast.ts:55-57) is a third-party library. Its outcome, a tree or an exception, is an input (`ParseOutcome`).
- `fs.stat` is a map from path to entry kind, taken as one snapshot for the whole request. A filesystem change between the two root walks of `provideDocumentLinks` is not modelled.
- `path.join`, `path.dirname` and `path.basename` are modelled as operations on segment sequences, without string normalisation. A qid that contains `/` or is `.` or `..` is kept as one segment, although `path.join` would split or collapse it (a qid such as `v1.2` is kept as it is by both). Path strings that differ only in form, such as a trailing separator, are not modelled.
- An empty qid (`"id": ""`) is modelled as an empty segment, giving `<root>/questions//question.html`, where `path.join` would collapse it to `<root>/questions/question.html`. Its range is also empty (start equals end), and VS Code's `DocumentLink` constructor throws on an empty range, which would reject the request; the model returns a link for it.
- `vscode.workspace.getWorkspaceFolder` is a parameter (the folder, or none). The host is assumed to report only a folder that contains the document. This precondition is sufficient for the root walk to terminate, not necessary: from any other start the walk never meets the boundary, and it loops forever at `/` unless a directory on the way up holds the marker.
- `isInPrairieLearnCourse` is folded into the entry point as "a root was found".
- RangeExcludesQuotes: reads the line text as one column per character. The parser's columns and `vscode.Position` characters count UTF-16 code units, while a `string` here counts Unicode scalar values, so for a qid with a character outside the Basic Multilingual Plane the lemma's hypothesis on the span length is never met. `LinkRange` itself is unaffected.
- `vscode.Position`, `vscode.Range` and `vscode.Uri.file` are plain datatypes. The host's rejection of negative positions and its reordering of a reversed range are not modelled.
- Line, column and offset positions are integer counts (`int`). Only a literal number's value (`NumberValue`) is a `real`, and its floating-point rounding is not modelled.
- `promiseWrapper`, async/await, `console.error` and the unused `CancellationToken` are not modelled. The promise's outcome is the `ProviderResult` value.
- A `RangeError` from spreading a very large array into `push` is not modelled.
- `src/extension.ts` (activation, command registration, a definition provider that only throws) and `types/json-to-ast.d.ts` (an ambient declaration) contain no logic to model.
