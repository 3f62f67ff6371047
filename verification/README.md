# Career report generator: a Dafny model

The system is a Next.js web application. A consultant fills in a
questionnaire about a student: basic information, personality assessment,
family situation, special circumstances and the consultant's own contact
details. The server has a language model write a ten-page "career
customisation report" in seven sections. The report is previewed in the
browser and exported as a PDF by a headless browser.

This project models the pure logic of that pipeline:

- the questionnaire data and report data (`ReportTypes`);
- the list-editing handlers of the three edited forms:
  - `AssessmentForm`, `FamilyInfoForm` and `SpecialCircumstancesForm`;
  - plus the `trim` they rely on (`Text`) and the sequence operations behind them (`SeqEdit`);
- the validator, the request built from the form and the three-step wizard
  `input -> generating -> preview` (`Wizard`);
- for each section, how the reply is turned into a value (`SectionJson`);
- the fail-fast assembly of the seven sections, the grade-to-scope table and
  the special-circumstance prompt lines (`ReportGenerator`);
- the generation endpoint's decision logic (`GenerateRoute`);
- the report layout, with its shared rules and its ten pages:
  - `Layout`: star cells, contact line, optional fields, numbering and category boxes;
  - `ReportPages`: the ten pages themselves;
- the PDF endpoint with its HTML renderer (`PdfRoute`);
- the in-browser preview (`ReportTemplate`), which is proved to draw the same
  abstract pages as the PDF renderer.

A rendered document is a sequence of abstract `Page`s (kind, optional page
number, blocks), not HTML bytes. Several things become parameters of the
operations that use them:

- the completion service;
- the JSON parser's outcome;
- the PDF printer;
- the clock;
- the date formatter's output.

Each of these parameters is a `Result`, so that its failures are modelled.
The files are `wrappers.dfy` (`Option`/`Result`) plus one file per module
named above.

Where the code and the system's design description disagree, the model
follows the code:

- **The renderers can fail.** The description calls them total. The code
  throws in two cases:
  - when `recommendIndex` is outside 0..5, because `'★'.repeat` or
    `'☆'.repeat` gets a negative count, or, for a rating beyond the
    engine's longest string, because the filled stars cannot be built;
  - when `generatedAt` is not a date, because the date formatter throws.

  `RenderHtml` and `Render` therefore return a `Result`. The PDF endpoint
  turns either error into a 500.
- **Empty partner-project boxes are kept.** The description says empty
  category boxes are skipped. That holds only for education projects: the
  four partner-project boxes are always drawn.
- **A request with no `input` is a 500, not a 400.** The generation endpoint
  reads `input.studentInfo` before checking it. The resulting TypeError
  becomes a 500.

## Model

| member | source | states |
|---|---|---|
| ReportTypes.GradeLabelRoundTrip | src/types/report.ts:6 | a grade string is accepted exactly when it is the label of one of the ten levels, and a label reads back as its own level |
| ReportTypes.AllGradesComplete | src/types/report.ts:6 | the grade enumeration holds every level, ten in all, with pairwise distinct labels |
| ReportTypes.EduCategoryRoundTrip | src/types/report.ts:70 | a project category is one of 升学类/背景提升类/兜底类 exactly when it parses, and parsing a label gives its category back |
| ReportTypes.SupplyCategoryRoundTrip | src/types/report.ts:87 | a partner-project category is one of the four labels exactly when it parses, with the round trip |
| Text.Trim | src/components/forms/AssessmentForm.tsx:50 | the trimmed entry is a slice of the input with only white space cut at both ends; it is empty exactly when the input is all white space |
| Text.TrimIdempotent | src/components/forms/AssessmentForm.tsx:52 | trimming a stored (already trimmed) entry again changes nothing |
| SeqEdit.WithoutIndex | src/components/forms/AssessmentForm.tsx:59 | filtering out index i keeps every element before i and shifts the rest down by one; an out-of-range index keeps the list |
| SeqEdit.RemoveAll | src/components/forms/AssessmentForm.tsx:76 | after filtering out an item it no longer occurs, and a list without it is unchanged |
| SeqEdit.RemoveAllCounts | src/components/forms/AssessmentForm.tsx:76 | filtering out an item removes all its copies and keeps every other element as often as before |
| SeqEdit.RemoveAllKeepsOrder | src/components/forms/AssessmentForm.tsx:76 | the filtered list is a subsequence of the original: the kept elements stay in order |
| SeqEdit.Toggle | src/components/forms/AssessmentForm.tsx:73-80 | after a toggle the item is present exactly when it was absent; an absent item is appended; a present one loses every copy while the other elements keep their order and multiplicities |
| SeqEdit.ToggleAbsentTwice | src/components/forms/AssessmentForm.tsx:73-80 | toggling an absent item twice restores the list |
| SeqEdit.TogglePresentTwice | src/components/forms/AssessmentForm.tsx:73-80 | toggling a present item of a duplicate-free list twice moves it to the end |
| SeqEdit.RemoveUnique | src/components/forms/AssessmentForm.tsx:76 | in a duplicate-free list, filtering out an element removes exactly its position |
| SeqEdit.ToggleKeepsNoDuplicates | src/components/forms/FamilyInfoForm.tsx:53-59 | a toggle keeps a duplicate-free list duplicate-free |
| SeqEdit.AppendAbsentKeepsNoDuplicates | src/components/forms/FamilyInfoForm.tsx:61-65 | appending an item not yet listed keeps a list duplicate-free |
| AssessmentForm.HandleChange | src/components/forms/AssessmentForm.tsx:38-43 | the named field takes the new value and every other field keeps its old one |
| AssessmentForm.AddItem | src/components/forms/AssessmentForm.tsx:45-55 | a blank entry changes nothing and stays in the box; otherwise the trimmed entry is appended to the chosen trait list, the box is cleared, and the other list and fields are unchanged |
| AssessmentForm.RemoveItem | src/components/forms/AssessmentForm.tsx:57-61 | the chosen trait list loses exactly the element at the index (none when out of range); the other list and fields are unchanged |
| AssessmentForm.AddPattern | src/components/forms/AssessmentForm.tsx:63-67 | a blank entry changes nothing; otherwise the trimmed pattern is appended, duplicates included, and only the pattern list changes |
| AssessmentForm.AddItemThenRemove | src/components/forms/AssessmentForm.tsx:45-61 | removing the entry at the old length right after adding one restores the form data, whatever was typed |
| AssessmentForm.AddPatternThenRemove | src/components/forms/AssessmentForm.tsx:63-71 | removing the pattern at the old length right after adding one restores the form data |
| AssessmentForm.RemovePattern | src/components/forms/AssessmentForm.tsx:69-71 | exactly the pattern at the index is dropped, none when out of range; nothing else changes |
| AssessmentForm.ToggleArrayItem | src/components/forms/AssessmentForm.tsx:73-80 | the option is chosen afterwards exactly when it was not before; an unchosen one is appended; a chosen one loses every copy and the remaining choices keep their order; the other choice list and the other fields are unchanged |
| AssessmentForm.ToggleArrayItemTwice | src/components/forms/AssessmentForm.tsx:73-80 | choosing an unchosen option and un-choosing it restores the data |
| AssessmentForm.ToggleArrayItemKeepsNoDuplicates | src/components/forms/AssessmentForm.tsx:73-80 | choices made through the toggle never hold an option twice |
| AssessmentForm.RemainingHint | src/components/forms/AssessmentForm.tsx:151-152 | the hint appears exactly while the list is below its minimum and names the positive number still missing |
| AssessmentForm.Hints | src/components/forms/AssessmentForm.tsx:151-277 | the strengths, weaknesses and pattern hints show below three entries, with 3 - n missing; the subject hint shows below two, with 2 - n missing |
| FamilyInfoForm.HandleChange | src/components/forms/FamilyInfoForm.tsx:36-41 | the named family field takes the value and the others keep theirs |
| FamilyInfoForm.HandleDemandChange | src/components/forms/FamilyInfoForm.tsx:43-51 | only the named demand changes; the other demands and family fields are unchanged |
| FamilyInfoForm.ToggleResource | src/components/forms/FamilyInfoForm.tsx:53-59 | a listed resource is removed with all its copies, the remaining resources keeping their order; an unlisted one is appended; only the resource list changes |
| FamilyInfoForm.AddCustomResource | src/components/forms/FamilyInfoForm.tsx:61-65 | a blank or already listed entry changes nothing; otherwise the trimmed entry is appended and the box cleared |
| FamilyInfoForm.ResourcesStayDistinct | src/components/forms/FamilyInfoForm.tsx:53-65 | both resource operations keep the resource list free of duplicates |
| FamilyInfoForm.ToggleResourceTwice | src/components/forms/FamilyInfoForm.tsx:53-59 | selecting an unlisted preset resource and deselecting it restores the data |
| SpecialCircumstancesForm.HandleToggle | src/components/forms/SpecialCircumstancesForm.tsx:11-17 | only the named flag is negated; a detail key changes nothing; no detail text is touched |
| SpecialCircumstancesForm.HandleToggleTwice | src/components/forms/SpecialCircumstancesForm.tsx:13-14 | toggling the same key twice is the identity |
| SpecialCircumstancesForm.HandleDetailChange | src/components/forms/SpecialCircumstancesForm.tsx:19-21 | only the named detail changes; every flag keeps its value |
| SpecialCircumstancesForm.DetailBox | src/components/forms/SpecialCircumstancesForm.tsx:65-70 | a detail box is shown exactly while its flag is set, with the stored text or an empty box |
| SpecialCircumstancesForm.FlagOffKeepsDetail | src/components/forms/SpecialCircumstancesForm.tsx:11-17 | turning a flag off hides its box but keeps its text, which reappears when the flag is turned back on |
| SectionJson.Property | src/lib/deepseek.ts:159 | reading a key of a parsed `null` fails with the TypeError naming that key; an object gives the key's value; anything else gives undefined |
| SectionJson.ObjectSection | src/lib/deepseek.ts:103-104 | an object section with no reply content is `{}`; otherwise it is the parse outcome, failure included |
| SectionJson.ArraySection | src/lib/deepseek.ts:157-159 | no content gives `[]`; a failed parse fails; a parsed `null` fails with the TypeError of reading the wrapper key; a bare array is kept; otherwise the result is the first truthy of the wrapper key and `data`, else `[]` |
| SectionJson.ArraySectionTruthy | src/lib/deepseek.ts:159 | a successful array section is never a falsy value |
| SectionJson.EmptyWrapperBeatsData | src/lib/deepseek.ts:159 | an empty array under the wrapper key wins over a non-empty `data` array, since `[]` is truthy |
| SectionJson.NoWrapperGivesEmpty | src/lib/deepseek.ts:299 | with neither key truthy, or a primitive reply, the section is `[]` |
| ReportGenerator.GenerateReportContent | src/lib/deepseek.ts:23-59 | the report exists exactly when all seven sections succeed, with each copied verbatim and the three planning lists taken from the planning section; otherwise the error is one of the failing sections' messages |
| ReportGenerator.OneFailureFailsReport | src/lib/deepseek.ts:30-46 | one failing section fails the whole report, whatever the others produced |
| ReportGenerator.MergeIsLossless | src/lib/deepseek.ts:48-58 | every section result can be read back from the merged report |
| ReportGenerator.PlanningScope | src/lib/deepseek.ts:307-327 | each of the ten grades has its planning-scope text; a grade naming an Object.prototype member interpolates that inherited member's text, never "undefined" and never a table entry; any other grade string interpolates as "undefined" |
| ReportGenerator.GradeTimelinesKeys | src/lib/deepseek.ts:307-318 | the scope table's keys are exactly the ten grade labels |
| ReportGenerator.CircumstanceText | src/lib/deepseek.ts:191-193 | an unset flag reads 无; a set flag shows its detail, or "undefined" when there is none |
| ReportGenerator.CircumstanceLines | src/lib/deepseek.ts:191-193 | the prompt has three circumstance lines, in flag order, each with its label and the flag's text |
| ReportGenerator.CircumstanceLineShowsDetailIffFlag | src/lib/deepseek.ts:191-193 | the entered detail appears while its flag is set and 无 appears while it is not, whatever detail the form still holds |
| GenerateRoute.Post | src/app/api/generate/route.ts:5-45 | a body that is not JSON or is `null` gives 500 with its error, before the key is looked at; for any other body a missing key gives 500, checked before the input; a body without `input` gives 500 with the TypeError of reading `studentInfo`; an empty name or grade gives 400; success carries the request input unchanged and the generator's content; a generator error gives 500 with its message |
| GenerateRoute.GuardsPrecedeGeneration | src/app/api/generate/route.ts:11-26 | with no key or an empty name or grade, the response fails and does not depend on the generator |
| GenerateRoute.OnlyNameAndGradeChecked | src/app/api/generate/route.ts:21-37 | with a key, a name and a grade, any other field contents lead to success whenever the generator succeeds |
| GenerateRoute.SectionFailureIsServerError | src/app/api/generate/route.ts:29-44 | a single failing section makes the endpoint answer 500 with no report |
| Wizard.FailedChecks | src/app/page.tsx:94-113 | the failed checks are exactly the checks that do not hold, listed in check order |
| Wizard.ValidateForm | src/app/page.tsx:93-114 | there are no messages exactly when the form is complete; a check's message is listed exactly when the check fails; there are at most 16 messages |
| Wizard.MessagesOfFailed | src/app/page.tsx:94-113 | a check's message is among the messages exactly when the check is among the failed ones |
| Wizard.CompleteIffNoneFailed | src/app/page.tsx:93-114 | no check fails exactly when the form is complete |
| Wizard.CompleteIffAllHold | src/app/page.tsx:96-111 | the form is complete exactly when every one of the sixteen checks holds |
| Wizard.MessagesDistinct | src/app/page.tsx:96-111 | no two checks share a message |
| Wizard.ValidationIgnoresOptionalFields | src/app/page.tsx:96-111 | changing the wechat, school, major, family resources or special circumstances never changes the validation result |
| Wizard.HintsMatchValidation | src/app/page.tsx:99-103 | each of the assessment form's four hints shows exactly when the matching validation message is listed |
| Wizard.BuildInput | src/app/page.tsx:128-137 | the sent wechat is the entered one if non-empty, else the phone; everything else is the form as entered |
| Wizard.BuiltInputIsAccepted | src/app/page.tsx:128-137 | the built input validates exactly like the form, and a complete form passes the endpoint's name and grade check with a non-empty wechat |
| Wizard.Submit | src/app/page.tsx:117-137 | an incomplete form shows its messages, sends nothing and keeps the step; a complete one clears the error, enters `generating` and sends the built input |
| Wizard.Resolve | src/app/page.tsx:168-185 | a report moves to `preview` holding it; any failure returns to `input` with the server's message, or a default when it is empty |
| Wizard.BackToEdit | src/app/page.tsx:223-225 | going back to edit returns to `input` and keeps the report |
| Wizard.Regenerate | src/app/page.tsx:228-231 | regenerating forgets the report and sends a request exactly when the form is complete |
| Wizard.SubmitThenResolve | src/app/page.tsx:117-185 | a complete form never stays in `generating` once the endpoint answers; an incomplete form never changes the step |
| Wizard.PositionChips | src/app/page.tsx:549-554 | the preview shows the first min(n,3) positions, and a "+(n-3)" chip exactly when there are more than three |
| Layout.StarCell | src/app/api/pdf/route.ts:545 | a rating draws exactly when it is in 0..5, as five glyphs of which the first k are filled; below 0 it fails with the RangeError of the negative count; above 5 with that of the negative empty-star count, or with "Invalid string length" past the engine's longest string |
| Layout.StarCellCountsRating | src/app/api/pdf/route.ts:545 | a drawable rating k gives k filled and 5 - k empty stars |
| Layout.WechatSuffix | src/app/api/pdf/route.ts:311 | the " / wechat" suffix appears exactly when the wechat is non-empty and differs from the phone |
| Layout.ContactLine | src/app/api/pdf/route.ts:310-311 | the contact line starts with the caption and the phone, and is longer exactly when the suffix is shown |
| Layout.OptionalField | src/app/api/pdf/route.ts:572 | an optional field is emitted, once, exactly when it is present and non-empty |
| Layout.DetailFields | src/app/api/pdf/route.ts:572-575 | a project card shows each of its four optional fields exactly when it is filled in, and nothing else |
| Layout.Numbered | src/components/report/ReportTemplate.tsx:448-469 | the cards are numbered index + 1 and keep their contents in list order |
| Layout.NumbersAscend | src/components/report/ReportTemplate.tsx:979-1002 | the numbers strictly increase from 1 to the list's length |
| Layout.CooperationItems | src/components/report/ReportTemplate.tsx:656-661 | the family-cooperation cards are numbered from 1 in order, and every card but the last has a bottom margin |
| Layout.OnlyLastUnspaced | src/app/api/pdf/route.ts:506-507 | exactly n - 1 of the n cards are spaced, and the last one is not |
| Layout.Bucket | src/app/api/pdf/route.ts:562 | a category's bucket keeps only projects of that category, in list order |
| Layout.BucketCounts | src/app/api/pdf/route.ts:562 | the bucket holds every project of its category, as often as the list does, and no other |
| Layout.BucketEmptyIff | src/app/api/pdf/route.ts:562-563 | a bucket is non-empty exactly when some project has that category |
| Layout.BucketsPartition | src/app/api/pdf/route.ts:561-562 | across distinct category labels, the buckets together hold each project of a listed category as often as the list does, and no other project |
| Layout.ShownCategories | src/app/api/pdf/route.ts:561-563 | the shown categories are exactly the listed ones with a project, in list order |
| Layout.ShownBucketsAreAll | src/app/api/pdf/route.ts:561-563 | skipping the categories without projects skips only empty buckets: the shown categories' buckets, concatenated, are all categories' buckets |
| Layout.EducationBlocks | src/app/api/pdf/route.ts:561-581 | there is a box for each education category that has a project, in category order; each box holds that category's projects in list order and is never empty |
| Layout.EduLabelsDistinct | src/app/api/pdf/route.ts:561 | the three education labels are distinct and cover every category |
| Layout.EducationBlocksArePartition | src/app/api/pdf/route.ts:561-562 | the boxes hold, box after box, the cards of the three category buckets in category order (skipped categories have empty buckets); each project of a known category is in those buckets as often as in the list, one of an unknown category in none |
| Layout.NoProjectsNoBoxes | src/app/api/pdf/route.ts:563 | with no education projects there are no boxes |
| Layout.SupplyBlocks | src/app/api/pdf/route.ts:623-638 | there are always four partner boxes, in category order, each holding its category's projects in list order |
| Layout.SupplyBoxesAlwaysShown | src/app/api/pdf/route.ts:623-638 | with no projects there are still four (empty) partner boxes, but no education boxes |
| Layout.SupplyLabelsDistinct | src/app/api/pdf/route.ts:623 | the four partner labels are distinct and cover every category |
| Layout.SupplyBlocksArePartition | src/app/api/pdf/route.ts:623-624 | the four boxes hold, box after box, the cards of the four category buckets; each partner project of a known category is in them as often as in the list, others in none |
| ReportPages.CoverPage | src/app/api/pdf/route.ts:288-318 | the cover is unnumbered and shows the contact line and the dated caption |
| ReportPages.InstitutionPage | src/app/api/pdf/route.ts:321-363 | page 2 lists the six services numbered 1 to 6 in order |
| ReportPages.AssessmentResultsPage | src/app/api/pdf/route.ts:367-392 | page 3 shows the core type, the strengths marked ✓, the weaknesses marked △ and every summary line |
| ReportPages.CareerAndFamilyPage | src/app/api/pdf/route.ts:396-447 | page 4 has one card per career match, numbered from 1 in order, with direction, reason and every position, then the family resources |
| ReportPages.PlanningPage | src/app/api/pdf/route.ts:451-517 | page 5 numbers the development paths from 1 and ends with the family-cooperation cards |
| ReportPages.ProjectRow | src/app/api/pdf/route.ts:538-547 | a table row draws exactly when its rating does, with the star cell in its fifth column; otherwise it fails with the star error |
| ReportPages.ProjectRows | src/app/api/pdf/route.ts:538-548 | the table draws exactly when every rating does, one row per project in order; otherwise it fails with the error of the first undrawable rating |
| ReportPages.ProjectTablePage | src/app/api/pdf/route.ts:521-554 | page 6 exists exactly when every rating draws, and holds the rows below the heading |
| ReportPages.RatingAboveFiveFails | src/app/api/pdf/route.ts:545 | a rating above five fails the table: with the RangeError for the count 5 - k, or with "Invalid string length" past the engine's longest string |
| ReportPages.DocumentedRatingsDraw | src/types/report.ts:68 | the drawable ratings are the documented 1..5 plus 0, so a table of documented ratings always draws |
| ReportPages.ProjectDetailsPage | src/app/api/pdf/route.ts:558-583 | page 7 holds exactly the education boxes |
| ReportPages.TimelinePage | src/app/api/pdf/route.ts:587-615 | page 8 has one row per stage, in order, with every task |
| ReportPages.SupplyChainPage | src/app/api/pdf/route.ts:619-641 | page 9 holds exactly the four partner boxes |
| ReportPages.SummaryPage | src/app/api/pdf/route.ts:645-695 | page 10 numbers the action suggestions from 1 and ends with the greeting to the student by name |
| ReportPages.OneProjectPerCategory | src/app/api/pdf/route.ts:561-581 | with one project per category plus one of an unknown category, there are three boxes of one card each, and the stray project is in none |
| PdfRoute.RenderHtml | src/app/api/pdf/route.ts:76-701 | the HTML fails with the date error for an invalid date, or else with the first undrawable rating's error; otherwise it has ten pages in order, numbered 2 to 10 after an unnumbered cover |
| PdfRoute.FileName | src/app/api/pdf/route.ts:54-55 | the file name starts with the student's name and a '-', and ends in ".pdf" |
| PdfRoute.FileNameIdentifiesStudent | src/app/api/pdf/route.ts:55 | on a fixed date, names and grades without '-' are determined by the file name |
| PdfRoute.Post | src/app/api/pdf/route.ts:6-74 | a body that is not JSON or is `null` gives 500; no report gives 400 and nothing is rendered; a rendering error gives 500 and the printer is not used; a printing error gives 500 with the printer's message; a printed document is attached under the student's file name, and an attachment is never anything else |
| PdfRoute.RatingAboveFiveIsServerError | src/app/api/pdf/route.ts:8-73 | a report with a rating above five is a 500, whatever the browser would do |
| PdfRoute.PrintableReportIsAttached | src/app/api/pdf/route.ts:53-63 | with drawable ratings and a browser that prints any document, the report comes back as a ".pdf" attachment named after the student |
| ReportTemplate.AssessmentPages | src/components/report/ReportTemplate.tsx:355-560 | the assessment component draws pages 3 and 4, the second holding the family resources |
| ReportTemplate.ProjectsPages | src/components/report/ReportTemplate.tsx:689-817 | the projects component draws pages 6 and 7 exactly when every rating draws; page 7 holds the education boxes |
| ReportTemplate.Compose | src/components/report/ReportTemplate.tsx:14-48 | the components' pages, one after the other, are the ten pages of the document in order |
| ReportTemplate.Render | src/components/report/ReportTemplate.tsx:10-48 | the preview fails exactly like the export; otherwise it has ten pages in order with an unnumbered cover |
| ReportTemplate.PreviewMatchesExport | src/components/report/ReportTemplate.tsx:10-48 | the preview and the PDF renderer produce the same abstract pages, or the same error, for every report and date |
| ReportTemplate.DefaultWechatIsInvisible | src/components/report/ReportTemplate.tsx:240 | defaulting a blank wechat to the phone never changes the cover's contact line |

## Left out

- The completion-service client and its calls (src/lib/deepseek.ts:15-20 and each section's request): network I/O. Each section's reply is a parameter (`SectionJson.Reply`), and each section's typed outcome is a `Result` input of `ReportGenerator`.
- A generation request whose `input` is present but not shaped like the form (`null`, or without `studentInfo`): `GenerateRoute.RequestBody` takes a present input to be a complete `ReportInputData`. Such a request throws a TypeError at the name check and gets a 500 with that message, which is not modelled.
- PdfRoute.Post: a truthy `reportData` is taken to be a complete `FullReportData`. One that is not makes `generateReportHTML` throw, giving a 500 with that message. `{}` throws a RangeError at the date format (src/app/api/pdf/route.ts:78). A value with a date but no `input` throws a TypeError on reading `studentInfo` further on. These messages are not modelled.
- `JSON.parse` itself: its outcome is part of the reply. The unchecked cast from the parsed value to the section's type is not modelled either. A parsed section is taken to have its declared shape.
- `Promise.all` rejects with the first rejection in time, which depends on scheduling. `ReportGenerator.GenerateReportContent` promises only that the error is one of the failing sections' messages.
- The prompt texts: only the two input-dependent pieces are modelled, the planning scope and the circumstance lines.
- Puppeteer (launch, `setContent`, `page.pdf`, closing the browser): external processes. The printer is a function parameter of `PdfRoute.Post`, and closing the browser on the error path is resource handling, not modelled.
- Dates:
  - `new Date()`, `toISOString` and `format` are parameters: the generation timestamp, the formatted report date (or its error) and the `yyyyMMdd` file-name date.
  - The client-side file name in `handleDownloadPdf` is not modelled. It differs from `PdfRoute.FileName` in two ways. It takes the name and grade from the form state, not from the report, so they differ after going back to edit the form. Its date is the UTC date of `toISOString`, while the server uses the local date of `format(new Date(), 'yyyyMMdd')`.
- `encodeURIComponent` in the Content-Disposition header: a library call.
- The progress animation in `handleGenerate`: it uses timers, `Math.random` and floating point. The one-second delay before `preview` is not modelled either. `Wizard.Resolve` moves to `preview` at once.
- `fetch`, `Blob`, object URLs and the DOM download of the PDF.
- Demo mode (`handleDemoMode`): it only loads the static sample data.
- All CSS, inline styles, colours, decorative text, and the alternating backgrounds of tags and tasks. Only structure is modelled: which fields appear, in what order and under what condition.
- `StudentInfoForm`, `ConsultantForm`, the sample data, the application layout and the Next.js configuration. They hold no logic beyond the field setters modelled for the other forms.
- Thrown values that are not `Error`s, which both endpoints report with a fixed fallback message. Every failure is modelled as carrying a message.
- `Layout.MaxStringLength` is the V8 limit on 64-bit platforms. Other engines and 32-bit builds have other limits.
- Non-integer `recommendIndex` values: ratings are integers here. JavaScript's `repeat` truncates fractions, which is not modelled.
- Numbers in parsed JSON are integers in `SectionJson.Json`. Only their truthiness matters to the logic.
- ReportTemplate.PreviewMatchesExport: equality is stated on the abstract pages. The two renderers' markup, styles and decorative texts differ and are not modelled. Data text is inserted unescaped into the export's HTML but escaped in the preview, so a text holding markup such as `<br>` or `&amp;` shows differently in the two. Both renderers are built from the same page functions, so the lemma compares how the pages are grouped, not two independent renderings.
