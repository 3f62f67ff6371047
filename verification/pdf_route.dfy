/** The PDF export endpoint: checks that a report was sent, renders it to
    the HTML document, has the document printed and names the attachment. */
module PdfRoute {
  import opened Wrappers
  import opened ReportTypes
  import opened Layout
  import opened ReportPages

  /** `generateReportHTML`: the ten pages in document order. `formattedDate`
      is the report's `generatedAt` formatted as a date, or the error the
      formatter raises for a timestamp that is not a date. Rendering fails
      with that error, or else with the error of the first rating that cannot
      be drawn as stars. */
  function RenderHtml(data: FullReportData, formattedDate: Result<string>): (r: Result<seq<Page>>)
    ensures formattedDate.Err? ==> r == Err(formattedDate.error)
    ensures r.Ok? <==> formattedDate.Ok? && AllDrawable(data.generated.educationProjects)
    ensures formattedDate.Ok? && r.Err? ==> r.error == ProjectRows(data.generated.educationProjects).error
    ensures r.Ok? ==> WellPaginated(r.value)
    ensures r.Ok? ==> r.value[0] == CoverPage(data.input.studentInfo.name, data.input.consultantInfo, formattedDate.value)
    ensures r.Ok? ==> r.value[5] == ProjectTablePage(data.generated.educationProjects).value
    ensures r.Ok? ==> r.value[6] == ProjectDetailsPage(data.generated.educationProjects)
    ensures r.Ok? ==> r.value[8] == SupplyChainPage(data.generated.supplyChainProjects)
  {
    var input := data.input;
    var generated := data.generated;
    var date :- formattedDate;
    var table :- ProjectTablePage(generated.educationProjects);
    Ok(Document(
      CoverPage(input.studentInfo.name, input.consultantInfo, date),
      InstitutionPage(),
      AssessmentResultsPage(generated.personalityAnalysis),
      CareerAndFamilyPage(input.familyInfo, generated.careerMatches),
      PlanningPage(generated),
      table,
      ProjectDetailsPage(generated.educationProjects),
      TimelinePage(generated.timeline),
      SupplyChainPage(generated.supplyChainProjects),
      SummaryPage(generated.summary, input.studentInfo.name)))
  }

  const FileTitle := "生涯定制报告"
  const FileExtension := ".pdf"

  /** The attachment's name: `name-grade-生涯定制报告-<yyyyMMdd>.pdf`. */
  function FileName(name: string, grade: string, dateStr: string): (r: string)
    ensures |r| > |FileExtension| && r[|r| - |FileExtension|..] == FileExtension
    ensures |r| > |name| && r[..|name| + 1] == name + "-"
  {
    name + "-" + grade + "-" + FileTitle + "-" + dateStr + FileExtension
  }

  /** For a name and grade without '-', and a fixed date, the file name
      identifies the student's name and grade. */
  lemma FileNameIdentifiesStudent(n1: string, g1: string, n2: string, g2: string, dateStr: string)
    requires '-' !in n1 && '-' !in n2
    requires FileName(n1, g1, dateStr) == FileName(n2, g2, dateStr)
    ensures n1 == n2 && g1 == g2
  {
    var tail := "-" + FileTitle + "-" + dateStr + FileExtension;
    var f1 := FileName(n1, g1, dateStr);
    var f2 := FileName(n2, g2, dateStr);
    assert f1 == n1 + "-" + (g1 + tail);
    assert f2 == n2 + "-" + (g2 + tail);
    SeparatorSplits(n1, n2, g1 + tail, g2 + tail);
    assert g1 + tail == g2 + tail;
    assert |g1| == |g2|;
    assert g1 == (g1 + tail)[..|g1|] == (g2 + tail)[..|g2|] == g2;
  }

  /** `a + "-" + x == b + "-" + y` with no '-' in `a` or `b` splits at the
      first '-': `a == b` and `x == y`. */
  lemma SeparatorSplits(a: string, b: string, x: string, y: string)
    requires '-' !in a && '-' !in b
    requires a + "-" + x == b + "-" + y
    ensures a == b && x == y
  {
    var s := a + "-" + x;
    assert s[|a|] == '-' && s[|b|] == '-';
    assert |a| == |b|;
    assert a == s[..|a|] == b;
    assert x == s[|a| + 1..] == y;
  }

  /** The response: the printed document as an attachment, or `{ error }`
      with a status. */
  datatype Response<Doc> = Attachment(document: Doc, fileName: string) | Failure(status: nat, error: string)

  const MissingReportMessage := "请提供报告数据"

  /** `POST /api/pdf`. `body` is the request's `reportData` (an error when
      the body is not JSON, or is `null` so that destructuring it throws; a
      present `reportData` is taken to be a complete report), `formattedDate` the report date as the
      renderer formats it, `dateStr` today's date as `yyyyMMdd`, and `printer`
      the browser that turns the pages into a document (or fails). */
  function Post<Doc>(body: Result<Option<FullReportData>>, formattedDate: Result<string>, dateStr: string,
                     printer: seq<Page> -> Result<Doc>): (r: Response<Doc>)
    // an unreadable or `null` body is an internal error
    ensures body.Err? ==> r == Failure(500, body.error)
    // no report: a client error, and nothing is rendered or printed
    ensures body == Ok(None) ==> r == Failure(400, MissingReportMessage)
    // a rendering error is an internal error and the browser is never used
    ensures body.Ok? && body.value.Some? && RenderHtml(body.value.value, formattedDate).Err? ==>
      r == Failure(500, RenderHtml(body.value.value, formattedDate).error)
    // a printing error is an internal error with the printer's message
    ensures body.Ok? && body.value.Some? && RenderHtml(body.value.value, formattedDate).Ok?
            && printer(RenderHtml(body.value.value, formattedDate).value).Err? ==>
      r == Failure(500, printer(RenderHtml(body.value.value, formattedDate).value).error)
    // a printed document is sent, under the student's file name
    ensures body.Ok? && body.value.Some? && RenderHtml(body.value.value, formattedDate).Ok?
            && printer(RenderHtml(body.value.value, formattedDate).value).Ok? ==>
      r == Attachment(printer(RenderHtml(body.value.value, formattedDate).value).value,
                      FileName(body.value.value.input.studentInfo.name, body.value.value.input.studentInfo.grade, dateStr))
    // an attachment is only ever the printed document, under the student's file name
    ensures r.Attachment? ==>
      && body.Ok? && body.value.Some?
      && RenderHtml(body.value.value, formattedDate).Ok?
      && printer(RenderHtml(body.value.value, formattedDate).value) == Ok(r.document)
      && r.fileName == FileName(body.value.value.input.studentInfo.name, body.value.value.input.studentInfo.grade, dateStr)
    ensures r.Failure? ==> r.status == 400 || r.status == 500
  {
    match body
    case Err(e) => Failure(500, e)
    case Ok(None) => Failure(400, MissingReportMessage)
    case Ok(Some(data)) =>
      match RenderHtml(data, formattedDate)
      case Err(e) => Failure(500, e)
      case Ok(pages) =>
        match printer(pages)
        case Err(e) => Failure(500, e)
        case Ok(document) =>
          Attachment(document, FileName(data.input.studentInfo.name, data.input.studentInfo.grade, dateStr))
  }

  /** A report with a rating above five is never printed: whatever the
      browser does, the response is the 500 of the failed star cell. */
  lemma RatingAboveFiveIsServerError<Doc>(data: FullReportData, date: string, dateStr: string,
                                          printer1: seq<Page> -> Result<Doc>, printer2: seq<Page> -> Result<Doc>, i: nat)
    requires i < |data.generated.educationProjects|
    requires data.generated.educationProjects[i].recommendIndex > MaxStars
    ensures Post(Ok(Some(data)), Ok(date), dateStr, printer1).Failure?
    ensures Post(Ok(Some(data)), Ok(date), dateStr, printer1).status == 500
    ensures Post(Ok(Some(data)), Ok(date), dateStr, printer1) == Post(Ok(Some(data)), Ok(date), dateStr, printer2)
  {
    assert !Drawable(data.generated.educationProjects[i]);
  }

  /** With drawable ratings and a browser that prints whatever it is given,
      a report always comes back as a `.pdf` attachment named after the
      student. This follows from `Post`'s and `FileName`'s contracts
      directly. */
  lemma PrintableReportIsAttached<Doc>(data: FullReportData, date: string, dateStr: string, printer: seq<Page> -> Result<Doc>)
    requires AllDrawable(data.generated.educationProjects)
    requires forall pages :: printer(pages).Ok?
    ensures var r := Post(Ok(Some(data)), Ok(date), dateStr, printer);
      && r.Attachment?
      && r.fileName[..|data.input.studentInfo.name| + 1] == data.input.studentInfo.name + "-"
      && r.fileName[|r.fileName| - |FileExtension|..] == FileExtension
  {
  }
}
