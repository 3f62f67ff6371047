/** The report-generation endpoint: reads the request, checks the server's
    credential, re-checks the student's name and grade, runs the generator
    and wraps its result (or its error) into the JSON response. */
module GenerateRoute {
  import opened Wrappers
  import opened ReportTypes
  import opened ReportGenerator

  /** The request body: one the handler fails on before anything else (text
      that is not JSON, or JSON `null`, whose destructuring throws "Cannot
      destructure property 'input' of 'body' as it is null." before the
      credential is looked at), or any other JSON value, with or without an
      `input` (a primitive or an array has none). */
  datatype RequestBody = Unreadable(reason: string) | Body(input: Option<ReportInputData>)

  /** `{ success: true, data }` with status 200, or `{ error }` with a status. */
  datatype Response = Success(data: FullReportData) | Failure(status: nat, error: string)

  const MissingKeyMessage := "服务器未配置 DeepSeek API Key，请联系管理员"
  const MissingStudentMessage := "请填写学生基础信息"
  const MissingInputMessage := "Cannot read properties of undefined (reading 'studentInfo')"

  /** The request got past the credential check and carries an input. */
  predicate ReachesInputCheck(body: RequestBody, apiKey: string) {
    body.Body? && apiKey != "" && body.input.Some?
  }

  /** `input.studentInfo.name && input.studentInfo.grade`. */
  predicate HasStudent(input: ReportInputData) {
    input.studentInfo.name != "" && input.studentInfo.grade != ""
  }

  /** `POST /api/generate`. `apiKey` is the configured credential ("" when
      unset), `generate` the report generator (the completion service behind
      it), `now` the timestamp `new Date().toISOString()` would produce. */
  function Post(body: RequestBody, apiKey: string, generate: (ReportInputData, string) -> Result<GeneratedReportContent>, now: string): (r: Response)
    // a body that is not JSON, or is `null`, is an internal error, whatever the credential
    ensures body.Unreadable? ==> r == Failure(500, body.reason)
    // the credential is checked first, before anything about the input
    ensures body.Body? && apiKey == "" ==> r == Failure(500, MissingKeyMessage)
    // a body without `input` fails when the student is read from it
    ensures body.Body? && apiKey != "" && body.input.None? ==> r == Failure(500, MissingInputMessage)
    // an empty name or grade is a client error
    ensures ReachesInputCheck(body, apiKey) && !HasStudent(body.input.value) ==> r == Failure(400, MissingStudentMessage)
    // success carries the request input unchanged and the generator's content
    ensures r.Success? ==>
      && body.Body? && body.input.Some? && apiKey != ""
      && r.data.input == body.input.value
      && generate(body.input.value, apiKey) == Ok(r.data.generated)
      && r.data.generatedAt == now
    // a generator failure becomes a 500 with its message
    ensures ReachesInputCheck(body, apiKey) && HasStudent(body.input.value) ==>
      && (r.Success? <==> generate(body.input.value, apiKey).Ok?)
      && (r.Failure? ==> r == Failure(500, generate(body.input.value, apiKey).error))
  {
    match body
    case Unreadable(reason) => Failure(500, reason)
    case Body(input) =>
      if apiKey == "" then Failure(500, MissingKeyMessage)
      else if input.None? then Failure(500, MissingInputMessage)
      else if input.value.studentInfo.name == "" || input.value.studentInfo.grade == "" then
        Failure(400, MissingStudentMessage)
      else
        match generate(input.value, apiKey)
        case Ok(generated) => Success(FullReportData(input.value, generated, now))
        case Err(message) => Failure(500, message)
  }

  /** The generator is never consulted on the error paths before it: with a
      missing credential or a missing name or grade, any two generators give
      the same response. */
  lemma GuardsPrecedeGeneration(
    input: ReportInputData, apiKey: string, now: string,
    g1: (ReportInputData, string) -> Result<GeneratedReportContent>,
    g2: (ReportInputData, string) -> Result<GeneratedReportContent>)
    requires apiKey == "" || input.studentInfo.name == "" || input.studentInfo.grade == ""
    ensures Post(Body(Some(input)), apiKey, g1, now) == Post(Body(Some(input)), apiKey, g2, now)
    ensures Post(Body(Some(input)), apiKey, g1, now).Failure?
  {
  }

  /** Only the name and grade are re-checked: whatever the other fields hold
      (empty lists, empty family or consultant fields), a request with a name,
      a grade and a credential succeeds whenever the generator does. */
  lemma OnlyNameAndGradeChecked(input: ReportInputData, apiKey: string, now: string,
    generate: (ReportInputData, string) -> Result<GeneratedReportContent>)
    requires apiKey != "" && HasStudent(input)
    requires generate(input, apiKey).Ok?
    ensures Post(Body(Some(input)), apiKey, generate, now) == Success(FullReportData(input, generate(input, apiKey).value, now))
  {
  }

  /** End to end with the section generators: a single failing section makes
      the endpoint answer 500 with no report. */
  lemma SectionFailureIsServerError(input: ReportInputData, apiKey: string, now: string,
    sections: (ReportInputData, string) -> SectionResults)
    requires apiKey != "" && input.studentInfo.name != "" && input.studentInfo.grade != ""
    requires |Failures(sections(input, apiKey))| > 0
    ensures Post(Body(Some(input)), apiKey, (i, k) => GenerateReportContent(sections(i, k)), now).Failure?
    ensures Post(Body(Some(input)), apiKey, (i, k) => GenerateReportContent(sections(i, k)), now).status == 500
  {
    OneFailureFailsReport(sections(input, apiKey));
  }
}
