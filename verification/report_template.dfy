/** The in-browser preview of the report: the same ten pages, composed from
    one component per section. Two components draw two pages each: the
    assessment component (results, then careers and family) and the projects
    component (the table, then the details). */
module ReportTemplate {
  import opened Wrappers
  import opened ReportTypes
  import opened Layout
  import opened ReportPages
  import PdfRoute
  import Wizard

  /** `<AssessmentPage>`: the personality results on page 3, the career
      matches and the family on page 4. */
  function AssessmentPages(input: ReportInputData, generated: GeneratedReportContent): (r: seq<Page>)
    ensures |r| == 2
    ensures r[0].kind == AssessmentResults && r[0].number == Some(3)
    ensures r[1].kind == CareerAndFamily && r[1].number == Some(4)
    ensures |r[1].blocks| == |generated.careerMatches| + 7
    ensures Tags(input.familyInfo.resources) in r[1].blocks
  {
    var family := CareerAndFamilyPage(input.familyInfo, generated.careerMatches);
    assert family.blocks[|generated.careerMatches| + 3] == Tags(input.familyInfo.resources);
    [AssessmentResultsPage(generated.personalityAnalysis), family]
  }

  /** `<ProjectsPage>`: the project table on page 6 and the category boxes
      on page 7, or the error of the first rating that cannot be drawn. */
  function ProjectsPages(projects: seq<EducationProject>): (r: Result<seq<Page>>)
    ensures r.Ok? <==> AllDrawable(projects)
    ensures r.Err? ==> r.error == ProjectRows(projects).error
    ensures r.Ok? ==> |r.value| == 2
    ensures r.Ok? ==> r.value[0].kind == ProjectTable && r.value[0].number == Some(6)
    ensures r.Ok? ==> r.value[1].kind == ProjectDetails && r.value[1].number == Some(7)
    ensures r.Ok? ==> |r.value[0].blocks| == 1 + |projects| && |r.value[1].blocks| >= 1
    ensures r.Ok? ==> r.value[1].blocks[1..] == EducationBlocks(projects)
  {
    var table :- ProjectTablePage(projects);
    Ok([table, ProjectDetailsPage(projects)])
  }

  /** `ReportTemplate`: the cover, the institution, the two assessment
      pages, the planning page, the two project pages, the timeline, the
      partner projects and the summary. `formattedDate` is `generatedAt` as
      the date formatter renders it, or the formatter's error. */
  function Render(data: FullReportData, formattedDate: Result<string>): (r: Result<seq<Page>>)
    ensures formattedDate.Err? ==> r == Err(formattedDate.error)
    ensures r.Ok? <==> formattedDate.Ok? && AllDrawable(data.generated.educationProjects)
    ensures r.Ok? ==> WellPaginated(r.value)
  {
    var input := data.input;
    var generated := data.generated;
    var date :- formattedDate;
    var projects :- ProjectsPages(generated.educationProjects);
    Ok(Compose(
      CoverPage(input.studentInfo.name, input.consultantInfo, date),
      InstitutionPage(),
      AssessmentPages(input, generated),
      PlanningPage(generated),
      projects,
      TimelinePage(generated.timeline),
      SupplyChainPage(generated.supplyChainProjects),
      SummaryPage(generated.summary, input.studentInfo.name)))
  }

  /** The components' pages one after the other: the ten pages of the
      document, in order. */
  function Compose(cover: Page, institution: Page, assessment: seq<Page>, planning: Page,
                   projects: seq<Page>, timeline: Page, supplyChain: Page, summary: Page): (r: seq<Page>)
    requires cover.kind == Cover && cover.number.None?
    requires institution.kind == Institution && institution.number == Some(2)
    requires |assessment| == 2
    requires assessment[0].kind == AssessmentResults && assessment[0].number == Some(3)
    requires assessment[1].kind == CareerAndFamily && assessment[1].number == Some(4)
    requires planning.kind == Planning && planning.number == Some(5)
    requires |projects| == 2
    requires projects[0].kind == ProjectTable && projects[0].number == Some(6)
    requires projects[1].kind == ProjectDetails && projects[1].number == Some(7)
    requires timeline.kind == Timeline && timeline.number == Some(8)
    requires supplyChain.kind == SupplyChain && supplyChain.number == Some(9)
    requires summary.kind == Summary && summary.number == Some(10)
    ensures r == Document(cover, institution, assessment[0], assessment[1], planning,
                          projects[0], projects[1], timeline, supplyChain, summary)
  {
    [cover, institution] + assessment + [planning] + projects + [timeline, supplyChain, summary]
  }

  /** The preview and the PDF export draw the same abstract document, page
      for page, and fail on the same reports with the same error. Both are
      built from the same page functions, each checked against both
      sources, so what this compares is the grouping into components
      (`Compose`) against the export's flat page list (`Document`) and the
      order of the two failure checks. */
  lemma PreviewMatchesExport(data: FullReportData, formattedDate: Result<string>)
    ensures Render(data, formattedDate) == PdfRoute.RenderHtml(data, formattedDate)
  {
  }

  /** Defaulting a blank wechat to the phone never shows on the cover: the
      contact line of the built input is the one the form would give. */
  lemma DefaultWechatIsInvisible(f: ReportInputData)
    ensures ContactLine(Wizard.BuildInput(f).consultantInfo) == ContactLine(f.consultantInfo)
    ensures WechatSuffix(Wizard.BuildInput(f).consultantInfo) != "" <==>
      f.consultantInfo.wechat != "" && f.consultantInfo.wechat != f.consultantInfo.phone
  {
  }
}
