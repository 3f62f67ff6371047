/** The report's data model: the questionnaire input, the generated content
    and the full report document.

    Fields the source types as a union of string literals but compares or
    looks up as plain strings at run time (the grade, the project categories)
    are kept as `string`; the enumerations below name the admissible values
    and convert between the two. */
module ReportTypes {
  import opened Wrappers

  // ---------------------------------------------------------------------------
  // Enumerations
  // ---------------------------------------------------------------------------

  /** The ten school years a student can be in. */
  datatype Grade =
    | Middle1 | Middle2 | Middle3
    | High1 | High2 | High3
    | College1 | College2 | College3 | College4

  const AllGrades: seq<Grade> :=
    [Middle1, Middle2, Middle3, High1, High2, High3, College1, College2, College3, College4]

  function GradeLabel(g: Grade): string {
    match g
    case Middle1 => "初一"
    case Middle2 => "初二"
    case Middle3 => "初三"
    case High1 => "高一"
    case High2 => "高二"
    case High3 => "高三"
    case College1 => "大一"
    case College2 => "大二"
    case College3 => "大三"
    case College4 => "大四"
  }

  /** Reads a grade label; `None` for any string that is not one of the ten labels. */
  function ParseGrade(s: string): (r: Option<Grade>)
    ensures r.Some? ==> GradeLabel(r.value) == s
  {
    if s == "初一" then Some(Middle1)
    else if s == "初二" then Some(Middle2)
    else if s == "初三" then Some(Middle3)
    else if s == "高一" then Some(High1)
    else if s == "高二" then Some(High2)
    else if s == "高三" then Some(High3)
    else if s == "大一" then Some(College1)
    else if s == "大二" then Some(College2)
    else if s == "大三" then Some(College3)
    else if s == "大四" then Some(College4)
    else None
  }

  /** A grade string is one of the ten levels exactly when it is the label of a grade. */
  lemma GradeLabelRoundTrip(g: Grade, s: string)
    ensures ParseGrade(GradeLabel(g)) == Some(g)
    ensures ParseGrade(s) == Some(g) <==> s == GradeLabel(g)
  {
  }

  /** The enumeration lists every grade once, ten in all. */
  lemma AllGradesComplete(g: Grade)
    ensures |AllGrades| == 10
    ensures g in AllGrades
    ensures forall i, j :: 0 <= i < j < |AllGrades| ==> GradeLabel(AllGrades[i]) != GradeLabel(AllGrades[j])
  {
  }

  datatype Performance = Excellent | Average | NeedsImprovement

  function PerformanceLabel(p: Performance): string {
    match p
    case Excellent => "优秀"
    case Average => "中等"
    case NeedsImprovement => "待提升"
  }

  datatype Degree = Bachelor | Master | Doctorate

  function DegreeLabel(d: Degree): string {
    match d
    case Bachelor => "本科"
    case Master => "硕士"
    case Doctorate => "博士"
  }

  /** The three kinds of education project, in the order the renderers list them. */
  datatype EduCategory = Admission | BackgroundBoost | Fallback

  function EduCategoryLabel(c: EduCategory): string {
    match c
    case Admission => "升学类"
    case BackgroundBoost => "背景提升类"
    case Fallback => "兜底类"
  }

  function ParseEduCategory(s: string): (r: Option<EduCategory>)
    ensures r.Some? ==> EduCategoryLabel(r.value) == s
  {
    if s == "升学类" then Some(Admission)
    else if s == "背景提升类" then Some(BackgroundBoost)
    else if s == "兜底类" then Some(Fallback)
    else None
  }

  lemma EduCategoryRoundTrip(c: EduCategory, s: string)
    ensures ParseEduCategory(EduCategoryLabel(c)) == Some(c)
    ensures ParseEduCategory(s) == Some(c) <==> s == EduCategoryLabel(c)
  {
  }

  /** The four kinds of partner ("supply-chain") project, in rendering order. */
  datatype SupplyCategory = Language | StudyTour | Internship | ResearchContest

  function SupplyCategoryLabel(c: SupplyCategory): string {
    match c
    case Language => "语言培训"
    case StudyTour => "游学研学"
    case Internship => "实习项目"
    case ResearchContest => "科研/赛事"
  }

  function ParseSupplyCategory(s: string): (r: Option<SupplyCategory>)
    ensures r.Some? ==> SupplyCategoryLabel(r.value) == s
  {
    if s == "语言培训" then Some(Language)
    else if s == "游学研学" then Some(StudyTour)
    else if s == "实习项目" then Some(Internship)
    else if s == "科研/赛事" then Some(ResearchContest)
    else None
  }

  lemma SupplyCategoryRoundTrip(c: SupplyCategory, s: string)
    ensures ParseSupplyCategory(SupplyCategoryLabel(c)) == Some(c)
    ensures ParseSupplyCategory(s) == Some(c) <==> s == SupplyCategoryLabel(c)
  {
  }

  // ---------------------------------------------------------------------------
  // Questionnaire input
  // ---------------------------------------------------------------------------

  /** `grade` holds a grade label (see `ParseGrade`); `school`/`major` are optional. */
  datatype StudentInfo = StudentInfo(
    name: string,
    grade: string,
    currentPerformance: Performance,
    targetDegree: Degree,
    school: Option<string>,
    major: Option<string>)

  datatype PersonalityTraits = PersonalityTraits(strengths: seq<string>, weaknesses: seq<string>)

  datatype AssessmentData = AssessmentData(
    personalityType: string,
    personalityTraits: PersonalityTraits,
    thinkingPatterns: seq<string>,
    interestTendency: seq<string>,
    subjectStrengths: seq<string>)

  datatype Demands = Demands(educationGoal: string, careerExpectation: string, locationPreference: string)

  datatype FamilyInfo = FamilyInfo(
    structure: string,
    parentOccupation: string,
    budget: string,
    resources: seq<string>,
    demands: Demands)

  /** Three flags, each with an optional free-text detail. */
  datatype SpecialCircumstances = SpecialCircumstances(
    hasAcademicIssues: bool,
    academicIssuesDetail: Option<string>,
    hasSpecialPlanning: bool,
    specialPlanningDetail: Option<string>,
    lacksResources: bool,
    lacksResourcesDetail: Option<string>)

  datatype ConsultantInfo = ConsultantInfo(name: string, phone: string, wechat: string)

  datatype ReportInputData = ReportInputData(
    studentInfo: StudentInfo,
    assessmentData: AssessmentData,
    familyInfo: FamilyInfo,
    specialCircumstances: SpecialCircumstances,
    consultantInfo: ConsultantInfo)

  // ---------------------------------------------------------------------------
  // Generated content
  // ---------------------------------------------------------------------------

  datatype CareerMatch = CareerMatch(direction: string, positions: seq<string>, matchReason: string)

  /** `recommendIndex` is documented as 1..5 but nothing enforces it; `category`
      holds an `EduCategory` label when the generator followed instructions. */
  datatype EducationProject = EducationProject(
    name: string,
    tuitionRange: string,
    advantages: seq<string>,
    disadvantages: seq<string>,
    recommendIndex: int,
    consultingFeeRange: string,
    category: string,
    principle: Option<string>,
    requirements: Option<string>,
    timeline: Option<string>,
    process: Option<string>)

  datatype TimelineItem = TimelineItem(stage: string, time: string, tasks: seq<string>, notes: string)

  datatype SupplyChainProject = SupplyChainProject(
    category: string,
    name: string,
    description: string,
    advantage: string)

  datatype CareerPlanningAdvice = CareerPlanningAdvice(field: string, shortTermPath: string, longTermPath: string)

  datatype DevelopmentPath = DevelopmentPath(educationDirection: string, careerGoal: string, resourceMatch: string)

  datatype PersonalityAnalysis = PersonalityAnalysis(
    coreType: string,
    strengths: seq<string>,
    weaknesses: seq<string>,
    summary: seq<string>)

  datatype ReportSummary = ReportSummary(
    planningLogic: string,
    coreCompetence: string,
    actionSuggestions: seq<string>,
    serviceCommitment: seq<string>)

  datatype GeneratedReportContent = GeneratedReportContent(
    personalityAnalysis: PersonalityAnalysis,
    careerMatches: seq<CareerMatch>,
    developmentPaths: seq<DevelopmentPath>,
    careerAdvice: seq<CareerPlanningAdvice>,
    familyCooperationAdvice: seq<string>,
    educationProjects: seq<EducationProject>,
    timeline: seq<TimelineItem>,
    supplyChainProjects: seq<SupplyChainProject>,
    summary: ReportSummary)

  /** A report document: the input it was generated from, the generated
      content and the generation timestamp (an ISO-8601 string). */
  datatype FullReportData = FullReportData(
    input: ReportInputData,
    generated: GeneratedReportContent,
    generatedAt: string)

  /** The recommendation index lies in the documented range 1..5. */
  predicate RecommendIndexDocumented(p: EducationProject) {
    1 <= p.recommendIndex <= 5
  }
}
