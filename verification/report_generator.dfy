/** Report assembly: the seven section results combined fail-fast and merged
    into `GeneratedReportContent`, plus the two pieces of prompt logic that
    depend on the input (the grade's planning scope and the
    special-circumstance lines). */
module ReportGenerator {
  import opened Wrappers
  import opened ReportTypes
  import opened SpecialCircumstancesForm

  /** The planning-advice section carries three lists of the report. */
  datatype PlanningAdvice = PlanningAdvice(
    developmentPaths: seq<DevelopmentPath>,
    careerAdvice: seq<CareerPlanningAdvice>,
    familyCooperationAdvice: seq<string>)

  /** The settled result of each of the seven section generators, in the
      order they are launched. */
  datatype SectionResults = SectionResults(
    personalityAnalysis: Result<PersonalityAnalysis>,
    careerMatches: Result<seq<CareerMatch>>,
    planningAdvice: Result<PlanningAdvice>,
    educationProjects: Result<seq<EducationProject>>,
    timeline: Result<seq<TimelineItem>>,
    supplyChainProjects: Result<seq<SupplyChainProject>>,
    summary: Result<ReportSummary>)

  predicate AllSucceeded(s: SectionResults) {
    && s.personalityAnalysis.Ok? && s.careerMatches.Ok? && s.planningAdvice.Ok?
    && s.educationProjects.Ok? && s.timeline.Ok? && s.supplyChainProjects.Ok? && s.summary.Ok?
  }

  /** The error messages of the failed sections, in launch order. */
  function Failures(s: SectionResults): seq<string> {
    (if s.personalityAnalysis.Err? then [s.personalityAnalysis.error] else [])
    + (if s.careerMatches.Err? then [s.careerMatches.error] else [])
    + (if s.planningAdvice.Err? then [s.planningAdvice.error] else [])
    + (if s.educationProjects.Err? then [s.educationProjects.error] else [])
    + (if s.timeline.Err? then [s.timeline.error] else [])
    + (if s.supplyChainProjects.Err? then [s.supplyChainProjects.error] else [])
    + (if s.summary.Err? then [s.summary.error] else [])
  }

  /** `generateReportContent`: `Promise.all` over the seven sections, then the
      positional merge. Any failure fails the whole report with a failing
      section's message; on success every section is copied verbatim and the
      three planning lists all come from the planning-advice section. */
  function GenerateReportContent(s: SectionResults): (r: Result<GeneratedReportContent>)
    ensures r.Ok? <==> AllSucceeded(s)
    ensures r.Err? ==> r.error in Failures(s)
    ensures r.Ok? ==>
      && r.value.personalityAnalysis == s.personalityAnalysis.value
      && r.value.careerMatches == s.careerMatches.value
      && r.value.developmentPaths == s.planningAdvice.value.developmentPaths
      && r.value.careerAdvice == s.planningAdvice.value.careerAdvice
      && r.value.familyCooperationAdvice == s.planningAdvice.value.familyCooperationAdvice
      && r.value.educationProjects == s.educationProjects.value
      && r.value.timeline == s.timeline.value
      && r.value.supplyChainProjects == s.supplyChainProjects.value
      && r.value.summary == s.summary.value
  {
    var personalityAnalysis :- s.personalityAnalysis;
    var careerMatches :- s.careerMatches;
    var planningAdvice :- s.planningAdvice;
    var educationProjects :- s.educationProjects;
    var timeline :- s.timeline;
    var supplyChainProjects :- s.supplyChainProjects;
    var summary :- s.summary;
    Ok(GeneratedReportContent(
      personalityAnalysis,
      careerMatches,
      planningAdvice.developmentPaths,
      planningAdvice.careerAdvice,
      planningAdvice.familyCooperationAdvice,
      educationProjects,
      timeline,
      supplyChainProjects,
      summary))
  }

  /** Fail-fast: one failing section, whichever it is and whatever the others
      produced, fails the report; no partial report is ever returned. */
  lemma OneFailureFailsReport(s: SectionResults)
    requires |Failures(s)| > 0
    ensures GenerateReportContent(s).Err?
  {
  }

  /** The merge loses nothing: every section can be read back from the report. */
  lemma MergeIsLossless(s: SectionResults)
    requires AllSucceeded(s)
    ensures var g := GenerateReportContent(s).value;
      && Ok(g.personalityAnalysis) == s.personalityAnalysis
      && Ok(g.careerMatches) == s.careerMatches
      && Ok(PlanningAdvice(g.developmentPaths, g.careerAdvice, g.familyCooperationAdvice)) == s.planningAdvice
      && Ok(g.educationProjects) == s.educationProjects
      && Ok(g.timeline) == s.timeline
      && Ok(g.supplyChainProjects) == s.supplyChainProjects
      && Ok(g.summary) == s.summary
  {
  }

  // ---------------------------------------------------------------------------
  // Planning scope per grade (the timeline prompt)
  // ---------------------------------------------------------------------------

  /** `gradeTimelines`: what the timeline has to cover, per grade label. */
  const GradeTimelines: map<string, string> := map[
    "初一" := "初中三年+高中三年规划",
    "初二" := "初中剩余时间+高中三年规划",
    "初三" := "中考冲刺+高中三年规划",
    "高一" := "高中三年+大学四年规划",
    "高二" := "高中剩余时间+大学四年规划",
    "高三" := "高考冲刺+大学四年规划",
    "大一" := "大学四年规划",
    "大二" := "大学剩余时间规划",
    "大三" := "大学剩余时间+研究生规划",
    "大四" := "毕业求职/研究生申请规划"
  ]

  /** The methods every plain object inherits from `Object.prototype`, besides
      `constructor`. */
  const InheritedMethods: set<string> := {
    "hasOwnProperty", "isPrototypeOf", "propertyIsEnumerable", "toString", "valueOf", "toLocaleString",
    "__defineGetter__", "__defineSetter__", "__lookupGetter__", "__lookupSetter__"}

  /** A key that a plain object literal answers from `Object.prototype`. */
  predicate InheritedKey(key: string) {
    key == "constructor" || key == "__proto__" || key in InheritedMethods
  }

  /** The scope text interpolated into the timeline prompt:
      `${gradeTimelines[grade]}`. The table is a plain object, so a grade
      string outside it reads an inherited member when it names one (a
      native method prints as its source text `function name() { [native
      code] }`, `constructor` as `Object`'s, and `__proto__` as
      `[object Object]`) and "undefined" otherwise. */
  function PlanningScope(grade: string): (r: string)
    ensures ParseGrade(grade).Some? ==> grade in GradeTimelines && r == GradeTimelines[grade] && r != "undefined"
    ensures ParseGrade(grade).None? && !InheritedKey(grade) ==> r == "undefined"
    ensures InheritedKey(grade) ==> ParseGrade(grade).None? && r != "undefined" && r !in GradeTimelines.Values
    ensures grade in InheritedMethods ==> r == "function " + grade + "() { [native code] }"
    ensures grade == "constructor" ==> r == "function Object() { [native code] }"
    ensures grade == "__proto__" ==> r == "[object Object]"
  {
    if grade in GradeTimelines then GradeTimelines[grade]
    else if grade == "constructor" then "function Object() { [native code] }"
    else if grade == "__proto__" then "[object Object]"
    else if grade in InheritedMethods then "function " + grade + "() { [native code] }"
    else "undefined"
  }

  /** The table is defined for exactly the ten grade labels. */
  lemma GradeTimelinesKeys(g: Grade, key: string)
    ensures GradeLabel(g) in GradeTimelines
    ensures key in GradeTimelines <==> ParseGrade(key).Some?
  {
  }

  // ---------------------------------------------------------------------------
  // Special circumstances (the planning-advice prompt)
  // ---------------------------------------------------------------------------

  const NoneMarker := "无"

  /** `flag ? detail : '无'`, where an absent detail interpolates as "undefined". */
  function CircumstanceText(flag: bool, detail: Option<string>): (r: string)
    ensures !flag ==> r == NoneMarker
    ensures flag && detail.Some? ==> r == detail.value
    ensures flag && detail.None? ==> r == "undefined"
  {
    if flag then (if detail.Some? then detail.value else "undefined") else NoneMarker
  }

  function CircumstanceLabel(f: Flag): string {
    match f
    case AcademicIssues => "- 考学问题："
    case SpecialPlanning => "- 特色规划："
    case LacksResources => "- 资源缺乏："
  }

  /** The three "特殊情况" lines of the planning-advice prompt, one per flag in
      the order academic issues, special planning, lack of resources. */
  function CircumstanceLines(sc: SpecialCircumstances): (r: seq<string>)
    ensures |r| == 3
    ensures forall i :: 0 <= i < 3 ==>
      var f := [AcademicIssues, SpecialPlanning, LacksResources][i];
      r[i] == CircumstanceLabel(f) + CircumstanceText(FlagValue(sc, f), Detail(sc, f))
  {
    [ CircumstanceLabel(AcademicIssues) + CircumstanceText(sc.hasAcademicIssues, sc.academicIssuesDetail),
      CircumstanceLabel(SpecialPlanning) + CircumstanceText(sc.hasSpecialPlanning, sc.specialPlanningDetail),
      CircumstanceLabel(LacksResources) + CircumstanceText(sc.lacksResources, sc.lacksResourcesDetail) ]
  }

  /** A line shows the entered detail while its flag is set and "无" while it
      is not, whatever detail text the form still holds. */
  lemma CircumstanceLineShowsDetailIffFlag(sc: SpecialCircumstances, f: Flag, text: string)
    requires Detail(sc, f) == Some(text)
    ensures FlagValue(sc, f) ==> CircumstanceText(FlagValue(sc, f), Detail(sc, f)) == text
    ensures !FlagValue(sc, f) ==> CircumstanceText(FlagValue(sc, f), Detail(sc, f)) == NoneMarker
  {
  }
}
