/** The content of each of the ten report pages, as both renderers lay it
    out: which fields appear, in what order and under what condition. */
module ReportPages {
  import opened Wrappers
  import opened ReportTypes
  import opened SeqEdit
  import opened Layout

  const ReportTitle := "生涯定制报告"
  const DateCaption := "报告生成日期："

  /** The institution's fixed details (`INSTITUTION_INFO`). */
  const InstitutionAddress := "上海市静安区万荣路700号A2栋"
  const InstitutionPhone := "021-52729115"
  const InstitutionFax := "021-66392688"
  const InstitutionEmail := "contact@huaxinbaike.com"
  const Services: seq<string> := ["AI智能规划", "升学辅导", "职业规划", "资源对接", "背景提升", "留学申请"]
  const ExpertTeam: seq<string> := ["顶尖大学教授团队", "世界500强企业高管", "资深HR面试官", "海外教育专家", "行业领军人物"]

  /** Each text with a fixed marker in front ("✓ ", "△ ", "• "). */
  function Prefixed(marker: string, xs: seq<string>): (r: seq<string>)
    ensures |r| == |xs| && forall i :: 0 <= i < |xs| ==> r[i] == marker + xs[i]
  {
    seq(|xs|, i requires 0 <= i < |xs| => marker + xs[i])
  }

  function Lines(xs: seq<string>): (r: seq<Block>)
    ensures |r| == |xs| && forall i :: 0 <= i < |xs| ==> r[i] == Line(xs[i])
  {
    seq(|xs|, i requires 0 <= i < |xs| => Line(xs[i]))
  }

  // ---------------------------------------------------------------------------
  // Page 1: cover
  // ---------------------------------------------------------------------------

  /** The cover: the student's name, the title, the consultant and the
      contact line, and the generation date. It has no page number. */
  function CoverPage(studentName: string, consultant: ConsultantInfo, date: string): (p: Page)
    ensures p.kind == Cover && p.number.None?
    ensures Line(ContactLine(consultant)) in p.blocks
    ensures Line(DateCaption + date) in p.blocks
  {
    Page(Cover, None, [
      Heading(studentName),
      Line(ReportTitle),
      Line(consultant.name + " 老师"),
      Line(ContactLine(consultant)),
      Line(DateCaption + date)])
  }

  // ---------------------------------------------------------------------------
  // Page 2: institution
  // ---------------------------------------------------------------------------

  /** The institution page: its contact details, its six services numbered
      1 to 6, and its expert team. */
  function InstitutionPage(): (p: Page)
    ensures p.kind == Institution && p.number == Some(2)
    ensures |p.blocks| == 5 + |Services| + 1
    ensures forall i :: 0 <= i < |Services| ==> p.blocks[5 + i] == Item(i + 1, [Services[i]], false)
  {
    Page(Institution, Some(2),
      [ Heading("机构介绍"),
        Field("地址：", InstitutionAddress),
        Field("电话：", InstitutionPhone),
        Field("传真：", InstitutionFax),
        Field("邮箱：", InstitutionEmail) ]
      + Numbered(Singletons(Services))
      + [Tags(ExpertTeam)])
  }

  // ---------------------------------------------------------------------------
  // Pages 3 and 4: assessment results, career matches and family
  // ---------------------------------------------------------------------------

  const CoreTypeCaption := "人格核心类型"

  /** The personality page: the core type, strengths marked "✓ ",
      weaknesses marked "△ ", then the summary lines. */
  function AssessmentResultsPage(a: PersonalityAnalysis): (p: Page)
    ensures p.kind == AssessmentResults && p.number == Some(3)
    ensures |p.blocks| == 4 + |a.summary|
    ensures p.blocks[1] == Field(CoreTypeCaption, a.coreType)
    ensures p.blocks[2] == Tags(Prefixed("✓ ", a.strengths)) && p.blocks[3] == Tags(Prefixed("△ ", a.weaknesses))
    ensures p.blocks[4..] == Lines(a.summary)
  {
    Page(AssessmentResults, Some(3),
      [Heading("测评结果及家庭分析"), Field(CoreTypeCaption, a.coreType),
       Tags(Prefixed("✓ ", a.strengths)), Tags(Prefixed("△ ", a.weaknesses))]
      + Lines(a.summary))
  }

  /** A career card: direction and reason, then every position. */
  function CareerParts(cs: seq<CareerMatch>): (r: seq<seq<string>>)
    ensures |r| == |cs| && forall i :: 0 <= i < |cs| ==> r[i] == [cs[i].direction, cs[i].matchReason] + cs[i].positions
  {
    seq(|cs|, i requires 0 <= i < |cs| => [cs[i].direction, cs[i].matchReason] + cs[i].positions)
  }

  function FamilyBlocks(f: FamilyInfo): seq<Block> {
    [ Field("家庭结构：", f.structure),
      Field("家庭产业/父母职业：", f.parentOccupation),
      Field("经济预算：", f.budget),
      Tags(f.resources),
      Field("升学目标：", f.demands.educationGoal),
      Field("就业期望：", f.demands.careerExpectation),
      Field("地域偏好：", f.demands.locationPreference) ]
  }

  /** The career and family page: the career matches as cards numbered from
      1 in list order, each listing all its positions, then the family. */
  function CareerAndFamilyPage(family: FamilyInfo, careers: seq<CareerMatch>): (p: Page)
    ensures p.kind == CareerAndFamily && p.number == Some(4)
    ensures |p.blocks| == |careers| + 7
    ensures forall i :: 0 <= i < |careers| ==>
      && p.blocks[i].Item? && p.blocks[i].number == i + 1 && |p.blocks[i].parts| >= 2
      && p.blocks[i].parts[..2] == [careers[i].direction, careers[i].matchReason]
      && p.blocks[i].parts[2..] == careers[i].positions
    ensures p.blocks[|careers| + 3] == Tags(family.resources)
  {
    Page(CareerAndFamily, Some(4), Numbered(CareerParts(careers)) + FamilyBlocks(family))
  }

  // ---------------------------------------------------------------------------
  // Page 5: planning
  // ---------------------------------------------------------------------------

  function PathParts(ps: seq<DevelopmentPath>): (r: seq<seq<string>>)
    ensures |r| == |ps| && forall i :: 0 <= i < |ps| ==> r[i] == [ps[i].educationDirection, ps[i].careerGoal, ps[i].resourceMatch]
  {
    seq(|ps|, i requires 0 <= i < |ps| => [ps[i].educationDirection, ps[i].careerGoal, ps[i].resourceMatch])
  }

  function AdviceRows(xs: seq<CareerPlanningAdvice>): (r: seq<Block>)
    ensures |r| == |xs| && forall i :: 0 <= i < |xs| ==> r[i] == Row([[xs[i].field], [xs[i].shortTermPath], [xs[i].longTermPath]])
  {
    seq(|xs|, i requires 0 <= i < |xs| => Row([[xs[i].field], [xs[i].shortTermPath], [xs[i].longTermPath]]))
  }

  /** The planning page: development paths numbered from 1, one table row
      per career advice, and the family-cooperation cards numbered from 1
      with a margin under every card but the last. */
  function PlanningPage(g: GeneratedReportContent): (p: Page)
    ensures p.kind == Planning && p.number == Some(5)
    ensures |p.blocks| == 1 + |g.developmentPaths| + |g.careerAdvice| + |g.familyCooperationAdvice|
    ensures forall i :: 0 <= i < |g.developmentPaths| ==> p.blocks[1 + i] == Item(i + 1, PathParts(g.developmentPaths)[i], false)
    ensures p.blocks[1 + |g.developmentPaths| + |g.careerAdvice|..] == CooperationItems(g.familyCooperationAdvice)
  {
    Page(Planning, Some(5),
      [Heading("咨询规划建议")]
      + Numbered(PathParts(g.developmentPaths))
      + AdviceRows(g.careerAdvice)
      + CooperationItems(g.familyCooperationAdvice))
  }

  // ---------------------------------------------------------------------------
  // Page 6: project table
  // ---------------------------------------------------------------------------

  /** The rating can be drawn as stars. */
  predicate Drawable(p: EducationProject) {
    0 <= p.recommendIndex <= MaxStars
  }

  predicate AllDrawable(ps: seq<EducationProject>) {
    forall i :: 0 <= i < |ps| ==> Drawable(ps[i])
  }

  /** One table row: name, tuition, advantages and disadvantages as bullets,
      the star cell, the consulting fee. */
  function ProjectRow(p: EducationProject): (r: Result<Block>)
    ensures r.Ok? <==> Drawable(p)
    ensures r.Err? ==> r == Err(StarCell(p.recommendIndex).error)
    ensures r.Ok? ==> r.value.Row? && |r.value.cells| == 6 && r.value.cells[4] == [StarCell(p.recommendIndex).value]
  {
    var stars :- StarCell(p.recommendIndex);
    Ok(Row([[p.name], [p.tuitionRange], Prefixed("• ", p.advantages), Prefixed("• ", p.disadvantages),
            [stars], [p.consultingFeeRange]]))
  }

  /** The rows of the project table in list order. Drawing stops at the
      first project whose rating cannot be drawn, and its error is the error
      of the whole table. */
  function ProjectRows(ps: seq<EducationProject>): (r: Result<seq<Block>>)
    ensures r.Ok? <==> AllDrawable(ps)
    ensures r.Ok? ==> |r.value| == |ps| && forall i :: 0 <= i < |ps| ==> r.value[i] == ProjectRow(ps[i]).value
    ensures r.Err? ==> exists i :: 0 <= i < |ps| && !Drawable(ps[i]) && (forall k :: 0 <= k < i ==> Drawable(ps[k]))
                               && r.error == StarCell(ps[i].recommendIndex).error
    decreases |ps|
  {
    if |ps| == 0 then Ok([])
    else
      match ProjectRow(ps[0])
      case Err(e) => Err(e)
      case Ok(row) =>
        var rest := ProjectRows(ps[1..]);
        if rest.Err? then
          assert exists i :: 0 <= i < |ps| && !Drawable(ps[i]) && (forall k :: 0 <= k < i ==> Drawable(ps[k]))
                             && rest.error == StarCell(ps[i].recommendIndex).error by {
            var j :| 0 <= j < |ps[1..]| && !Drawable(ps[1..][j]) && (forall k :: 0 <= k < j ==> Drawable(ps[1..][k]))
                     && rest.error == StarCell(ps[1..][j].recommendIndex).error;
            FirstUndrawableOfTail(ps, j);
          }
          Err(rest.error)
        else
          Ok([row] + rest.value)
  }

  /** The first undrawable project of the tail, behind a drawable head, is
      the first undrawable project of the whole list. */
  lemma FirstUndrawableOfTail(ps: seq<EducationProject>, j: nat)
    requires |ps| > 0 && Drawable(ps[0]) && j < |ps| - 1
    requires forall k :: 0 <= k < j ==> Drawable(ps[1..][k])
    ensures ps[1..][j] == ps[j + 1]
    ensures forall k :: 0 <= k < j + 1 ==> Drawable(ps[k])
  {
    forall k | 0 <= k < j + 1 ensures Drawable(ps[k]) {
      if k > 0 {
        assert ps[k] == ps[1..][k - 1];
      }
    }
  }

  /** The project table page, or the error of the first rating that cannot
      be drawn. */
  function ProjectTablePage(ps: seq<EducationProject>): (r: Result<Page>)
    ensures r.Ok? <==> AllDrawable(ps)
    ensures r.Ok? ==> r.value.kind == ProjectTable && r.value.number == Some(6)
    ensures r.Ok? ==> |r.value.blocks| == 1 + |ps| && r.value.blocks[1..] == ProjectRows(ps).value
    ensures r.Err? ==> r.error == ProjectRows(ps).error
  {
    var rows :- ProjectRows(ps);
    Ok(Page(ProjectTable, Some(6), [Heading("升学项目建议")] + rows))
  }

  /** The ratings that can be drawn are the documented range 1..5 and 0
      besides; a table of documented ratings always draws. */
  lemma DocumentedRatingsDraw(p: EducationProject, ps: seq<EducationProject>)
    requires forall i :: 0 <= i < |ps| ==> RecommendIndexDocumented(ps[i])
    ensures Drawable(p) <==> RecommendIndexDocumented(p) || p.recommendIndex == 0
    ensures ProjectTablePage(ps).Ok?
  {
  }

  /** A project with a rating above five makes the table fail: with the
      RangeError of a negative count of empty stars, or, for a rating beyond
      the string length, with the RangeError of the filled stars. */
  lemma RatingAboveFiveFails(p: EducationProject)
    requires p.recommendIndex > MaxStars
    ensures ProjectTablePage([p]).Err?
    ensures p.recommendIndex <= MaxStringLength ==> ProjectTablePage([p]).error == InvalidCount(MaxStars - p.recommendIndex)
    ensures p.recommendIndex > MaxStringLength ==> ProjectTablePage([p]).error == InvalidLength
  {
  }

  // ---------------------------------------------------------------------------
  // Pages 7 to 10
  // ---------------------------------------------------------------------------

  /** The project details page: one box per non-empty category. */
  function ProjectDetailsPage(ps: seq<EducationProject>): (p: Page)
    ensures p.kind == ProjectDetails && p.number == Some(7)
    ensures |p.blocks| >= 1 && p.blocks[1..] == EducationBlocks(ps)
  {
    Page(ProjectDetails, Some(7), [Heading("项目详解")] + EducationBlocks(ps))
  }

  function TimelineRows(items: seq<TimelineItem>): (r: seq<Block>)
    ensures |r| == |items| && forall i :: 0 <= i < |items| ==> r[i] == Row([[items[i].stage], [items[i].time], items[i].tasks, [items[i].notes]])
  {
    seq(|items|, i requires 0 <= i < |items| => Row([[items[i].stage], [items[i].time], items[i].tasks, [items[i].notes]]))
  }

  /** The timeline page: one row per stage, in list order, with every task. */
  function TimelinePage(items: seq<TimelineItem>): (p: Page)
    ensures p.kind == Timeline && p.number == Some(8)
    ensures |p.blocks| == 1 + |items|
    ensures forall i :: 0 <= i < |items| ==> p.blocks[1 + i].Row? && |p.blocks[1 + i].cells| == 4 && p.blocks[1 + i].cells[2] == items[i].tasks
  {
    Page(Timeline, Some(8), [Heading("申请时间表")] + TimelineRows(items))
  }

  /** The partner-project page: the four category boxes. */
  function SupplyChainPage(ps: seq<SupplyChainProject>): (p: Page)
    ensures p.kind == SupplyChain && p.number == Some(9)
    ensures |p.blocks| == 5 && p.blocks[1..] == SupplyBlocks(ps)
  {
    Page(SupplyChain, Some(9), [Heading("供应链项目推荐")] + SupplyBlocks(ps))
  }

  function Greeting(studentName: string): string {
    "亲爱的" + studentName + "同学"
  }

  /** The summary page: the planning logic, the core competence, the action
      suggestions numbered from 1, the service commitments and the greeting
      to the student by name. */
  function SummaryPage(s: ReportSummary, studentName: string): (p: Page)
    ensures p.kind == Summary && p.number == Some(10)
    ensures |p.blocks| == 3 + |s.actionSuggestions| + 2
    ensures forall i :: 0 <= i < |s.actionSuggestions| ==> p.blocks[3 + i] == Item(i + 1, [s.actionSuggestions[i]], false)
    ensures p.blocks[|p.blocks| - 1] == Line(Greeting(studentName))
  {
    Page(Summary, Some(10),
      [Heading("规划总结与行动建议"), Line(s.planningLogic), Line(s.coreCompetence)]
      + Numbered(Singletons(s.actionSuggestions))
      + [Tags(Prefixed("✓ ", s.serviceCommitment)), Line(Greeting(studentName))])
  }

  // ---------------------------------------------------------------------------
  // A worked case of the category boxes
  // ---------------------------------------------------------------------------

  /** Four projects, one in each of the three categories (in category
      order) and one in an unknown category: three boxes in category order,
      one card each, and the unknown one nowhere. */
  lemma OneProjectPerCategory(ps: seq<EducationProject>)
    requires |ps| == 4
    requires ps[0].category == EduLabels[0] && ps[1].category == EduLabels[1] && ps[2].category == EduLabels[2]
    requires ParseEduCategory(ps[3].category).None?
    ensures var boxes := EducationBlocks(ps);
      && |boxes| == 3
      && boxes[0].members == [ProjectCard(ps[0])]
      && boxes[1].members == [ProjectCard(ps[1])]
      && boxes[2].members == [ProjectCard(ps[2])]
  {
    CategoriesApart(ps);
    SingleBox(ps, 0);
    SingleBox(ps, 1);
    SingleBox(ps, 2);
    AllCategoriesShown(ps);
    BoxesWhenAllShown(ps);
  }

  /** The four projects of the worked case carry four different categories. */
  lemma CategoriesApart(ps: seq<EducationProject>)
    requires |ps| == 4
    requires ps[0].category == EduLabels[0] && ps[1].category == EduLabels[1] && ps[2].category == EduLabels[2]
    requires ParseEduCategory(ps[3].category).None?
    ensures forall j, k :: 0 <= j < 4 && 0 <= k < 4 && j != k ==> ps[j].category != ps[k].category
  {
    EduCategoryRoundTrip(Admission, ps[3].category);
    EduCategoryRoundTrip(BackgroundBoost, ps[3].category);
    EduCategoryRoundTrip(Fallback, ps[3].category);
    EduLabelsDistinct();
  }

  /** A project whose category no other project of the four shares is the
      one card of its category's box. */
  lemma SingleBox(ps: seq<EducationProject>, k: nat)
    requires |ps| == 4 && k < 4
    requires forall j :: 0 <= j < 4 && j != k ==> ps[j].category != ps[k].category
    ensures ProjectCards(Bucket(ps, EduCategoryOf, ps[k].category)) == [ProjectCard(ps[k])]
  {
    SingleBucket(ps, ps[k], k);
    assert ProjectCards([ps[k]]) == [ProjectCard(ps[k])];
  }

  /** When all three categories are shown, box i holds category i's bucket. */
  lemma BoxesWhenAllShown(ps: seq<EducationProject>)
    requires ShownCategories(ps, EduLabels) == EduLabels
    ensures var boxes := EducationBlocks(ps);
      && |boxes| == 3
      && boxes[0].members == ProjectCards(Bucket(ps, EduCategoryOf, EduLabels[0]))
      && boxes[1].members == ProjectCards(Bucket(ps, EduCategoryOf, EduLabels[1]))
      && boxes[2].members == ProjectCards(Bucket(ps, EduCategoryOf, EduLabels[2]))
  {
    var boxes := EducationBlocks(ps);
    assert Titles(boxes) == EduLabels;
  }

  /** With every category present, every box is shown. */
  lemma AllCategoriesShown(ps: seq<EducationProject>)
    requires |Bucket(ps, EduCategoryOf, EduLabels[0])| > 0
    requires |Bucket(ps, EduCategoryOf, EduLabels[1])| > 0
    requires |Bucket(ps, EduCategoryOf, EduLabels[2])| > 0
    ensures ShownCategories(ps, EduLabels) == EduLabels
  {
    var l := EduLabels;
    BucketEmptyIff(ps, EduCategoryOf, l[0]);
    BucketEmptyIff(ps, EduCategoryOf, l[1]);
    BucketEmptyIff(ps, EduCategoryOf, l[2]);
    assert l[1..] == [l[1], l[2]] && l[1..][1..] == [l[2]] && l[1..][1..][1..] == [];
    assert ShownCategories(ps, [l[2]]) == [l[2]];
    assert ShownCategories(ps, [l[1], l[2]]) == [l[1], l[2]];
  }

  /** When exactly one project of a four-project list has a category, that
      project alone is its bucket. */
  lemma SingleBucket(ps: seq<EducationProject>, p: EducationProject, k: nat)
    requires |ps| == 4 && k < 4 && ps[k] == p
    requires forall j :: 0 <= j < 4 && j != k ==> ps[j].category != p.category
    ensures Bucket(ps, EduCategoryOf, p.category) == [p]
  {
    var bucket := Bucket(ps, EduCategoryOf, p.category);
    BucketCounts(ps, EduCategoryOf, p.category);
    assert ps == ps[..k] + [p] + ps[k + 1..];
    forall x ensures multiset(bucket)[x] == multiset([p])[x] {
      if x.category == p.category && x != p {
        assert x !in ps;
      }
    }
    assert multiset(bucket) == multiset([p]);
    assert |bucket| == 1;
    assert bucket[0] in multiset(bucket);
  }
}
