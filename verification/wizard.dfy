/** The questionnaire page: the form validator, the request input built from
    the form, the three-step wizard `input -> generating -> preview`, and the
    position chips of the preview. */
module Wizard {
  import opened Wrappers
  import opened ReportTypes
  import opened SeqEdit
  import GenerateRoute
  import AssessmentForm

  // ---------------------------------------------------------------------------
  // Validation
  // ---------------------------------------------------------------------------

  /** The sixteen checks of `validateForm`, one per required field or list. */
  datatype Requirement =
    | NameGiven | GradeChosen | PersonalityTypeChosen
    | EnoughStrengths | EnoughWeaknesses | EnoughThinkingPatterns | InterestChosen | EnoughSubjects
    | StructureGiven | OccupationGiven | BudgetChosen
    | EducationGoalGiven | CareerExpectationGiven | LocationPreferenceGiven
    | ConsultantNameGiven | ConsultantPhoneGiven

  /** The order in which the checks run and their messages are listed. */
  const Requirements: seq<Requirement> := [
    NameGiven, GradeChosen, PersonalityTypeChosen,
    EnoughStrengths, EnoughWeaknesses, EnoughThinkingPatterns, InterestChosen, EnoughSubjects,
    StructureGiven, OccupationGiven, BudgetChosen,
    EducationGoalGiven, CareerExpectationGiven, LocationPreferenceGiven,
    ConsultantNameGiven, ConsultantPhoneGiven]

  /** Whether the form passes one check. */
  predicate Holds(q: Requirement, f: ReportInputData) {
    match q
    case NameGiven => f.studentInfo.name != ""
    case GradeChosen => f.studentInfo.grade != ""
    case PersonalityTypeChosen => f.assessmentData.personalityType != ""
    case EnoughStrengths => |f.assessmentData.personalityTraits.strengths| >= 3
    case EnoughWeaknesses => |f.assessmentData.personalityTraits.weaknesses| >= 3
    case EnoughThinkingPatterns => |f.assessmentData.thinkingPatterns| >= 3
    case InterestChosen => |f.assessmentData.interestTendency| != 0
    case EnoughSubjects => |f.assessmentData.subjectStrengths| >= 2
    case StructureGiven => f.familyInfo.structure != ""
    case OccupationGiven => f.familyInfo.parentOccupation != ""
    case BudgetChosen => f.familyInfo.budget != ""
    case EducationGoalGiven => f.familyInfo.demands.educationGoal != ""
    case CareerExpectationGiven => f.familyInfo.demands.careerExpectation != ""
    case LocationPreferenceGiven => f.familyInfo.demands.locationPreference != ""
    case ConsultantNameGiven => f.consultantInfo.name != ""
    case ConsultantPhoneGiven => f.consultantInfo.phone != ""
  }

  function Message(q: Requirement): string {
    match q
    case NameGiven => "请填写学生姓名"
    case GradeChosen => "请选择年级"
    case PersonalityTypeChosen => "请选择人格类型"
    case EnoughStrengths => "性格优势至少需要3点"
    case EnoughWeaknesses => "性格缺点至少需要3点"
    case EnoughThinkingPatterns => "思维模式至少需要3条"
    case InterestChosen => "请选择兴趣倾向"
    case EnoughSubjects => "学科优势至少需要2科"
    case StructureGiven => "请填写家庭结构"
    case OccupationGiven => "请填写父母职业"
    case BudgetChosen => "请选择经济预算"
    case EducationGoalGiven => "请填写升学目标"
    case CareerExpectationGiven => "请填写就业期望"
    case LocationPreferenceGiven => "请填写地域偏好"
    case ConsultantNameGiven => "请填写咨询老师姓名"
    case ConsultantPhoneGiven => "请填写咨询老师电话"
  }

  /** The form is complete: every required text is filled in and every list
      has its minimum number of entries. */
  predicate FormComplete(f: ReportInputData) {
    && f.studentInfo.name != "" && f.studentInfo.grade != ""
    && f.assessmentData.personalityType != ""
    && |f.assessmentData.personalityTraits.strengths| >= 3
    && |f.assessmentData.personalityTraits.weaknesses| >= 3
    && |f.assessmentData.thinkingPatterns| >= 3
    && |f.assessmentData.interestTendency| >= 1
    && |f.assessmentData.subjectStrengths| >= 2
    && f.familyInfo.structure != "" && f.familyInfo.parentOccupation != "" && f.familyInfo.budget != ""
    && f.familyInfo.demands.educationGoal != ""
    && f.familyInfo.demands.careerExpectation != ""
    && f.familyInfo.demands.locationPreference != ""
    && f.consultantInfo.name != "" && f.consultantInfo.phone != ""
  }

  /** The checks among `reqs` that the form fails, in the order of `reqs`. */
  function FailedChecks(reqs: seq<Requirement>, f: ReportInputData): (r: seq<Requirement>)
    ensures forall q :: q in r <==> q in reqs && !Holds(q, f)
    ensures IsSubsequence(r, reqs)
    decreases |reqs|
  {
    if |reqs| == 0 then []
    else
      var rest := FailedChecks(reqs[1..], f);
      if Holds(reqs[0], f) then
        SubsequenceOfTail(rest, reqs);
        rest
      else
        assert ([reqs[0]] + rest)[1..] == rest;
        [reqs[0]] + rest
  }

  /** `validateForm()`: one message per failed check, in check order. It is
      empty exactly when the form is complete, and has at most sixteen entries. */
  function ValidateForm(f: ReportInputData): (errors: seq<string>)
    ensures errors == [] <==> FormComplete(f)
    ensures |errors| <= |Requirements| == 16
    ensures forall q :: q in Requirements ==> (Message(q) in errors <==> !Holds(q, f))
  {
    var failed := FailedChecks(Requirements, f);
    SubsequenceNoLonger(failed, Requirements);
    CompleteIffNoneFailed(f);
    MessagesOfFailed(failed);
    MessagesOf(failed)
  }

  /** The assessment form's "still needed" hints and the validator agree:
      each of the four hints shows exactly when the message of the matching
      check is among the validation errors. */
  lemma HintsMatchValidation(f: ReportInputData)
    ensures var hints := AssessmentForm.Hints(f.assessmentData); var errors := ValidateForm(f);
      && (hints[0].Some? <==> Message(EnoughStrengths) in errors)
      && (hints[1].Some? <==> Message(EnoughWeaknesses) in errors)
      && (hints[2].Some? <==> Message(EnoughThinkingPatterns) in errors)
      && (hints[3].Some? <==> Message(EnoughSubjects) in errors)
  {
    EveryCheckListed();
    ListChecks(f);
  }

  /** The four list checks, spelled out. */
  lemma ListChecks(f: ReportInputData)
    ensures Holds(EnoughStrengths, f) <==> |f.assessmentData.personalityTraits.strengths| >= 3
    ensures Holds(EnoughWeaknesses, f) <==> |f.assessmentData.personalityTraits.weaknesses| >= 3
    ensures Holds(EnoughThinkingPatterns, f) <==> |f.assessmentData.thinkingPatterns| >= 3
    ensures Holds(EnoughSubjects, f) <==> |f.assessmentData.subjectStrengths| >= 2
  {
  }

  /** The messages of a list of checks, one each, in the same order. */
  function MessagesOf(qs: seq<Requirement>): (r: seq<string>)
    ensures |r| == |qs|
    ensures forall i :: 0 <= i < |qs| ==> r[i] == Message(qs[i])
  {
    if |qs| == 0 then [] else [Message(qs[0])] + MessagesOf(qs[1..])
  }

  /** Because messages are distinct, a check's message is listed exactly
      when the check is. */
  lemma MessagesOfFailed(qs: seq<Requirement>)
    ensures forall q :: Message(q) in MessagesOf(qs) <==> q in qs
  {
    MessagesDistinct();
    var r := MessagesOf(qs);
    forall q ensures Message(q) in r <==> q in qs {
      if Message(q) in r {
        var i :| 0 <= i < |r| && r[i] == Message(q);
        assert qs[i] == q;
      }
      if q in qs {
        var i :| 0 <= i < |qs| && qs[i] == q;
        assert r[i] == Message(q);
      }
    }
  }

  /** The form is complete exactly when no check fails. */
  lemma CompleteIffNoneFailed(f: ReportInputData)
    ensures FailedChecks(Requirements, f) == [] <==> FormComplete(f)
  {
    var failed := FailedChecks(Requirements, f);
    EveryCheckListed();
    CompleteIffAllHold(f);
    if failed != [] {
      assert failed[0] in failed;
    }
  }

  lemma EveryCheckListed()
    ensures forall q :: q in Requirements
  {
    forall q ensures q in Requirements {
      match q {
        case NameGiven => assert Requirements[0] == q;
        case GradeChosen => assert Requirements[1] == q;
        case PersonalityTypeChosen => assert Requirements[2] == q;
        case EnoughStrengths => assert Requirements[3] == q;
        case EnoughWeaknesses => assert Requirements[4] == q;
        case EnoughThinkingPatterns => assert Requirements[5] == q;
        case InterestChosen => assert Requirements[6] == q;
        case EnoughSubjects => assert Requirements[7] == q;
        case StructureGiven => assert Requirements[8] == q;
        case OccupationGiven => assert Requirements[9] == q;
        case BudgetChosen => assert Requirements[10] == q;
        case EducationGoalGiven => assert Requirements[11] == q;
        case CareerExpectationGiven => assert Requirements[12] == q;
        case LocationPreferenceGiven => assert Requirements[13] == q;
        case ConsultantNameGiven => assert Requirements[14] == q;
        case ConsultantPhoneGiven => assert Requirements[15] == q;
      }
    }
  }

  lemma CompleteIffAllHold(f: ReportInputData)
    ensures FormComplete(f) <==> forall q :: Holds(q, f)
  {
    if FormComplete(f) {
      forall q ensures Holds(q, f) { }
    } else {
      if !(f.studentInfo.name != "" && f.studentInfo.grade != "" && f.assessmentData.personalityType != "") {
        assert !Holds(NameGiven, f) || !Holds(GradeChosen, f) || !Holds(PersonalityTypeChosen, f);
      } else if !(|f.assessmentData.personalityTraits.strengths| >= 3 && |f.assessmentData.personalityTraits.weaknesses| >= 3
                  && |f.assessmentData.thinkingPatterns| >= 3) {
        assert !Holds(EnoughStrengths, f) || !Holds(EnoughWeaknesses, f) || !Holds(EnoughThinkingPatterns, f);
      } else if !(|f.assessmentData.interestTendency| >= 1 && |f.assessmentData.subjectStrengths| >= 2) {
        assert !Holds(InterestChosen, f) || !Holds(EnoughSubjects, f);
      } else if !(f.familyInfo.structure != "" && f.familyInfo.parentOccupation != "" && f.familyInfo.budget != "") {
        assert !Holds(StructureGiven, f) || !Holds(OccupationGiven, f) || !Holds(BudgetChosen, f);
      } else if !(f.familyInfo.demands.educationGoal != "" && f.familyInfo.demands.careerExpectation != ""
                  && f.familyInfo.demands.locationPreference != "") {
        assert !Holds(EducationGoalGiven, f) || !Holds(CareerExpectationGiven, f) || !Holds(LocationPreferenceGiven, f);
      } else {
        assert !Holds(ConsultantNameGiven, f) || !Holds(ConsultantPhoneGiven, f);
      }
    }
  }

  /** No two checks share a message, so each message names its check. */
  lemma MessagesDistinct()
    ensures forall p, q :: Message(p) == Message(q) ==> p == q
  {
  }

  /** The fields the validator does not look at: the consultant's wechat, the
      school and major, performance and target degree, the family resources
      and the special circumstances. Changing them never changes the result. */
  lemma ValidationIgnoresOptionalFields(f: ReportInputData, wechat: string, school: Option<string>,
    major: Option<string>, resources: seq<string>, sc: SpecialCircumstances)
    ensures
      var g := f.(
        consultantInfo := f.consultantInfo.(wechat := wechat),
        studentInfo := f.studentInfo.(school := school, major := major),
        familyInfo := f.familyInfo.(resources := resources),
        specialCircumstances := sc);
      ValidateForm(g) == ValidateForm(f)
  {
    var g := f.(
      consultantInfo := f.consultantInfo.(wechat := wechat),
      studentInfo := f.studentInfo.(school := school, major := major),
      familyInfo := f.familyInfo.(resources := resources),
      specialCircumstances := sc);
    assert forall q :: Holds(q, g) == Holds(q, f);
    SameChecksSameFailures(Requirements, f, g);
  }

  lemma {:induction false} SameChecksSameFailures(reqs: seq<Requirement>, f: ReportInputData, g: ReportInputData)
    requires forall q :: Holds(q, g) == Holds(q, f)
    ensures FailedChecks(reqs, g) == FailedChecks(reqs, f)
    decreases |reqs|
  {
    if |reqs| > 0 {
      SameChecksSameFailures(reqs[1..], f, g);
    }
  }

  // ---------------------------------------------------------------------------
  // The request input
  // ---------------------------------------------------------------------------

  /** The input sent for generation: the form as it is, except that a blank
      wechat is replaced by the phone number. */
  function BuildInput(f: ReportInputData): (r: ReportInputData)
    ensures r.consultantInfo.wechat == (if f.consultantInfo.wechat != "" then f.consultantInfo.wechat else f.consultantInfo.phone)
    ensures r.consultantInfo.name == f.consultantInfo.name && r.consultantInfo.phone == f.consultantInfo.phone
    ensures r.(consultantInfo := f.consultantInfo) == f
  {
    f.(consultantInfo := f.consultantInfo.(wechat := if f.consultantInfo.wechat != "" then f.consultantInfo.wechat else f.consultantInfo.phone))
  }

  /** Whatever the form, the built input passes validation exactly when the
      form does, and a complete form always passes the endpoint's own checks
      with a non-empty wechat. */
  lemma BuiltInputIsAccepted(f: ReportInputData)
    ensures ValidateForm(BuildInput(f)) == ValidateForm(f)
    ensures FormComplete(f) ==> GenerateRoute.HasStudent(BuildInput(f)) && BuildInput(f).consultantInfo.wechat != ""
  {
    ValidationIgnoresOptionalFields(f, BuildInput(f).consultantInfo.wechat, f.studentInfo.school,
      f.studentInfo.major, f.familyInfo.resources, f.specialCircumstances);
  }

  // ---------------------------------------------------------------------------
  // Steps
  // ---------------------------------------------------------------------------

  datatype Step = InputStep | Generating | Preview

  /** The page state: current step, the error banner text, the last report. */
  datatype Page = Page(step: Step, error: string, report: Option<FullReportData>)

  /** `errors.join('\n')`. */
  function JoinLines(lines: seq<string>): string {
    if |lines| == 0 then ""
    else if |lines| == 1 then lines[0]
    else lines[0] + "\n" + JoinLines(lines[1..])
  }

  /** What `handleGenerate` does before the request: either the request input
      to send, or nothing because the form is incomplete. */
  datatype Submission = Submission(page: Page, request: Option<ReportInputData>)

  /** `handleGenerate` up to the request. An incomplete form shows its
      messages and sends nothing, without changing the step; a complete one
      clears the error, enters `generating` and sends the built input. */
  function Submit(p: Page, f: ReportInputData): (r: Submission)
    ensures !FormComplete(f) ==> r.request.None? && r.page == p.(error := JoinLines(ValidateForm(f)))
    ensures FormComplete(f) ==> r.request == Some(BuildInput(f)) && r.page == p.(step := Generating, error := "")
  {
    var errors := ValidateForm(f);
    if |errors| > 0 then Submission(p.(error := JoinLines(errors)), None)
    else Submission(p.(step := Generating, error := ""), Some(BuildInput(f)))
  }

  const GenerationFailedMessage := "生成失败"

  /** `handleGenerate` after the response: a report moves to `preview`; any
      error goes back to `input` with the server's message (or a default). */
  function Resolve(p: Page, response: GenerateRoute.Response): (r: Page)
    ensures response.Success? ==> r.step == Preview && r.report == Some(response.data)
    ensures response.Failure? ==> r.step == InputStep && r.report == p.report && r.error != ""
    ensures response.Failure? && response.error != "" ==> r.error == response.error
  {
    match response
    case Success(data) => p.(step := Preview, report := Some(data))
    case Failure(_, message) =>
      p.(step := InputStep, error := if message != "" then message else GenerationFailedMessage)
  }

  /** `handleBackToEdit`: back to the form, keeping the report. */
  function BackToEdit(p: Page): (r: Page)
    ensures r.step == InputStep && r.report == p.report && r.error == p.error
  {
    p.(step := InputStep)
  }

  /** `handleRegenerate`: forget the report, then submit again. */
  function Regenerate(p: Page, f: ReportInputData): (r: Submission)
    ensures r.page.report.None?
    ensures r.request.Some? <==> FormComplete(f)
  {
    Submit(p.(report := None), f)
  }

  /** A complete form followed by the endpoint's answer ends in `preview`
      with the endpoint's report, or back in `input`; it never stays in
      `generating`. An incomplete form never leaves the step it was in. */
  lemma SubmitThenResolve(p: Page, f: ReportInputData, response: GenerateRoute.Response)
    ensures FormComplete(f) ==> Resolve(Submit(p, f).page, response).step != Generating
    ensures !FormComplete(f) ==> Submit(p, f).page.step == p.step
    ensures FormComplete(f) && response.Success? ==> Resolve(Submit(p, f).page, response).report == Some(response.data)
  {
  }

  // ---------------------------------------------------------------------------
  // Preview
  // ---------------------------------------------------------------------------

  /** The chips of a career card in the preview: at most three positions,
      then a "+n" chip counting the rest. */
  datatype Chips = Chips(shown: seq<string>, more: Option<nat>)

  function PositionChips(positions: seq<string>): (r: Chips)
    ensures |r.shown| == if |positions| < 3 then |positions| else 3
    ensures r.shown == positions[..|r.shown|]
    ensures r.more.Some? <==> |positions| > 3
    ensures r.more.Some? ==> |r.shown| + r.more.value == |positions|
  {
    var n := |positions|;
    Chips(if n < 3 then positions else positions[..3], if n > 3 then Some(n - 3) else None)
  }
}
