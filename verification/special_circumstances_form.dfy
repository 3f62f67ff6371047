/** The special-circumstances form: three yes/no flags, each revealing a
    free-text detail box while it is set. */
module SpecialCircumstancesForm {
  import opened Wrappers
  import opened ReportTypes

  datatype Flag = AcademicIssues | SpecialPlanning | LacksResources

  /** The keys of `SpecialCircumstances`: a flag or the detail belonging to a flag. */
  datatype Key = FlagKey(flag: Flag) | DetailKey(of: Flag)

  function FlagValue(d: SpecialCircumstances, f: Flag): bool {
    match f
    case AcademicIssues => d.hasAcademicIssues
    case SpecialPlanning => d.hasSpecialPlanning
    case LacksResources => d.lacksResources
  }

  function Detail(d: SpecialCircumstances, f: Flag): Option<string> {
    match f
    case AcademicIssues => d.academicIssuesDetail
    case SpecialPlanning => d.specialPlanningDetail
    case LacksResources => d.lacksResourcesDetail
  }

  /** `handleToggle(field)`: a flag key negates that flag; a detail key (not a
      boolean) leaves the data as it is. Details are never touched. */
  function HandleToggle(d: SpecialCircumstances, k: Key): (r: SpecialCircumstances)
    ensures forall f: Flag :: FlagValue(r, f) == (if k == FlagKey(f) then !FlagValue(d, f) else FlagValue(d, f))
    ensures forall f: Flag :: Detail(r, f) == Detail(d, f)
  {
    match k
    case DetailKey(_) => d
    case FlagKey(AcademicIssues) => d.(hasAcademicIssues := !d.hasAcademicIssues)
    case FlagKey(SpecialPlanning) => d.(hasSpecialPlanning := !d.hasSpecialPlanning)
    case FlagKey(LacksResources) => d.(lacksResources := !d.lacksResources)
  }

  /** Toggling the same key twice is the identity. */
  lemma HandleToggleTwice(d: SpecialCircumstances, k: Key)
    ensures HandleToggle(HandleToggle(d, k), k) == d
  {
  }

  /** `handleDetailChange(field, value)`: only the named detail changes. */
  function HandleDetailChange(d: SpecialCircumstances, f: Flag, value: string): (r: SpecialCircumstances)
    ensures forall g: Flag :: Detail(r, g) == (if g == f then Some(value) else Detail(d, g))
    ensures forall g: Flag :: FlagValue(r, g) == FlagValue(d, g)
  {
    match f
    case AcademicIssues => d.(academicIssuesDetail := Some(value))
    case SpecialPlanning => d.(specialPlanningDetail := Some(value))
    case LacksResources => d.(lacksResourcesDetail := Some(value))
  }

  /** The detail box of a flag as rendered: present only while the flag is
      set, showing the stored text or an empty box (`detail || ''`). */
  function DetailBox(d: SpecialCircumstances, f: Flag): (r: Option<string>)
    ensures r.Some? <==> FlagValue(d, f)
    ensures r.Some? && Detail(d, f).Some? ==> r.value == Detail(d, f).value
    ensures r.Some? && Detail(d, f).None? ==> r.value == ""
  {
    if FlagValue(d, f) then Some(Detail(d, f).GetOr("")) else None
  }

  /** Turning a flag off hides its box but keeps the text: turning it back on
      shows the same text again. */
  lemma FlagOffKeepsDetail(d: SpecialCircumstances, f: Flag)
    requires FlagValue(d, f)
    ensures DetailBox(HandleToggle(d, FlagKey(f)), f) == None
    ensures Detail(HandleToggle(d, FlagKey(f)), f) == Detail(d, f)
    ensures DetailBox(HandleToggle(HandleToggle(d, FlagKey(f)), FlagKey(f)), f) == DetailBox(d, f)
  {
  }
}
