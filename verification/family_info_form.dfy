/** The family-information form: field setters, the three family demands and
    the family-resource list (preset toggles plus free-text additions). */
module FamilyInfoForm {
  import opened ReportTypes
  import opened Text
  import opened SeqEdit

  /** One `handleChange(field, value)` call. */
  datatype FamilyUpdate =
    | SetStructure(structure: string)
    | SetParentOccupation(occupation: string)
    | SetBudget(budget: string)
    | SetResources(resources: seq<string>)
    | SetDemands(demands: Demands)

  /** The keys of `demands`. */
  datatype DemandField = EducationGoal | CareerExpectation | LocationPreference

  /** The family data and the text of the custom-resource entry box. */
  datatype Edited = Edited(data: FamilyInfo, draft: string)

  function Demand(d: Demands, f: DemandField): string {
    match f
    case EducationGoal => d.educationGoal
    case CareerExpectation => d.careerExpectation
    case LocationPreference => d.locationPreference
  }

  /** `{ ...data, [field]: value }`. */
  function HandleChange(d: FamilyInfo, u: FamilyUpdate): (r: FamilyInfo)
    ensures r.structure == (if u.SetStructure? then u.structure else d.structure)
    ensures r.parentOccupation == (if u.SetParentOccupation? then u.occupation else d.parentOccupation)
    ensures r.budget == (if u.SetBudget? then u.budget else d.budget)
    ensures r.resources == (if u.SetResources? then u.resources else d.resources)
    ensures r.demands == (if u.SetDemands? then u.demands else d.demands)
  {
    match u
    case SetStructure(v) => d.(structure := v)
    case SetParentOccupation(v) => d.(parentOccupation := v)
    case SetBudget(v) => d.(budget := v)
    case SetResources(v) => d.(resources := v)
    case SetDemands(v) => d.(demands := v)
  }

  /** `handleDemandChange(field, value)`: only the named demand changes. */
  function HandleDemandChange(d: FamilyInfo, f: DemandField, value: string): (r: FamilyInfo)
    ensures forall g: DemandField :: Demand(r.demands, g) == (if g == f then value else Demand(d.demands, g))
    ensures r.(demands := d.demands) == d
  {
    var demands :=
      match f
      case EducationGoal => d.demands.(educationGoal := value)
      case CareerExpectation => d.demands.(careerExpectation := value)
      case LocationPreference => d.demands.(locationPreference := value);
    d.(demands := demands)
  }

  /** `toggleResource(resource)`: a listed resource is removed (every copy), an
      unlisted one appended; nothing but the resource list changes. */
  function ToggleResource(d: FamilyInfo, resource: string): (r: FamilyInfo)
    ensures resource in r.resources <==> resource !in d.resources
    ensures resource !in d.resources ==> r.resources == d.resources + [resource]
    ensures resource in d.resources ==> r.resources == RemoveAll(d.resources, resource)
    ensures resource in d.resources ==> IsSubsequence(r.resources, d.resources)
    ensures multiset(r.resources)[resource := 0] == multiset(d.resources)[resource := 0]
    ensures r.(resources := d.resources) == d
  {
    HandleChange(d, SetResources(Toggle(d.resources, resource)))
  }

  /** `addCustomResource()`: a blank entry, or one whose trimmed text is
      already listed, changes nothing; otherwise the trimmed text is appended
      and the entry box cleared. */
  function AddCustomResource(d: FamilyInfo, draft: string): (r: Edited)
    ensures IsBlank(draft) || Trim(draft) in d.resources ==> r == Edited(d, draft)
    ensures !IsBlank(draft) && Trim(draft) !in d.resources ==>
      r.data.resources == d.resources + [Trim(draft)] && r.draft == ""
    ensures r.data.(resources := d.resources) == d
  {
    var value := Trim(draft);
    if value == "" || value in d.resources then Edited(d, draft)
    else Edited(HandleChange(d, SetResources(d.resources + [value])), "")
  }

  /** Both resource operations keep the resource list free of duplicates. */
  lemma ResourcesStayDistinct(d: FamilyInfo, resource: string, draft: string)
    requires NoDuplicates(d.resources)
    ensures NoDuplicates(ToggleResource(d, resource).resources)
    ensures NoDuplicates(AddCustomResource(d, draft).data.resources)
  {
    ToggleKeepsNoDuplicates(d.resources, resource);
    if !IsBlank(draft) && Trim(draft) !in d.resources {
      AppendAbsentKeepsNoDuplicates(d.resources, Trim(draft));
    }
  }

  /** Selecting an unlisted preset resource and deselecting it restores the data. */
  lemma ToggleResourceTwice(d: FamilyInfo, resource: string)
    requires resource !in d.resources
    ensures ToggleResource(ToggleResource(d, resource), resource) == d
  {
    ToggleAbsentTwice(d.resources, resource);
  }
}
