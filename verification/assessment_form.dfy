/** The assessment form: the handlers that edit `AssessmentData` (trait and
    thinking-pattern lists, interest and subject choices) and the
    "still needed" hints under each list. */
module AssessmentForm {
  import opened Wrappers
  import opened ReportTypes
  import opened Text
  import opened SeqEdit

  /** One `handleChange(field, value)` call: the field key with its new value. */
  datatype AssessmentUpdate =
    | SetPersonalityType(personalityType: string)
    | SetPersonalityTraits(traits: PersonalityTraits)
    | SetThinkingPatterns(patterns: seq<string>)
    | SetInterestTendency(interests: seq<string>)
    | SetSubjectStrengths(subjects: seq<string>)

  /** The two trait lists `addItem`/`removeItem` edit. */
  datatype TraitList = Strengths | Weaknesses

  /** The two multiple-choice lists `toggleArrayItem` edits. */
  datatype ChoiceList = InterestTendency | SubjectStrengths

  /** The form data together with the text of the entry box that was submitted:
      an accepted entry clears the box, a rejected one leaves it as typed. */
  datatype Edited = Edited(data: AssessmentData, draft: string)

  function Traits(d: AssessmentData, which: TraitList): seq<string> {
    match which
    case Strengths => d.personalityTraits.strengths
    case Weaknesses => d.personalityTraits.weaknesses
  }

  function Choices(d: AssessmentData, which: ChoiceList): seq<string> {
    match which
    case InterestTendency => d.interestTendency
    case SubjectStrengths => d.subjectStrengths
  }

  /** `{ ...data, [field]: value }`: the named field takes the value, the others keep theirs. */
  function HandleChange(d: AssessmentData, u: AssessmentUpdate): (r: AssessmentData)
    ensures r.personalityType == (if u.SetPersonalityType? then u.personalityType else d.personalityType)
    ensures r.personalityTraits == (if u.SetPersonalityTraits? then u.traits else d.personalityTraits)
    ensures r.thinkingPatterns == (if u.SetThinkingPatterns? then u.patterns else d.thinkingPatterns)
    ensures r.interestTendency == (if u.SetInterestTendency? then u.interests else d.interestTendency)
    ensures r.subjectStrengths == (if u.SetSubjectStrengths? then u.subjects else d.subjectStrengths)
  {
    match u
    case SetPersonalityType(v) => d.(personalityType := v)
    case SetPersonalityTraits(v) => d.(personalityTraits := v)
    case SetThinkingPatterns(v) => d.(thinkingPatterns := v)
    case SetInterestTendency(v) => d.(interestTendency := v)
    case SetSubjectStrengths(v) => d.(subjectStrengths := v)
  }

  function WithTraits(t: PersonalityTraits, which: TraitList, items: seq<string>): PersonalityTraits {
    match which
    case Strengths => t.(strengths := items)
    case Weaknesses => t.(weaknesses := items)
  }

  /** `addItem(field, value, clear)`: a blank entry changes nothing; otherwise
      the trimmed entry goes to the end of the chosen trait list and the entry
      box is cleared. */
  function AddItem(d: AssessmentData, which: TraitList, value: string): (r: Edited)
    ensures IsBlank(value) ==> r == Edited(d, value)
    ensures !IsBlank(value) ==> Traits(r.data, which) == Traits(d, which) + [Trim(value)] && r.draft == ""
    ensures !IsBlank(value) ==> Trim(value) != "" && Traits(r.data, which)[|Traits(d, which)|] == Trim(value)
    ensures Traits(r.data, OtherTrait(which)) == Traits(d, OtherTrait(which))
    ensures r.data.(personalityTraits := d.personalityTraits) == d
  {
    if IsBlank(value) then Edited(d, value)
    else
      var traits := WithTraits(d.personalityTraits, which, Traits(d, which) + [Trim(value)]);
      Edited(HandleChange(d, SetPersonalityTraits(traits)), "")
  }

  function OtherTrait(which: TraitList): TraitList {
    match which
    case Strengths => Weaknesses
    case Weaknesses => Strengths
  }

  /** `removeItem(field, index)`: the chosen trait list loses exactly the
      element at `index` (none when out of range); nothing else changes. */
  function RemoveItem(d: AssessmentData, which: TraitList, index: int): (r: AssessmentData)
    ensures 0 <= index < |Traits(d, which)| ==> Traits(r, which) == Traits(d, which)[..index] + Traits(d, which)[index + 1..]
    ensures !(0 <= index < |Traits(d, which)|) ==> r == d
    ensures Traits(r, OtherTrait(which)) == Traits(d, OtherTrait(which))
    ensures r.(personalityTraits := d.personalityTraits) == d
  {
    WithoutIndexSlices(Traits(d, which), index);
    HandleChange(d, SetPersonalityTraits(WithTraits(d.personalityTraits, which, WithoutIndex(Traits(d, which), index))))
  }

  /** `addPattern()`: like `addItem` for the thinking patterns; duplicates are accepted. */
  function AddPattern(d: AssessmentData, value: string): (r: Edited)
    ensures IsBlank(value) ==> r == Edited(d, value)
    ensures !IsBlank(value) ==> r.data.thinkingPatterns == d.thinkingPatterns + [Trim(value)] && r.draft == ""
    ensures r.data.(thinkingPatterns := d.thinkingPatterns) == d
  {
    if IsBlank(value) then Edited(d, value)
    else Edited(HandleChange(d, SetThinkingPatterns(d.thinkingPatterns + [Trim(value)])), "")
  }

  /** Removing the last entry right after adding one restores the data; a
      blank entry added nothing and the removal index is then out of range. */
  lemma AddItemThenRemove(d: AssessmentData, which: TraitList, value: string)
    ensures RemoveItem(AddItem(d, which, value).data, which, |Traits(d, which)|) == d
  {
    if !IsBlank(value) {
      var s := Traits(d, which);
      var t := s + [Trim(value)];
      assert t[..|s|] + t[|s| + 1..] == s;
    }
  }

  /** `removePattern(index)`: drops exactly the pattern at `index`. */
  function RemovePattern(d: AssessmentData, index: int): (r: AssessmentData)
    ensures 0 <= index < |d.thinkingPatterns| ==> r.thinkingPatterns == d.thinkingPatterns[..index] + d.thinkingPatterns[index + 1..]
    ensures !(0 <= index < |d.thinkingPatterns|) ==> r == d
    ensures r.(thinkingPatterns := d.thinkingPatterns) == d
  {
    WithoutIndexSlices(d.thinkingPatterns, index);
    HandleChange(d, SetThinkingPatterns(WithoutIndex(d.thinkingPatterns, index)))
  }

  /** Removing the last pattern right after adding one restores the data. */
  lemma AddPatternThenRemove(d: AssessmentData, value: string)
    ensures RemovePattern(AddPattern(d, value).data, |d.thinkingPatterns|) == d
  {
    if !IsBlank(value) {
      var s := d.thinkingPatterns;
      var t := s + [Trim(value)];
      assert t[..|s|] + t[|s| + 1..] == s;
    }
  }

  /** `toggleArrayItem(field, item)`: a chosen item is removed (every copy),
      an unchosen one is appended; the other list and fields are unchanged. */
  function ToggleArrayItem(d: AssessmentData, which: ChoiceList, item: string): (r: AssessmentData)
    ensures item in Choices(r, which) <==> item !in Choices(d, which)
    ensures item !in Choices(d, which) ==> Choices(r, which) == Choices(d, which) + [item]
    ensures item in Choices(d, which) ==> Choices(r, which) == RemoveAll(Choices(d, which), item)
    ensures item in Choices(d, which) ==> IsSubsequence(Choices(r, which), Choices(d, which))
    ensures multiset(Choices(r, which))[item := 0] == multiset(Choices(d, which))[item := 0]
    ensures Choices(r, OtherChoice(which)) == Choices(d, OtherChoice(which))
    ensures r.personalityType == d.personalityType && r.personalityTraits == d.personalityTraits
    ensures r.thinkingPatterns == d.thinkingPatterns
  {
    var toggled := Toggle(Choices(d, which), item);
    match which
    case InterestTendency => HandleChange(d, SetInterestTendency(toggled))
    case SubjectStrengths => HandleChange(d, SetSubjectStrengths(toggled))
  }

  function OtherChoice(which: ChoiceList): ChoiceList {
    match which
    case InterestTendency => SubjectStrengths
    case SubjectStrengths => InterestTendency
  }

  /** Choosing an unchosen option and then un-choosing it restores the data. */
  lemma ToggleArrayItemTwice(d: AssessmentData, which: ChoiceList, item: string)
    requires item !in Choices(d, which)
    ensures ToggleArrayItem(ToggleArrayItem(d, which, item), which, item) == d
  {
    ToggleAbsentTwice(Choices(d, which), item);
  }

  /** Choices made only through the toggle never hold an option twice. */
  lemma ToggleArrayItemKeepsNoDuplicates(d: AssessmentData, which: ChoiceList, item: string)
    requires NoDuplicates(Choices(d, which))
    ensures NoDuplicates(Choices(ToggleArrayItem(d, which, item), which))
  {
    ToggleKeepsNoDuplicates(Choices(d, which), item);
  }

  const TraitMinimum := 3
  const SubjectMinimum := 2

  /** The "still need N" hint under a list with `count` entries and a required
      `minimum`: shown, with the number missing, only while the list is short. */
  function RemainingHint(count: nat, minimum: nat): (r: Option<nat>)
    ensures r.Some? <==> count < minimum
    ensures r.Some? ==> count + r.value == minimum && r.value > 0
  {
    if count < minimum then Some(minimum - count) else None
  }

  /** The four hints of the form: strengths, weaknesses, thinking patterns
      (three each) and subjects (two). */
  function Hints(d: AssessmentData): (r: seq<Option<nat>>)
    ensures |r| == 4
    ensures r[0].Some? <==> |d.personalityTraits.strengths| < TraitMinimum
    ensures r[1].Some? <==> |d.personalityTraits.weaknesses| < TraitMinimum
    ensures r[2].Some? <==> |d.thinkingPatterns| < TraitMinimum
    ensures r[3].Some? <==> |d.subjectStrengths| < SubjectMinimum
    ensures r[0].Some? ==> r[0].value == TraitMinimum - |d.personalityTraits.strengths|
    ensures r[1].Some? ==> r[1].value == TraitMinimum - |d.personalityTraits.weaknesses|
    ensures r[2].Some? ==> r[2].value == TraitMinimum - |d.thinkingPatterns|
    ensures r[3].Some? ==> r[3].value == SubjectMinimum - |d.subjectStrengths|
  {
    [ RemainingHint(|d.personalityTraits.strengths|, TraitMinimum),
      RemainingHint(|d.personalityTraits.weaknesses|, TraitMinimum),
      RemainingHint(|d.thinkingPatterns|, TraitMinimum),
      RemainingHint(|d.subjectStrengths|, SubjectMinimum) ]
  }
}
