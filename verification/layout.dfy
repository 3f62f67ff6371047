/** The report document shared by the two renderers (the HTML string behind
    the PDF export and the on-screen template): ten pages of abstract blocks,
    and the layout rules both apply in the same way — star ratings, the
    consultant's contact line, optional project fields, numbered lists and
    the grouping of projects by category. Styling is not part of the model. */
module Layout {
  import opened Wrappers
  import opened ReportTypes
  import opened SeqEdit

  // ---------------------------------------------------------------------------
  // Document
  // ---------------------------------------------------------------------------

  /** What a page shows, in order. */
  datatype Block =
    | Heading(text: string)
    | Line(text: string)
    | Field(caption: string, value: string)                 // a caption with its value
    | Item(number: nat, parts: seq<string>, spaced: bool)  // a numbered card; `spaced` is a bottom margin
    | Row(cells: seq<seq<string>>)                         // a table row, each cell a list of lines
    | Tags(items: seq<string>)
    | Group(title: string, members: seq<Block>)            // a titled box of cards

  datatype PageKind =
    | Cover | Institution | AssessmentResults | CareerAndFamily | Planning
    | ProjectTable | ProjectDetails | Timeline | SupplyChain | Summary

  /** A page and its page-number label, if it has one. */
  datatype Page = Page(kind: PageKind, number: Option<nat>, blocks: seq<Block>)

  /** The fixed order of the ten pages. */
  const PageOrder: seq<PageKind> := [
    Cover, Institution, AssessmentResults, CareerAndFamily, Planning,
    ProjectTable, ProjectDetails, Timeline, SupplyChain, Summary]

  /** The document has the ten pages in order; the cover carries no page
      number and every other page is labelled with its position, 2 to 10. */
  predicate WellPaginated(pages: seq<Page>) {
    && |pages| == |PageOrder|
    && (forall i :: 0 <= i < |pages| ==> pages[i].kind == PageOrder[i])
    && pages[0].number.None?
    && (forall i :: 1 <= i < |pages| ==> pages[i].number == Some(i + 1))
  }

  /** The ten pages in document order, each of the kind and with the page
      number its position calls for. */
  function Document(p0: Page, p1: Page, p2: Page, p3: Page, p4: Page, p5: Page, p6: Page, p7: Page, p8: Page, p9: Page): (r: seq<Page>)
    requires p0.kind == Cover && p0.number.None?
    requires p1.kind == Institution && p1.number == Some(2)
    requires p2.kind == AssessmentResults && p2.number == Some(3)
    requires p3.kind == CareerAndFamily && p3.number == Some(4)
    requires p4.kind == Planning && p4.number == Some(5)
    requires p5.kind == ProjectTable && p5.number == Some(6)
    requires p6.kind == ProjectDetails && p6.number == Some(7)
    requires p7.kind == Timeline && p7.number == Some(8)
    requires p8.kind == SupplyChain && p8.number == Some(9)
    requires p9.kind == Summary && p9.number == Some(10)
    ensures WellPaginated(r)
    ensures r[0] == p0 && r[5] == p5 && r[6] == p6 && r[8] == p8
  {
    [p0, p1, p2, p3, p4, p5, p6, p7, p8, p9]
  }

  // ---------------------------------------------------------------------------
  // Star ratings
  // ---------------------------------------------------------------------------

  function Digit(d: nat): char
    requires d < 10
  {
    "0123456789"[d]
  }

  function NatText(n: nat): string
    decreases n
  {
    if n < 10 then [Digit(n)] else NatText(n / 10) + [Digit(n % 10)]
  }

  /** An integer in decimal, with a leading '-' when negative. */
  function IntText(n: int): string {
    if n < 0 then "-" + NatText(-n) else NatText(n)
  }

  /** The RangeError message of `repeat` with a negative count. */
  function InvalidCount(n: int): string {
    "Invalid count value: " + IntText(n)
  }

  /** The longest string the V8 engine builds on a 64-bit platform, in
      UTF-16 code units (2^29 - 24). */
  const MaxStringLength := 0x1FFF_FFE8

  /** The RangeError message of a string that would be longer than that. */
  const InvalidLength := "Invalid string length"

  /** `String.prototype.repeat` on a one-code-unit string with an integer
      count: a negative count throws, and so does a count whose result would
      exceed the engine's string length. */
  function Repeat(c: char, n: int): (r: Result<string>)
    ensures r.Ok? <==> 0 <= n <= MaxStringLength
    ensures r.Ok? ==> |r.value| == n && forall i :: 0 <= i < n ==> r.value[i] == c
    ensures n < 0 ==> r == Err(InvalidCount(n))
    ensures n > MaxStringLength ==> r == Err(InvalidLength)
  {
    if n < 0 then Err(InvalidCount(n))
    else if n > MaxStringLength then Err(InvalidLength)
    else Ok(seq(n, _ => c))
  }

  const FilledStar := '★'
  const EmptyStar := '☆'
  const MaxStars := 5

  /** The rating cell: `recommendIndex` filled stars, then empty ones up to
      five. It can only be drawn for a rating from 0 to 5: a negative rating
      fails on the filled stars, one above 5 on the empty ones, unless it is
      so large that the filled stars already exceed the string length. */
  function StarCell(k: int): (r: Result<string>)
    ensures r.Ok? <==> 0 <= k <= MaxStars
    ensures r.Ok? ==> |r.value| == MaxStars
    ensures r.Ok? ==> forall i :: 0 <= i < MaxStars ==> r.value[i] == if i < k then FilledStar else EmptyStar
    ensures k < 0 ==> r == Err(InvalidCount(k))
    ensures MaxStars < k <= MaxStringLength ==> r == Err(InvalidCount(MaxStars - k))
    ensures k > MaxStringLength ==> r == Err(InvalidLength)
  {
    var filled :- Repeat(FilledStar, k);
    var empty :- Repeat(EmptyStar, MaxStars - k);
    Ok(filled + empty)
  }

  /** How many times `c` occurs in `s`. */
  function Occurrences(c: char, s: string): nat {
    if |s| == 0 then 0 else (if s[0] == c then 1 else 0) + Occurrences(c, s[1..])
  }

  lemma {:induction false} OccurrencesAppend(c: char, a: string, b: string)
    ensures Occurrences(c, a + b) == Occurrences(c, a) + Occurrences(c, b)
    decreases |a|
  {
    if |a| > 0 {
      assert (a + b)[0] == a[0] && (a + b)[1..] == a[1..] + b;
      OccurrencesAppend(c, a[1..], b);
    } else {
      assert a + b == b;
    }
  }

  /** In a string made of one glyph only, that glyph occurs |s| times and
      any other glyph never. */
  lemma {:induction false} OccurrencesUniform(c: char, d: char, s: string)
    requires forall i :: 0 <= i < |s| ==> s[i] == d
    ensures Occurrences(c, s) == if c == d then |s| else 0
    decreases |s|
  {
    if |s| > 0 {
      OccurrencesUniform(c, d, s[1..]);
    }
  }

  /** Reading a drawn cell back: counting its filled stars gives the rating,
      counting its empty stars gives the rest of five. */
  lemma StarCellCountsRating(k: int)
    requires 0 <= k <= MaxStars
    ensures Occurrences(FilledStar, StarCell(k).value) == k
    ensures Occurrences(EmptyStar, StarCell(k).value) == MaxStars - k
  {
    var s := StarCell(k).value;
    assert s == s[..k] + s[k..];
    OccurrencesAppend(FilledStar, s[..k], s[k..]);
    OccurrencesAppend(EmptyStar, s[..k], s[k..]);
    OccurrencesUniform(FilledStar, FilledStar, s[..k]);
    OccurrencesUniform(EmptyStar, FilledStar, s[..k]);
    OccurrencesUniform(FilledStar, EmptyStar, s[k..]);
    OccurrencesUniform(EmptyStar, EmptyStar, s[k..]);
  }

  // ---------------------------------------------------------------------------
  // Consultant contact
  // ---------------------------------------------------------------------------

  const ContactCaption := "电话/微信："

  /** ` / wechat`, shown only when the wechat is filled in and is not just
      the phone number again. */
  function WechatSuffix(c: ConsultantInfo): (r: string)
    ensures r != "" <==> c.wechat != "" && c.wechat != c.phone
    ensures r != "" ==> r == " / " + c.wechat
  {
    if c.wechat != "" && c.wechat != c.phone then " / " + c.wechat else ""
  }

  /** The cover's contact line: the phone, then the wechat suffix. */
  function ContactLine(c: ConsultantInfo): (r: string)
    ensures |r| >= |ContactCaption| + |c.phone| && r[..|ContactCaption| + |c.phone|] == ContactCaption + c.phone
    ensures |r| == |ContactCaption| + |c.phone| <==> c.wechat == "" || c.wechat == c.phone
  {
    ContactCaption + c.phone + WechatSuffix(c)
  }

  // ---------------------------------------------------------------------------
  // Optional project fields
  // ---------------------------------------------------------------------------

  const PrincipleLabel := "项目原理"
  const RequirementsLabel := "录取要求"
  const TimelineLabel := "时间节点"
  const ProcessLabel := "申请流程"

  /** An optional field is emitted only when it is present and not empty. */
  function OptionalField(name: string, v: Option<string>): (r: seq<Block>)
    ensures |r| <= 1
    ensures |r| == 1 <==> v.Some? && v.value != ""
    ensures |r| == 1 ==> r[0] == Field(name, v.value)
  {
    if v.Some? && v.value != "" then [Field(name, v.value)] else []
  }

  function Filled(v: Option<string>): nat {
    if v.Some? && v.value != "" then 1 else 0
  }

  predicate Shows(blocks: seq<Block>, name: string, value: string) {
    Field(name, value) in blocks
  }

  /** The fields of a project card: principle, requirements, timeline and
      process, each shown exactly when it holds a non-empty text. */
  function DetailFields(p: EducationProject): (r: seq<Block>)
    ensures |r| == Filled(p.principle) + Filled(p.requirements) + Filled(p.timeline) + Filled(p.process)
    ensures forall x :: Shows(r, PrincipleLabel, x) <==> p.principle == Some(x) && x != ""
    ensures forall x :: Shows(r, RequirementsLabel, x) <==> p.requirements == Some(x) && x != ""
    ensures forall x :: Shows(r, TimelineLabel, x) <==> p.timeline == Some(x) && x != ""
    ensures forall x :: Shows(r, ProcessLabel, x) <==> p.process == Some(x) && x != ""
  {
    OptionalField(PrincipleLabel, p.principle)
    + OptionalField(RequirementsLabel, p.requirements)
    + OptionalField(TimelineLabel, p.timeline)
    + OptionalField(ProcessLabel, p.process)
  }

  // ---------------------------------------------------------------------------
  // Numbered lists
  // ---------------------------------------------------------------------------

  /** Cards numbered from `first` on, in list order. */
  function NumberedFrom(first: nat, parts: seq<seq<string>>): (r: seq<Block>)
    ensures |r| == |parts|
    ensures forall i :: 0 <= i < |r| ==> r[i] == Item(first + i, parts[i], false)
    decreases |parts|
  {
    if |parts| == 0 then [] else [Item(first, parts[0], false)] + NumberedFrom(first + 1, parts[1..])
  }

  /** A list shown as cards numbered 1, 2, ... in array order. */
  function Numbered(parts: seq<seq<string>>): (r: seq<Block>)
    ensures |r| == |parts|
    ensures forall i :: 0 <= i < |r| ==> r[i].Item? && r[i].parts == parts[i] && r[i].number == i + 1
  {
    NumberedFrom(1, parts)
  }

  /** The numbers run 1..n without gaps or repeats, so the last card carries
      the length of the list. */
  lemma NumbersAscend(parts: seq<seq<string>>, i: int, j: int)
    requires 0 <= i < j < |parts|
    ensures Numbered(parts)[i].number < Numbered(parts)[j].number
    ensures Numbered(parts)[|parts| - 1].number == |parts|
    ensures Numbered(parts)[0].number == 1
  {
  }

  function Singletons(xs: seq<string>): (r: seq<seq<string>>)
    ensures |r| == |xs| && forall i :: 0 <= i < |xs| ==> r[i] == [xs[i]]
  {
    seq(|xs|, i requires 0 <= i < |xs| => [xs[i]])
  }

  /** The family-cooperation list: numbered cards, each but the last followed
      by a bottom margin. */
  function CooperationItems(advice: seq<string>): (r: seq<Block>)
    ensures |r| == |advice|
    ensures forall i :: 0 <= i < |r| ==> r[i] == Item(i + 1, [advice[i]], i < |advice| - 1)
  {
    var items := Numbered(Singletons(advice));
    seq(|items|, i requires 0 <= i < |items| => items[i].(spaced := i < |items| - 1))
  }

  /** How many cards carry a bottom margin. */
  function SpacedCount(bs: seq<Block>): nat {
    if |bs| == 0 then 0 else (if bs[0].Item? && bs[0].spaced then 1 else 0) + SpacedCount(bs[1..])
  }

  /** Exactly one card, the last, goes without the margin. */
  lemma {:induction false} OnlyLastUnspaced(advice: seq<string>)
    requires |advice| > 0
    ensures SpacedCount(CooperationItems(advice)) == |advice| - 1
    ensures !CooperationItems(advice)[|advice| - 1].spaced
  {
    var r := CooperationItems(advice);
    SpacedPrefix(r, |r| - 1);
    assert r == r[..|r| - 1] + [r[|r| - 1]];
    SpacedCountAppend(r[..|r| - 1], [r[|r| - 1]]);
  }

  lemma {:induction false} SpacedPrefix(bs: seq<Block>, n: nat)
    requires n <= |bs|
    requires forall i :: 0 <= i < n ==> bs[i].Item? && bs[i].spaced
    ensures SpacedCount(bs[..n]) == n
    decreases n
  {
    if n > 0 {
      assert bs[..n][1..] == bs[1..][..n - 1];
      SpacedPrefix(bs[1..], n - 1);
    }
  }

  lemma {:induction false} SpacedCountAppend(a: seq<Block>, b: seq<Block>)
    ensures SpacedCount(a + b) == SpacedCount(a) + SpacedCount(b)
    decreases |a|
  {
    if |a| > 0 {
      assert (a + b)[0] == a[0] && (a + b)[1..] == a[1..] + b;
      SpacedCountAppend(a[1..], b);
    } else {
      assert a + b == b;
    }
  }

  // ---------------------------------------------------------------------------
  // Grouping by category
  // ---------------------------------------------------------------------------

  /** `items.filter(p => p.category === name)`: the items of one category,
      in their original order. */
  function Bucket<T(==,!new)>(xs: seq<T>, category: T -> string, name: string): (r: seq<T>)
    ensures IsSubsequence(r, xs)
    ensures forall i :: 0 <= i < |r| ==> category(r[i]) == name
    decreases |xs|
  {
    if |xs| == 0 then []
    else
      var rest := Bucket(xs[1..], category, name);
      if category(xs[0]) == name then
        assert ([xs[0]] + rest)[1..] == rest;
        [xs[0]] + rest
      else
        SubsequenceOfTail(rest, xs);
        rest
  }

  /** The bucket holds each item of its category as often as the list does,
      and nothing else. */
  lemma {:induction false} BucketCounts<T(!new)>(xs: seq<T>, category: T -> string, name: string)
    ensures forall x :: multiset(Bucket(xs, category, name))[x] == if category(x) == name then multiset(xs)[x] else 0
    decreases |xs|
  {
    if |xs| > 0 {
      BucketCounts(xs[1..], category, name);
      assert xs == [xs[0]] + xs[1..];
    }
  }

  predicate HasCategory<T(==,!new)>(xs: seq<T>, category: T -> string, name: string) {
    exists x :: x in xs && category(x) == name
  }

  /** A bucket is empty exactly when no item has that category. */
  lemma BucketEmptyIff<T(!new)>(xs: seq<T>, category: T -> string, name: string)
    ensures |Bucket(xs, category, name)| > 0 <==> HasCategory(xs, category, name)
  {
    var b := Bucket(xs, category, name);
    BucketCounts(xs, category, name);
    if |b| > 0 {
      assert multiset(b)[b[0]] > 0;
    }
    if HasCategory(xs, category, name) {
      var x :| x in xs && category(x) == name;
      assert multiset(xs)[x] > 0;
      assert x in multiset(b);
    }
  }

  /** The buckets of several labels, one after another. */
  function AllBuckets<T(==,!new)>(xs: seq<T>, category: T -> string, labels: seq<string>): seq<T> {
    if |labels| == 0 then [] else Bucket(xs, category, labels[0]) + AllBuckets(xs, category, labels[1..])
  }

  /** Grouping over distinct labels neither loses nor duplicates anything:
      an item with one of the labels lands in the groups exactly as often as
      it is in the list, and an item with any other category in none. */
  lemma {:induction false} BucketsPartition<T(!new)>(xs: seq<T>, category: T -> string, labels: seq<string>)
    requires NoDuplicates(labels)
    ensures forall x :: multiset(AllBuckets(xs, category, labels))[x] == if category(x) in labels then multiset(xs)[x] else 0
    decreases |labels|
  {
    if |labels| > 0 {
      assert NoDuplicates(labels[1..]) by {
        forall i, j | 0 <= i < j < |labels[1..]| ensures labels[1..][i] != labels[1..][j] {
          assert labels[1..][i] == labels[i + 1] && labels[1..][j] == labels[j + 1];
        }
      }
      BucketsPartition(xs, category, labels[1..]);
      BucketCounts(xs, category, labels[0]);
      forall x ensures multiset(AllBuckets(xs, category, labels))[x] == if category(x) in labels then multiset(xs)[x] else 0 {
        if category(x) == labels[0] {
          assert category(x) !in labels[1..] by {
            forall j | 0 <= j < |labels[1..]| ensures labels[1..][j] != labels[0] {
              assert labels[1..][j] == labels[j + 1];
            }
          }
        }
        assert labels == [labels[0]] + labels[1..];
      }
    }
  }

  /** One card per item, in list order. */
  function Cards<T>(xs: seq<T>, card: T -> Block): (r: seq<Block>)
    ensures |r| == |xs| && forall i :: 0 <= i < |xs| ==> r[i] == card(xs[i])
  {
    seq(|xs|, i requires 0 <= i < |xs| => card(xs[i]))
  }

  lemma CardsAppend<T>(a: seq<T>, b: seq<T>, card: T -> Block)
    ensures Cards(a + b, card) == Cards(a, card) + Cards(b, card)
  {
  }

  /** The cards of a row of boxes, box after box. */
  function Members(bs: seq<Block>): seq<Block> {
    if |bs| == 0 then [] else (if bs[0].Group? then bs[0].members else []) + Members(bs[1..])
  }

  /** Boxes that each hold the cards of one label's bucket hold, together,
      the cards of all those buckets in label order. */
  lemma {:induction false} MembersOfBoxes<T(!new)>(xs: seq<T>, category: T -> string, card: T -> Block,
                                                   labels: seq<string>, bs: seq<Block>)
    requires |bs| == |labels|
    requires forall i :: 0 <= i < |bs| ==> bs[i].Group? && bs[i].members == Cards(Bucket(xs, category, labels[i]), card)
    ensures Members(bs) == Cards(AllBuckets(xs, category, labels), card)
    decreases |bs|
  {
    if |bs| > 0 {
      MembersOfBoxes(xs, category, card, labels[1..], bs[1..]);
      CardsAppend(Bucket(xs, category, labels[0]), AllBuckets(xs, category, labels[1..]), card);
    }
  }

  // ---------------------------------------------------------------------------
  // Education project details
  // ---------------------------------------------------------------------------

  const EduLabels: seq<string> :=
    [EduCategoryLabel(Admission), EduCategoryLabel(BackgroundBoost), EduCategoryLabel(Fallback)]

  function EduCategoryOf(p: EducationProject): string { p.category }

  /** A project's card: its name over its optional fields. */
  function ProjectCard(p: EducationProject): Block {
    Group(p.name, DetailFields(p))
  }

  function ProjectCards(ps: seq<EducationProject>): (r: seq<Block>)
    ensures |r| == |ps| && forall i :: 0 <= i < |ps| ==> r[i] == ProjectCard(ps[i])
  {
    Cards(ps, ProjectCard)
  }

  /** The labels among `labels` that some project carries, in label order. */
  function ShownCategories(ps: seq<EducationProject>, labels: seq<string>): (r: seq<string>)
    ensures forall l :: l in r <==> l in labels && HasCategory(ps, EduCategoryOf, l)
    ensures IsSubsequence(r, labels)
    decreases |labels|
  {
    if |labels| == 0 then []
    else
      var rest := ShownCategories(ps, labels[1..]);
      if HasCategory(ps, EduCategoryOf, labels[0]) then
        assert ([labels[0]] + rest)[1..] == rest;
        [labels[0]] + rest
      else
        SubsequenceOfTail(rest, labels);
        rest
  }

  /** The category boxes of the project-details page: for 升学类, 背景提升类 and
      兜底类 in this order, a box with the category's projects in list order,
      skipped when the category has none. A project with any other category
      is in no box. */
  function EducationBlocks(ps: seq<EducationProject>): (r: seq<Block>)
    ensures |r| <= |EduLabels|
    ensures Titles(r) == ShownCategories(ps, EduLabels)
    ensures IsSubsequence(Titles(r), EduLabels)
    ensures forall l :: l in EduLabels ==> (l in Titles(r) <==> HasCategory(ps, EduCategoryOf, l))
    ensures forall i :: 0 <= i < |r| ==>
      && r[i].Group?
      && r[i].members == ProjectCards(Bucket(ps, EduCategoryOf, r[i].title))
      && r[i].members != []
  {
    var shown := ShownCategories(ps, EduLabels);
    SubsequenceNoLonger(shown, EduLabels);
    var r := seq(|shown|, i requires 0 <= i < |shown| =>
      Group(shown[i], ProjectCards(Bucket(ps, EduCategoryOf, shown[i]))));
    forall i | 0 <= i < |r| ensures r[i].members != [] {
      assert shown[i] in shown;
      BucketEmptyIff(ps, EduCategoryOf, shown[i]);
    }
    assert Titles(r) == shown;
    r
  }

  function Title(b: Block): string {
    if b.Group? then b.title else ""
  }

  function Titles(bs: seq<Block>): (r: seq<string>)
    ensures |r| == |bs| && forall i :: 0 <= i < |bs| ==> r[i] == Title(bs[i])
  {
    seq(|bs|, i requires 0 <= i < |bs| => Title(bs[i]))
  }

  lemma EduLabelsDistinct()
    ensures NoDuplicates(EduLabels)
    ensures forall c: EduCategory :: EduCategoryLabel(c) in EduLabels
  {
  }

  /** Across the boxes, the projects with a known category appear exactly as
      often as in the list, and the others not at all: the boxes hold, box
      after box, the cards of every category's bucket in category order (a
      skipped category has an empty bucket), and those buckets partition the
      projects of known category. */
  lemma EducationBlocksArePartition(ps: seq<EducationProject>)
    ensures Members(EducationBlocks(ps)) == ProjectCards(AllBuckets(ps, EduCategoryOf, EduLabels))
    ensures forall p: EducationProject ::
      multiset(AllBuckets(ps, EduCategoryOf, EduLabels))[p] == if ParseEduCategory(p.category).Some? then multiset(ps)[p] else 0
  {
    EducationBoxesHoldBuckets(ps);
    EduLabelsDistinct();
    BucketsPartition(ps, EduCategoryOf, EduLabels);
    EduLabelsAreKnown();
  }

  /** The labels of the boxes are exactly the category strings that parse. */
  lemma EduLabelsAreKnown()
    ensures forall c: string :: (c in EduLabels) == ParseEduCategory(c).Some?
  {
    forall c: string ensures (c in EduLabels) == ParseEduCategory(c).Some? {
      if ParseEduCategory(c).Some? {
        EduCategoryRoundTrip(ParseEduCategory(c).value, c);
      }
    }
  }

  lemma EducationBoxesHoldBuckets(ps: seq<EducationProject>)
    ensures Members(EducationBlocks(ps)) == ProjectCards(AllBuckets(ps, EduCategoryOf, EduLabels))
  {
    var bs := EducationBlocks(ps);
    var shown := ShownCategories(ps, EduLabels);
    assert forall i :: 0 <= i < |bs| ==> bs[i].title == Titles(bs)[i] == shown[i];
    MembersOfBoxes(ps, EduCategoryOf, ProjectCard, shown, bs);
    ShownBucketsAreAll(ps, EduLabels);
  }

  /** Leaving out the categories without projects leaves out only empty buckets. */
  lemma {:induction false} ShownBucketsAreAll(ps: seq<EducationProject>, labels: seq<string>)
    ensures AllBuckets(ps, EduCategoryOf, ShownCategories(ps, labels)) == AllBuckets(ps, EduCategoryOf, labels)
    decreases |labels|
  {
    if |labels| > 0 {
      ShownBucketsAreAll(ps, labels[1..]);
      var rest := ShownCategories(ps, labels[1..]);
      if HasCategory(ps, EduCategoryOf, labels[0]) {
        assert ShownCategories(ps, labels) == [labels[0]] + rest;
        assert ([labels[0]] + rest)[1..] == rest;
      } else {
        BucketEmptyIff(ps, EduCategoryOf, labels[0]);
        assert ShownCategories(ps, labels) == rest;
      }
    }
  }

  /** No projects: no boxes at all. */
  lemma NoProjectsNoBoxes()
    ensures EducationBlocks([]) == []
  {
    var r := EducationBlocks([]);
    assert |Titles(r)| == |r|;
  }

  lemma {:induction false} SubsequenceMembers(a: seq<string>, b: seq<string>)
    requires IsSubsequence(a, b)
    ensures forall x :: x in a ==> x in b
    decreases |b|
  {
    if |a| > 0 {
      if a[0] == b[0] {
        SubsequenceMembers(a[1..], b[1..]);
        assert a == [a[0]] + a[1..];
      } else {
        SubsequenceMembers(a, b[1..]);
      }
      assert b == [b[0]] + b[1..];
    }
  }

  // ---------------------------------------------------------------------------
  // Partner projects
  // ---------------------------------------------------------------------------

  const SupplyLabels: seq<string> := [
    SupplyCategoryLabel(Language), SupplyCategoryLabel(StudyTour),
    SupplyCategoryLabel(Internship), SupplyCategoryLabel(ResearchContest)]

  function SupplyCategoryOf(p: SupplyChainProject): string { p.category }

  function SupplyCard(p: SupplyChainProject): Block {
    Group(p.name, [Line(p.description), Line("✓ " + p.advantage)])
  }

  function SupplyCards(ps: seq<SupplyChainProject>): (r: seq<Block>)
    ensures |r| == |ps| && forall i :: 0 <= i < |ps| ==> r[i] == SupplyCard(ps[i])
  {
    Cards(ps, SupplyCard)
  }

  /** The partner-project boxes: all four categories, in fixed order, each
      with its projects in list order — an empty category still gets its box. */
  function SupplyBlocks(ps: seq<SupplyChainProject>): (r: seq<Block>)
    ensures |r| == |SupplyLabels| == 4
    ensures Titles(r) == SupplyLabels
    ensures forall i :: 0 <= i < |r| ==> r[i].Group? && r[i].members == SupplyCards(Bucket(ps, SupplyCategoryOf, SupplyLabels[i]))
  {
    seq(|SupplyLabels|, i requires 0 <= i < |SupplyLabels| =>
      Group(SupplyLabels[i], SupplyCards(Bucket(ps, SupplyCategoryOf, SupplyLabels[i]))))
  }

  /** Unlike the project details, the partner boxes do not depend on the
      list being empty: with no projects there are still four (empty) boxes. */
  lemma SupplyBoxesAlwaysShown()
    ensures |SupplyBlocks([])| == 4
    ensures forall i :: 0 <= i < 4 ==> SupplyBlocks([])[i].members == []
    ensures |EducationBlocks([])| == 0
  {
    NoProjectsNoBoxes();
  }

  lemma SupplyLabelsDistinct()
    ensures NoDuplicates(SupplyLabels)
    ensures forall c: SupplyCategory :: SupplyCategoryLabel(c) in SupplyLabels
  {
  }

  /** Across the four boxes, each partner project of a known category appears
      as often as in the list; one of any other category in no box. The
      boxes hold, box after box, the cards of the four buckets. */
  lemma SupplyBlocksArePartition(ps: seq<SupplyChainProject>)
    ensures Members(SupplyBlocks(ps)) == SupplyCards(AllBuckets(ps, SupplyCategoryOf, SupplyLabels))
    ensures forall p: SupplyChainProject ::
      multiset(AllBuckets(ps, SupplyCategoryOf, SupplyLabels))[p] == if ParseSupplyCategory(p.category).Some? then multiset(ps)[p] else 0
  {
    SupplyBoxesHoldBuckets(ps);
    SupplyLabelsDistinct();
    BucketsPartition(ps, SupplyCategoryOf, SupplyLabels);
    forall p: SupplyChainProject ensures (p.category in SupplyLabels) == ParseSupplyCategory(p.category).Some? {
      if ParseSupplyCategory(p.category).Some? {
        SupplyCategoryRoundTrip(ParseSupplyCategory(p.category).value, p.category);
      }
    }
  }

  lemma SupplyBoxesHoldBuckets(ps: seq<SupplyChainProject>)
    ensures Members(SupplyBlocks(ps)) == SupplyCards(AllBuckets(ps, SupplyCategoryOf, SupplyLabels))
  {
    MembersOfBoxes(ps, SupplyCategoryOf, SupplyCard, SupplyLabels, SupplyBlocks(ps));
  }
}
