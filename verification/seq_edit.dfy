/** The array edits the form components perform on their string lists:
    `filter((_, i) => i !== index)`, `filter(x => x !== item)` and the
    "remove if present, else append" toggle. */
module SeqEdit {

  /** No value occurs twice. */
  predicate NoDuplicates<T(==)>(s: seq<T>) {
    forall i, j :: 0 <= i < j < |s| ==> s[i] != s[j]
  }

  /** `s.filter((_, i) => i !== index)`: drops the element at position
      `index`; any other index (negative or past the end) keeps every element. */
  function WithoutIndex<T>(s: seq<T>, index: int): (r: seq<T>)
    ensures 0 <= index < |s| ==> |r| == |s| - 1
    ensures 0 <= index < |s| ==> forall k :: 0 <= k < index ==> r[k] == s[k]
    ensures 0 <= index < |s| ==> forall k :: index <= k < |r| ==> r[k] == s[k + 1]
    ensures !(0 <= index < |s|) ==> r == s
  {
    if |s| == 0 then []
    else (if index == 0 then [] else [s[0]]) + WithoutIndex(s[1..], index - 1)
  }

  /** Dropping a position in range is joining the slices around it. */
  lemma WithoutIndexSlices<T>(s: seq<T>, index: int)
    ensures 0 <= index < |s| ==> WithoutIndex(s, index) == s[..index] + s[index + 1..]
  {
  }

  /** `s.filter(x => x !== item)`: every occurrence of `item` removed, the
      other elements kept with their multiplicities and in their order. */
  function RemoveAll<T(==)>(s: seq<T>, item: T): (r: seq<T>)
    ensures item !in r
    ensures item !in s ==> r == s
  {
    if |s| == 0 then []
    else
      var rest := RemoveAll(s[1..], item);
      assert s == [s[0]] + s[1..];
      if s[0] == item then rest else [s[0]] + rest
  }

  /** `RemoveAll` keeps every other value with its multiplicity and drops
      every copy of `item`. */
  lemma {:induction false} RemoveAllCounts<T>(s: seq<T>, item: T)
    ensures multiset(RemoveAll(s, item)) == multiset(s)[item := 0]
    decreases |s|
  {
    if |s| > 0 {
      RemoveAllCounts(s[1..], item);
      assert s == [s[0]] + s[1..];
    }
  }

  /** `RemoveAll` keeps the survivors in their original relative order: it is
      a subsequence of its input. */
  predicate IsSubsequence<T(==)>(a: seq<T>, b: seq<T>)
    decreases |b|
  {
    |a| == 0 || (|b| > 0 && (if a[0] == b[0] then IsSubsequence(a[1..], b[1..]) else IsSubsequence(a, b[1..])))
  }

  /** A subsequence is never longer than the sequence it is taken from. */
  lemma {:induction false} SubsequenceNoLonger<T>(a: seq<T>, b: seq<T>)
    requires IsSubsequence(a, b)
    ensures |a| <= |b|
    decreases |b|
  {
    if |a| > 0 {
      if a[0] == b[0] {
        SubsequenceNoLonger(a[1..], b[1..]);
      } else {
        SubsequenceNoLonger(a, b[1..]);
      }
    }
  }

  lemma {:induction false} RemoveAllKeepsOrder<T>(s: seq<T>, item: T)
    ensures IsSubsequence(RemoveAll(s, item), s)
    decreases |s|
  {
    if |s| > 0 {
      RemoveAllKeepsOrder(s[1..], item);
      var rest := RemoveAll(s[1..], item);
      if s[0] != item {
        assert ([s[0]] + rest)[1..] == rest;
      } else {
        SubsequenceOfTail(rest, s);
      }
    }
  }

  lemma {:induction false} SubsequenceOfTail<T>(a: seq<T>, b: seq<T>)
    requires |b| > 0 && IsSubsequence(a, b[1..])
    ensures IsSubsequence(a, b)
    decreases |b|, 0
  {
    if |a| > 0 && a[0] == b[0] {
      DropHead(a, b[1..]);
    }
  }

  lemma {:induction false} DropHead<T>(a: seq<T>, c: seq<T>)
    requires |a| > 0 && IsSubsequence(a, c)
    ensures IsSubsequence(a[1..], c)
    decreases |c|, 1
  {
    if a[0] == c[0] {
      SubsequenceOfTail(a[1..], c);
    } else {
      DropHead(a, c[1..]);
      SubsequenceOfTail(a[1..], c);
    }
  }

  /** `includes(item) ? filter(x => x !== item) : [...s, item]`. */
  function Toggle<T(==)>(s: seq<T>, item: T): (r: seq<T>)
    ensures item in r <==> item !in s
    ensures multiset(r)[item := 0] == multiset(s)[item := 0]
    ensures item !in s ==> r == s + [item]
    ensures item in s ==> multiset(r) == multiset(s)[item := 0]
    ensures item in s ==> r == RemoveAll(s, item) && IsSubsequence(r, s)
  {
    if item in s then
      RemoveAllCounts(s, item);
      RemoveAllKeepsOrder(s, item);
      RemoveAll(s, item)
    else
      s + [item]
  }

  /** Toggling an absent item twice restores the list. */
  lemma {:induction false} ToggleAbsentTwice<T>(s: seq<T>, item: T)
    requires item !in s
    ensures Toggle(Toggle(s, item), item) == s
  {
    RemoveAppended(s, item);
  }

  lemma {:induction false} RemoveAppended<T>(s: seq<T>, item: T)
    requires item !in s
    ensures RemoveAll(s + [item], item) == s
    decreases |s|
  {
    if |s| == 0 {
      assert s + [item] == [item];
      assert [item][1..] == [];
    } else {
      assert (s + [item])[1..] == s[1..] + [item];
      RemoveAppended(s[1..], item);
      assert s == [s[0]] + s[1..];
    }
  }

  /** Toggling a present item of a duplicate-free list twice moves it to the
      end: the toggle is an involution only for absent items. */
  lemma {:induction false} TogglePresentTwice<T>(s: seq<T>, i: nat)
    requires NoDuplicates(s) && i < |s|
    ensures Toggle(Toggle(s, s[i]), s[i]) == s[..i] + s[i + 1..] + [s[i]]
  {
    var item := s[i];
    RemoveUnique(s, i);
  }

  /** In a duplicate-free list, removing all copies of `s[i]` is removing position `i`. */
  lemma {:induction false} RemoveUnique<T>(s: seq<T>, i: nat)
    requires NoDuplicates(s) && i < |s|
    ensures RemoveAll(s, s[i]) == s[..i] + s[i + 1..]
    decreases |s|
  {
    HeadNotInTail(s);
    if i == 0 {
      assert RemoveAll(s, s[0]) == RemoveAll(s[1..], s[0]);
      assert s[..0] + s[1..] == s[1..];
    } else {
      TailNoDuplicates(s);
      assert s[1..][i - 1] == s[i];
      RemoveUnique(s[1..], i - 1);
      RemoveUniqueStep(s, i);
    }
  }

  /** The inductive step of `RemoveUnique`: a head different from the removed
      value stays in front. */
  lemma RemoveUniqueStep<T>(s: seq<T>, i: nat)
    requires 0 < i < |s| && s[0] != s[i]
    requires RemoveAll(s[1..], s[i]) == s[1..][..i - 1] + s[1..][i..]
    ensures RemoveAll(s, s[i]) == s[..i] + s[i + 1..]
  {
    RemoveAllKeepsHead(s, s[i]);
    ConsSlices(s, i);
  }

  lemma RemoveAllKeepsHead<T>(s: seq<T>, x: T)
    requires |s| > 0 && s[0] != x
    ensures RemoveAll(s, x) == [s[0]] + RemoveAll(s[1..], x)
  {
  }

  lemma ConsSlices<T>(s: seq<T>, i: nat)
    requires 0 < i < |s|
    ensures [s[0]] + (s[1..][..i - 1] + s[1..][i..]) == s[..i] + s[i + 1..]
  {
    assert s[1..][..i - 1] == s[1..i] && s[1..][i..] == s[i + 1..];
    assert s[..i] == [s[0]] + s[1..i];
  }

  lemma HeadNotInTail<T>(s: seq<T>)
    requires NoDuplicates(s) && |s| > 0
    ensures s[0] !in s[1..]
  {
    forall k | 0 <= k < |s| - 1 ensures s[1..][k] != s[0] {
      assert s[1..][k] == s[k + 1];
    }
  }

  lemma TailNoDuplicates<T>(s: seq<T>)
    requires NoDuplicates(s) && |s| > 0
    ensures NoDuplicates(s[1..])
  {
    var t := s[1..];
    forall a, b | 0 <= a < b < |t| ensures t[a] != t[b] {
      assert t[a] == s[a + 1] && t[b] == s[b + 1];
    }
  }

  /** A toggle keeps a duplicate-free list duplicate-free. */
  lemma {:induction false} ToggleKeepsNoDuplicates<T>(s: seq<T>, item: T)
    requires NoDuplicates(s)
    ensures NoDuplicates(Toggle(s, item))
  {
    if item in s {
      var i :| 0 <= i < |s| && s[i] == item;
      RemoveUnique(s, i);
      WithoutPositionKeepsNoDuplicates(s, i);
    } else {
      AppendAbsentKeepsNoDuplicates(s, item);
    }
  }

  lemma WithoutPositionKeepsNoDuplicates<T>(s: seq<T>, i: nat)
    requires NoDuplicates(s) && i < |s|
    ensures NoDuplicates(s[..i] + s[i + 1..])
  {
    var r := s[..i] + s[i + 1..];
    forall a, b | 0 <= a < b < |r| ensures r[a] != r[b] {
      var a' := if a < i then a else a + 1;
      var b' := if b < i then b else b + 1;
      assert r[a] == s[a'] && r[b] == s[b'];
    }
  }

  lemma AppendAbsentKeepsNoDuplicates<T>(s: seq<T>, item: T)
    requires NoDuplicates(s) && item !in s
    ensures NoDuplicates(s + [item])
  {
    var r := s + [item];
    forall a, b | 0 <= a < b < |r| ensures r[a] != r[b] {
      if b == |s| {
        assert r[a] == s[a];
      } else {
        assert r[a] == s[a] && r[b] == s[b];
      }
    }
  }
}
