/** The bird catalog (js/data.js): lookups, asset paths, external links and
    the in-place reorderings of the catalog array. */
module Data {
  import opened Common

  /** One catalog entry. `frequency` is a JSON number, so it is a real. */
  datatype Bird = Bird(id: string, commonName: string, scientificName: string, rank: int, frequency: real)

  // ---------------------------------------------------------------------
  // Asset paths and external links

  const PHOTO_DIR := "assets/images/birds/"
  const AUDIO_DIR := "assets/audio/calls/"
  const EBIRD_BASE := "https://ebird.org/species/"
  const ALL_ABOUT_BIRDS_BASE := "https://www.allaboutbirds.org/guide/"

  /** getPhotoUrl: the bird's local photo. */
  function PhotoUrl(b: Bird): (p: string)
    ensures |p| == |PHOTO_DIR| + |b.id| + 4
    ensures p[..|PHOTO_DIR|] == PHOTO_DIR && p[|PHOTO_DIR|..|PHOTO_DIR| + |b.id|] == b.id
    ensures EndsWith(p, ".jpg")
  {
    PHOTO_DIR + b.id + ".jpg"
  }

  /** getAudioUrl: the bird's local call recording. */
  function AudioUrl(b: Bird): (p: string)
    ensures |p| == |AUDIO_DIR| + |b.id| + 4
    ensures p[..|AUDIO_DIR|] == AUDIO_DIR && p[|AUDIO_DIR|..|AUDIO_DIR| + |b.id|] == b.id
    ensures EndsWith(p, ".mp3") && !EndsWith(p, ".jpg") && !EndsWith(p, ".png")
  {
    AUDIO_DIR + b.id + ".mp3"
  }

  /** Two birds get the same photo path (or audio path) only when they have the same id,
      and a photo path is never an audio path. */
  lemma AssetPathsDistinct(a: Bird, b: Bird)
    ensures PhotoUrl(a) == PhotoUrl(b) <==> a.id == b.id
    ensures AudioUrl(a) == AudioUrl(b) <==> a.id == b.id
  {
    if PhotoUrl(a) == PhotoUrl(b) {
      assert |a.id| == |b.id|;
      assert a.id == PhotoUrl(a)[|PHOTO_DIR|..|PHOTO_DIR| + |a.id|];
    }
    if AudioUrl(a) == AudioUrl(b) {
      assert |a.id| == |b.id|;
      assert a.id == AudioUrl(a)[|AUDIO_DIR|..|AUDIO_DIR| + |a.id|];
    }
  }

  /** A photo path is never an audio path: they part at the directory name. */
  lemma PhotoPathNotAudioPath(a: Bird, b: Bird)
    ensures PhotoUrl(a) != AudioUrl(b)
  {
    assert PhotoUrl(a)[7] == PHOTO_DIR[7] != AUDIO_DIR[7] == AudioUrl(b)[7];
  }

  /** `id.replace(/-/g, '')` */
  function RemoveHyphens(s: string): (r: string)
    ensures '-' !in r
    ensures |r| + Occurrences(s, '-') == |s|
  {
    if s == [] then []
    else if s[0] == '-' then RemoveHyphens(s[1..])
    else [s[0]] + RemoveHyphens(s[1..])
  }

  /** Removing hyphens works piecewise: every other character is kept, in order. */
  lemma {:induction false} RemoveHyphensAppend(s: string, t: string)
    ensures RemoveHyphens(s + t) == RemoveHyphens(s) + RemoveHyphens(t)
  {
    if s == [] {
      assert s + t == t;
    } else {
      assert (s + t)[0] == s[0] && (s + t)[1..] == s[1..] + t;
      RemoveHyphensAppend(s[1..], t);
    }
  }

  /** An id without hyphens is embedded as it is. */
  lemma {:induction false} RemoveHyphensNoHyphen(s: string)
    requires '-' !in s
    ensures RemoveHyphens(s) == s
  {
    if s != [] {
      assert s[0] != '-' && s == [s[0]] + s[1..];
      RemoveHyphensNoHyphen(s[1..]);
    }
  }

  /** getEbirdUrl: the species page, keyed by the id without its hyphens. */
  function EbirdUrl(b: Bird): (u: string)
    ensures |u| >= |EBIRD_BASE| && u[..|EBIRD_BASE|] == EBIRD_BASE
    ensures u[|EBIRD_BASE|..] == RemoveHyphens(b.id)
    ensures '-' !in u[|EBIRD_BASE|..]
  {
    EBIRD_BASE + RemoveHyphens(b.id)
  }

  /** Characters the slug keeps: the class `[a-z0-9]`. */
  predicate IsSlugChar(c: char)
  {
    ('a' <= c <= 'z') || ('0' <= c <= '9')
  }

  /** ASCII `toLowerCase` of one character. */
  function LowerChar(c: char): (l: char)
    ensures 'A' <= c <= 'Z' ==> 'a' <= l <= 'z'
    ensures !('A' <= c <= 'Z') ==> l == c
  {
    if 'A' <= c <= 'Z' then (c as int - 'A' as int + 'a' as int) as char else c
  }

  /** ASCII `toLowerCase` of a string. */
  function ToLowerAscii(s: string): (r: string)
    ensures |r| == |s|
    ensures forall i :: 0 <= i < |s| ==> r[i] == LowerChar(s[i])
  {
    seq(|s|, i requires 0 <= i < |s| => LowerChar(s[i]))
  }

  /** Drops the maximal leading run of characters outside `[a-z0-9]`. */
  function DropRun(s: string): (r: string)
    ensures |r| <= |s| && r == s[|s| - |r|..]
    ensures r == [] || IsSlugChar(r[0])
    ensures forall i :: 0 <= i < |s| - |r| ==> !IsSlugChar(s[i])
  {
    if s == [] || IsSlugChar(s[0]) then s else DropRun(s[1..])
  }

  /** `replace(/[^a-z0-9]+/g, '-')`: every maximal run of characters outside
      `[a-z0-9]` becomes a single hyphen. */
  function CollapseRuns(s: string): (r: string)
    ensures forall i :: 0 <= i < |r| ==> IsSlugChar(r[i]) || r[i] == '-'
    ensures forall i :: 0 < i < |r| ==> !(r[i - 1] == '-' && r[i] == '-')
    ensures (s == [] || IsSlugChar(s[0])) ==> (r == [] || r[0] != '-')
    ensures s != [] && !IsSlugChar(s[0]) ==> r != [] && r[0] == '-'
    decreases |s|
  {
    if s == [] then []
    else if IsSlugChar(s[0]) then [s[0]] + CollapseRuns(s[1..])
    else ['-'] + CollapseRuns(DropRun(s))
  }

  /** The `[a-z0-9]` characters of a string, in order. */
  function SlugChars(s: string): (r: string)
  {
    if s == [] then [] else (if IsSlugChar(s[0]) then [s[0]] else []) + SlugChars(s[1..])
  }

  lemma {:induction false} SlugCharsOfRun(s: string)
    ensures SlugChars(s) == SlugChars(DropRun(s))
    decreases |s|
  {
    if s != [] && !IsSlugChar(s[0]) {
      SlugCharsOfRun(s[1..]);
    }
  }

  /** Collapsing runs keeps every letter and digit, in order, and nothing else but hyphens. */
  lemma {:induction false} CollapseRunsKeepsSlugChars(s: string)
    ensures SlugChars(CollapseRuns(s)) == SlugChars(s)
    decreases |s|
  {
    if s == [] {
    } else if IsSlugChar(s[0]) {
      var r := CollapseRuns(s[1..]);
      assert ([s[0]] + r)[1..] == r;
      CollapseRunsKeepsSlugChars(s[1..]);
    } else {
      var r := CollapseRuns(DropRun(s));
      assert (['-'] + r)[1..] == r;
      CollapseRunsKeepsSlugChars(DropRun(s));
      SlugCharsOfRun(s);
    }
  }

  /** A name that is already a slug is left as it is. */
  lemma {:induction false} CollapseRunsOfSlug(s: string)
    requires forall i :: 0 <= i < |s| ==> IsSlugChar(s[i])
    ensures CollapseRuns(s) == s
  {
    if s != [] {
      assert s == [s[0]] + s[1..];
      CollapseRunsOfSlug(s[1..]);
    }
  }

  /** A run that ends inside the first part leaves the second part whole. */
  lemma {:induction false} DropRunAppend(x: string, y: string)
    requires x != [] && IsSlugChar(x[|x| - 1])
    ensures DropRun(x + y) == DropRun(x) + y
    decreases |x|
  {
    if !IsSlugChar(x[0]) {
      assert (x + y)[1..] == x[1..] + y;
      DropRunAppend(x[1..], y);
    }
  }

  /** Collapsing works piecewise across a cut right after a letter or digit. */
  lemma {:induction false} CollapseRunsAppend(x: string, y: string)
    requires x == [] || IsSlugChar(x[|x| - 1])
    ensures CollapseRuns(x + y) == CollapseRuns(x) + CollapseRuns(y)
    decreases |x|
  {
    if x == [] {
      assert x + y == y;
    } else if IsSlugChar(x[0]) {
      assert (x + y)[1..] == x[1..] + y;
      CollapseRunsAppend(x[1..], y);
      AppendAssoc([x[0]], CollapseRuns(x[1..]), CollapseRuns(y));
    } else {
      DropRunAppend(x, y);
      CollapseRunsAppend(DropRun(x), y);
      AppendAssoc(['-'], CollapseRuns(DropRun(x)), CollapseRuns(y));
    }
  }

  /** A maximal run of characters outside `[a-z0-9]` becomes exactly one hyphen. */
  lemma {:induction false} CollapseRunsOfRun(run: string, y: string)
    requires run != [] && forall i :: 0 <= i < |run| ==> !IsSlugChar(run[i])
    requires y == [] || IsSlugChar(y[0])
    ensures CollapseRuns(run + y) == "-" + CollapseRuns(y)
  {
    assert DropRun(run + y) == y by {
      DropRunOfRun(run, y);
    }
  }

  lemma {:induction false} DropRunOfRun(run: string, y: string)
    requires forall i :: 0 <= i < |run| ==> !IsSlugChar(run[i])
    requires y == [] || IsSlugChar(y[0])
    ensures DropRun(run + y) == y
  {
    if run == [] {
      assert run + y == y;
    } else {
      assert (run + y)[1..] == run[1..] + y;
      DropRunOfRun(run[1..], y);
    }
  }

  /** The place of each hyphen: text, then a maximal run of other characters,
      then text collapses to the two texts' slugs joined by one hyphen. */
  lemma {:induction false} CollapseRunsAtRun(x: string, run: string, y: string)
    requires x == [] || IsSlugChar(x[|x| - 1])
    requires run != [] && forall i :: 0 <= i < |run| ==> !IsSlugChar(run[i])
    requires y == [] || IsSlugChar(y[0])
    ensures CollapseRuns(x + run + y) == CollapseRuns(x) + ("-" + CollapseRuns(y))
  {
    var tail := run + y;
    assert x + run + y == x + tail;
    CollapseRunsAppend(x, tail);
    CollapseRunsOfRun(run, y);
    assert CollapseRuns(x + run + y) == CollapseRuns(x + tail);
  }

  /** getAllAboutBirdsUrl: the guide page, keyed by the lower-cased name with runs
      of other characters turned into single hyphens. */
  function AllAboutBirdsUrl(b: Bird): (u: string)
    ensures |u| >= |ALL_ABOUT_BIRDS_BASE| && u[..|ALL_ABOUT_BIRDS_BASE|] == ALL_ABOUT_BIRDS_BASE
    ensures u[|ALL_ABOUT_BIRDS_BASE|..] == CollapseRuns(ToLowerAscii(b.commonName))
    ensures var slug := u[|ALL_ABOUT_BIRDS_BASE|..];
      && (forall i :: 0 <= i < |slug| ==> IsSlugChar(slug[i]) || slug[i] == '-')
      && (forall i :: 0 < i < |slug| ==> !(slug[i - 1] == '-' && slug[i] == '-'))
  {
    ALL_ABOUT_BIRDS_BASE + CollapseRuns(ToLowerAscii(b.commonName))
  }

  /** The slug holds exactly the letters and digits of the lower-cased name. */
  lemma AllAboutBirdsSlugChars(b: Bird)
    ensures SlugChars(AllAboutBirdsUrl(b)[|ALL_ABOUT_BIRDS_BASE|..]) == SlugChars(ToLowerAscii(b.commonName))
  {
    var u := AllAboutBirdsUrl(b);
    assert u[|ALL_ABOUT_BIRDS_BASE|..] == CollapseRuns(ToLowerAscii(b.commonName));
    CollapseRunsKeepsSlugChars(ToLowerAscii(b.commonName));
  }

  // ---------------------------------------------------------------------
  // Lookups

  /** `Array.prototype.find` as an index: the first position whose bird satisfies `p`. */
  function FindIndex(s: seq<Bird>, p: Bird -> bool): (r: Option<nat>)
    ensures r.Some? ==> r.value < |s| && p(s[r.value]) && forall j :: 0 <= j < r.value ==> !p(s[j])
    ensures r.None? ==> forall j :: 0 <= j < |s| ==> !p(s[j])
  {
    if s == [] then None
    else if p(s[0]) then Some(0)
    else match FindIndex(s[1..], p)
      case None => None
      case Some(k) => Some(k + 1)
  }

  /** `birds.filter(b => b.id !== excludeId)`; a null exclusion drops nothing. */
  function Exclude(s: seq<Bird>, excludeId: Option<string>): (r: seq<Bird>)
    ensures multiset(r) <= multiset(s)
    ensures forall b :: b in r ==> excludeId != Some(b.id)
    ensures forall b :: b in s && excludeId != Some(b.id) ==> b in r
  {
    if s == [] then []
    else
      var rest := Exclude(s[1..], excludeId);
      assert s == [s[0]] + s[1..];
      if excludeId != Some(s[0].id) then [s[0]] + rest else rest
  }

  /** The filter drops every copy of a bird with the excluded id and keeps
      every copy of any other. */
  lemma {:induction false} ExcludeCounts(s: seq<Bird>, excludeId: Option<string>)
    ensures forall b :: multiset(Exclude(s, excludeId))[b] == if excludeId == Some(b.id) then 0 else multiset(s)[b]
  {
    if s != [] {
      ExcludeCounts(s[1..], excludeId);
      assert s == [s[0]] + s[1..];
    }
  }

  /** The filter keeps the catalog's order: it works piecewise over concatenation. */
  lemma {:induction false} ExcludeAppend(s: seq<Bird>, t: seq<Bird>, excludeId: Option<string>)
    ensures Exclude(s + t, excludeId) == Exclude(s, excludeId) + Exclude(t, excludeId)
  {
    if s == [] {
      assert s + t == t;
    } else {
      assert (s + t)[1..] == s[1..] + t;
      ExcludeAppend(s[1..], t, excludeId);
    }
  }

  /** Birds in catalog order, ordered by non-increasing frequency. */
  ghost predicate SortedByFrequency(s: seq<Bird>)
  {
    forall k, l :: 0 <= k < l < |s| ==> s[k].frequency >= s[l].frequency
  }

  /** Sorts by non-increasing frequency: an insertion sort of the whole array. */
  method InsertionSortByFrequency(a: array<Bird>)
    modifies a
    ensures SortedByFrequency(a[..])
    ensures multiset(a[..]) == old(multiset(a[..]))
  {
    var i := 0;
    while i < a.Length
      invariant 0 <= i <= a.Length
      invariant SortedByFrequency(a[..i])
      invariant multiset(a[..]) == old(multiset(a[..]))
    {
      InsertLast(a, i);
      i := i + 1;
    }
  }

  /** While a[i] moves left to position j: a[..i+1] is sorted except at j, and
      the element at j is at least as frequent as everything after it. */
  ghost predicate Inserting(s: seq<Bird>, i: nat, j: nat)
    requires j <= i < |s|
  {
    forall k, l :: 0 <= k < l <= i && l != j ==> s[k].frequency >= s[l].frequency
  }

  /** Swapping the moving element with a less frequent left neighbour keeps the shape. */
  lemma SwapKeepsInserting(s: seq<Bird>, i: nat, j: nat)
    requires 0 < j <= i < |s| && Inserting(s, i, j)
    requires s[j - 1].frequency < s[j].frequency
    ensures Inserting(s[j - 1 := s[j]][j := s[j - 1]], i, j - 1)
    ensures multiset(s[j - 1 := s[j]][j := s[j - 1]]) == multiset(s)
  {
    var t := s[j - 1 := s[j]][j := s[j - 1]];
    forall k, l | 0 <= k < l <= i && l != j - 1
      ensures t[k].frequency >= t[l].frequency
    {
      if l == j {
        if k != j - 1 {
          assert s[k].frequency >= s[j - 1].frequency;
        }
      } else if k == j - 1 {
        assert s[j].frequency >= s[l].frequency;
      } else if k == j {
        assert s[j - 1].frequency >= s[l].frequency;
      }
    }
    assert s == s[..j - 1] + [s[j - 1], s[j]] + s[j + 1..];
    assert t == s[..j - 1] + [s[j], s[j - 1]] + s[j + 1..];
  }

  /** Once the moving element meets a neighbour at least as frequent, the prefix is sorted. */
  lemma InsertingDone(s: seq<Bird>, i: nat, j: nat)
    requires j <= i < |s| && Inserting(s, i, j)
    requires j == 0 || s[j - 1].frequency >= s[j].frequency
    ensures SortedByFrequency(s[..i + 1])
  {
    forall k, l | 0 <= k < l <= i ensures s[k].frequency >= s[l].frequency {
      if l == j {
        assert s[k].frequency >= s[j - 1].frequency;
      }
    }
  }

  /** One insertion step: moves a[i] left past the elements of lower frequency,
      so that the prefix a[..i+1] becomes sorted. */
  method InsertLast(a: array<Bird>, i: nat)
    requires i < a.Length
    requires SortedByFrequency(a[..i])
    modifies a
    ensures SortedByFrequency(a[..i + 1])
    ensures a[i + 1..] == old(a[i + 1..])
    ensures multiset(a[..]) == old(multiset(a[..]))
  {
    var j := i;
    assert Inserting(a[..], i, j);
    while j > 0 && a[j - 1].frequency < a[j].frequency
      invariant 0 <= j <= i
      invariant Inserting(a[..], i, j)
      invariant a[i + 1..] == old(a[i + 1..])
      invariant multiset(a[..]) == old(multiset(a[..]))
    {
      ghost var before := a[..];
      SwapKeepsInserting(before, i, j);
      a[j - 1], a[j] := a[j], a[j - 1];
      assert a[..] == before[j - 1 := before[j]][j := before[j - 1]];
      j := j - 1;
    }
    InsertingDone(a[..], i, j);
  }

  /** Fisher-Yates: for i from the end down to 1, swap a[i] with a[j] for some
      j in [0, i]. The random choice is left open, so the contract holds for every choice. */
  method ShuffleInPlace<T>(a: array<T>)
    modifies a
    ensures multiset(a[..]) == old(multiset(a[..]))
  {
    var i := a.Length - 1;
    while i > 0
      invariant i < a.Length
      invariant multiset(a[..]) == old(multiset(a[..]))
    {
      var j :| 0 <= j <= i;
      a[i], a[j] := a[j], a[i];
      i := i - 1;
    }
  }

  /** The catalog object: the loaded birds, reordered in place by the sort and
      shuffle operations. */
  class BirdData {
    var birds: array<Bird>

    constructor (catalog: seq<Bird>)
      ensures birds[..] == catalog && fresh(birds)
    {
      birds := new Bird[|catalog|](i requires 0 <= i < |catalog| => catalog[i]);
    }

    /** getBird: the first bird with this id, or undefined. */
    function GetBird(id: string): (r: Option<Bird>)
      reads this, birds
      ensures r.Some? ==> r.value.id == id && r.value in birds[..]
      ensures r.Some? ==> exists i :: 0 <= i < birds.Length && birds[i] == r.value
                            && forall j :: 0 <= j < i ==> birds[j].id != id
      ensures r.None? <==> forall j :: 0 <= j < birds.Length ==> birds[j].id != id
    {
      match FindIndex(birds[..], (b: Bird) => b.id == id)
      case None => None
      case Some(i) => Some(birds[i])
    }

    /** getBirdByIndex: `birds[index]`, undefined outside the array. */
    function GetBirdByIndex(index: int): (r: Option<Bird>)
      reads this, birds
      ensures r.Some? <==> 0 <= index < birds.Length
      ensures r.Some? ==> r.value == birds[index]
    {
      if 0 <= index < birds.Length then Some(birds[index]) else None
    }

    /** getBirdByRank: the first bird with this rank, or undefined. */
    function GetBirdByRank(rank: int): (r: Option<Bird>)
      reads this, birds
      ensures r.Some? ==> r.value.rank == rank && r.value in birds[..]
      ensures r.Some? ==> exists i :: 0 <= i < birds.Length && birds[i] == r.value
                            && forall j :: 0 <= j < i ==> birds[j].rank != rank
      ensures r.None? <==> forall j :: 0 <= j < birds.Length ==> birds[j].rank != rank
    {
      match FindIndex(birds[..], (b: Bird) => b.rank == rank)
      case None => None
      case Some(i) => Some(birds[i])
    }

    /** sortBy: 'frequency' sorts by non-increasing frequency, 'random' shuffles,
        'alphabetical' reorders by a collation the model leaves open, anything
        else leaves the catalog as it is. Every case permutes the catalog. */
    method SortBy(method_: string)
      modifies birds
      ensures multiset(birds[..]) == old(multiset(birds[..]))
      ensures method_ == "frequency" ==> SortedByFrequency(birds[..])
      ensures method_ !in {"frequency", "alphabetical", "random"} ==> birds[..] == old(birds[..])
    {
      if method_ == "frequency" {
        SortByFrequency();
      } else if method_ == "alphabetical" {
        ShuffleInPlace(birds);
      } else if method_ == "random" {
        Shuffle();
      }
    }

    /** `birds.sort((a, b) => b.frequency - a.frequency)` on the catalog array. */
    method SortByFrequency()
      modifies birds
      ensures SortedByFrequency(birds[..])
      ensures multiset(birds[..]) == old(multiset(birds[..]))
    {
      InsertionSortByFrequency(birds);
    }

    /** shuffle: Fisher-Yates over the catalog array. */
    method Shuffle()
      modifies birds
      ensures multiset(birds[..]) == old(multiset(birds[..]))
    {
      ShuffleInPlace(birds);
    }

    /** getRandomBirds: up to `count` birds other than `excludeId`, in an order
        the random comparator leaves open, each from a different catalog position. */
    method GetRandomBirds(count: nat, excludeId: Option<string>) returns (r: seq<Bird>)
      ensures |r| == Min(count, |Exclude(birds[..], excludeId)|)
      ensures forall b :: b in r ==> excludeId != Some(b.id)
      ensures multiset(r) <= multiset(birds[..])
    {
      var available := Exclude(birds[..], excludeId);
      var shuffled := new Bird[|available|](i requires 0 <= i < |available| => available[i]);
      assert shuffled[..] == available;
      ShuffleInPlace(shuffled);
      var n := Min(count, shuffled.Length);
      r := shuffled[..n];
      assert shuffled[..] == r + shuffled[n..];
      assert multiset(r) <= multiset(shuffled[..]);
      assert multiset(shuffled[..]) == multiset(available);
      forall b | b in r ensures excludeId != Some(b.id) {
        assert b in multiset(available);
      }
    }
  }
}
