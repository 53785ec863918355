/**
 Drawing the thirty questions of an attempt (src/modules/assessments/assessment-questions.ts).
 The question texts are not modelled: a question is its pool and its place there. The
 generator works on 32-bit words, and its seed is a list of UTF-16 code units.
 */
module ExamDraw {
  import opened Common

  // ---- The generator ----

  const OFFSET_BASIS: bv32 := 2166136261
  const PRIME: bv32 := 16777619
  const INCREMENT: bv32 := 0x6d2b79f5
  const TWO_32: int := 0x1_0000_0000

  function Absorb(h: bv32, unit: bv16): bv32 {
    (h ^ (unit as bv32)) * PRIME
  }

  /** The state once the code units from place i on are absorbed into h. */
  function HashFrom(h: bv32, seed: seq<bv16>, i: nat): bv32
    requires i <= |seed|
    decreases |seed| - i
  {
    if i == |seed| then h else HashFrom(Absorb(h, seed[i]), seed, i + 1)
  }

  function Advance(h: bv32): bv32 {
    h + INCREMENT
  }

  /** The word a generator state yields. */
  function Mix(h: bv32): bv32 {
    var t := (h ^ (h >> 15)) * (h | 1);
    var u := t ^ (t + (t ^ (t >> 7)) * (t | 61));
    u ^ (u >> 14)
  }

  /** `Math.floor((u / 2^32) * n)`: every word picks one of the first n places. */
  function Pick(word: bv32, n: nat): (j: nat)
    requires n > 0
    ensures j < n
    ensures TWO_32 * j <= word as int * n < TWO_32 * (j + 1)
  {
    var u := word as int;
    DivisionBounds(u * n, TWO_32);
    BelowTheWhole(u, n);
    u * n / TWO_32
  }

  lemma BelowTheWhole(u: int, n: nat)
    requires 0 <= u < TWO_32 && n > 0
    ensures 0 <= u * n / TWO_32 < n
  {
    assert 0 <= u * n < TWO_32 * n;
    DivisionBounds(u * n, TWO_32);
  }

  lemma HashStep(h: bv32, seed: seq<bv16>, i: nat, h': bv32)
    requires i < |seed| && Absorb(h, seed[i]) == h'
    ensures HashFrom(h, seed, i) == HashFrom(h', seed, i + 1)
  {
  }

  lemma HashedWhole(h: bv32, seed: seq<bv16>)
    ensures HashFrom(h, seed, |seed|) == h
  {
  }

  lemma WordsOfFoobar()
    ensures Absorb(OFFSET_BASIS, 102) == 0xe30c2799 && Absorb(0xe30c2799, 111) == 0x6222e842
    ensures Absorb(0x6222e842, 111) == 0xa9f37ed7 && Absorb(0xa9f37ed7, 98) == 0x3f5076ef
    ensures Absorb(0x3f5076ef, 97) == 0x39aaa18a && Absorb(0x39aaa18a, 114) == 0xbf9cf968
  {
  }

  /** The code units of "foobar". */
  const FOOBAR: seq<bv16> := [102, 111, 111, 98, 97, 114]

  /** The published 32-bit FNV-1a hash of that text. */
  lemma KnownHash()
    ensures HashFrom(OFFSET_BASIS, FOOBAR, 0) == 0xbf9cf968
  {
    var seed := FOOBAR;
    hide Absorb, HashFrom;
    WordsOfFoobar();
    HashStep(OFFSET_BASIS, seed, 0, 0xe30c2799);
    HashStep(0xe30c2799, seed, 1, 0x6222e842);
    HashStep(0x6222e842, seed, 2, 0xa9f37ed7);
    HashStep(0xa9f37ed7, seed, 3, 0x3f5076ef);
    HashStep(0x3f5076ef, seed, 4, 0x39aaa18a);
    HashStep(0x39aaa18a, seed, 5, 0xbf9cf968);
    HashedWhole(0xbf9cf968, seed);
  }

  /** The words that mulberry32 yields first when it starts from zero, and from one. */
  lemma KnownWords()
    ensures Mix(Advance(0)) == 1144304738 && Mix(Advance(1)) == 2693262067
  {
  }

  // ---- The shuffle ----

  function Swapped<T>(s: seq<T>, i: nat, j: nat): (r: seq<T>)
    requires i < |s| && j < |s|
    ensures |r| == |s|
  {
    s[i := s[j]][j := s[i]]
  }

  lemma SwapIsPermutation<T>(s: seq<T>, i: nat, j: nat)
    requires i < |s| && j < |s|
    ensures multiset(Swapped(s, i, j)) == multiset(s)
  {
  }

  /** The shuffle of the first n places by given picks: place n - 1 first, each with a place not above it. */
  function ShuffledBy<T>(s: seq<T>, js: seq<nat>, n: nat): (r: seq<T>)
    requires n <= |s| && n <= |js| && forall k :: 0 <= k < n ==> js[k] <= k
    ensures |r| == |s|
    decreases n
  {
    if n <= 1 then s else ShuffledBy(Swapped(s, n - 1, js[n - 1]), js, n - 1)
  }

  /** The picks a generator makes from state h on: the one for place i is at index i. */
  function Picks(h: bv32, i: nat): (js: seq<nat>)
    ensures |js| == i + 1 && forall k :: 0 <= k <= i ==> js[k] <= k
    decreases i
  {
    if i == 0 then [0] else Picks(Advance(h), i - 1) + [Pick(Mix(Advance(h)), i + 1)]
  }

  /** The shuffle of places 0..i by a generator in state h. */
  function ShuffledFrom<T>(s: seq<T>, h: bv32, i: nat): (r: seq<T>)
    requires i < |s|
    ensures |r| == |s|
    decreases i
  {
    if i == 0 then s else ShuffledFrom(Swapped(s, i, Pick(Mix(Advance(h)), i + 1)), Advance(h), i - 1)
  }

  function Shuffled<T>(items: seq<T>, seed: seq<bv16>): seq<T> {
    if items == [] then [] else ShuffledFrom(items, HashFrom(OFFSET_BASIS, seed, 0), |items| - 1)
  }

  method HashOf(seed: seq<bv16>) returns (h: bv32)
    ensures h == HashFrom(OFFSET_BASIS, seed, 0)
  {
    h := OFFSET_BASIS;
    for i := 0 to |seed|
      invariant HashFrom(h, seed, i) == HashFrom(OFFSET_BASIS, seed, 0)
    {
      h := Absorb(h, seed[i]);
    }
  }

  method ShuffleInPlace<T>(copy: array<T>, seedHash: bv32)
    requires copy.Length > 0
    modifies copy
    ensures copy[..] == ShuffledFrom(old(copy[..]), seedHash, copy.Length - 1)
  {
    hide Mix, Pick, Advance;
    var h := seedHash;
    var i := copy.Length - 1;
    while i > 0
      invariant 0 <= i < copy.Length
      invariant ShuffledFrom(copy[..], h, i) == ShuffledFrom(old(copy[..]), seedHash, copy.Length - 1)
    {
      h := Advance(h);
      var j := Pick(Mix(h), i + 1);
      ghost var before := copy[..];
      copy[i], copy[j] := copy[j], copy[i];
      assert copy[..] == Swapped(before, i, j);
      i := i - 1;
    }
  }

  method SeededShuffle<T>(items: seq<T>, seed: seq<bv16>) returns (shuffled: seq<T>)
    ensures shuffled == Shuffled(items, seed)
  {
    var h := HashOf(seed);
    if items == [] {
      return [];
    }
    var copy := new T[|items|](k requires 0 <= k < |items| => items[k]);
    assert copy[..] == items;
    ShuffleInPlace(copy, h);
    return copy[..];
  }

  /** The generator matters only through its picks. */
  lemma {:induction false} ShuffleFollowsPicks<T>(s: seq<T>, h: bv32, i: nat, js: seq<nat>)
    requires i < |s| && i < |js| && (forall k :: 0 <= k < |js| ==> js[k] <= k)
    requires forall k :: 0 <= k <= i ==> js[k] == Picks(h, i)[k]
    ensures ShuffledFrom(s, h, i) == ShuffledBy(s, js, i + 1)
    decreases i
  {
    hide Mix, Pick, Swapped;
    if i > 0 {
      var next := Advance(h);
      assert forall k :: 0 <= k < i ==> Picks(h, i)[k] == Picks(next, i - 1)[k];
      ShuffleFollowsPicks(Swapped(s, i, js[i]), next, i - 1, js);
    }
  }

  lemma {:induction false} ShuffleIsPermutation<T>(s: seq<T>, js: seq<nat>, n: nat)
    requires n <= |s| && n <= |js| && forall k :: 0 <= k < n ==> js[k] <= k
    ensures multiset(ShuffledBy(s, js, n)) == multiset(s)
    ensures ShuffledBy(s, js, n)[n..] == s[n..]
    decreases n
  {
    if n > 1 {
      var once := Swapped(s, n - 1, js[n - 1]);
      SwapIsPermutation(s, n - 1, js[n - 1]);
      ShuffleIsPermutation(once, js, n - 1);
      assert once[n..] == s[n..];
      assert ShuffledBy(s, js, n)[n..] == ShuffledBy(once, js, n - 1)[n - 1..][1..];
      assert once[n - 1..][1..] == once[n..];
    }
  }

  lemma LastPlaceIsPicked<T>(s: seq<T>, js: seq<nat>, n: nat)
    requires 0 < n <= |s| && n <= |js| && forall k :: 0 <= k < n ==> js[k] <= k
    ensures ShuffledBy(s, js, n)[n - 1] == s[js[n - 1]]
  {
    if n > 1 {
      var once := Swapped(s, n - 1, js[n - 1]);
      ShuffleIsPermutation(once, js, n - 1);
      assert ShuffledBy(once, js, n - 1)[n - 1] == once[n - 1..][0];
    }
  }

  /** Every pick tells: two lists of picks give distinct items the same order only if they agree. */
  lemma {:induction false} PicksDetermineTheOrder<T>(s: seq<T>, a: seq<nat>, b: seq<nat>, n: nat)
    requires NoDup(s) && n <= |s| && n <= |a| && n <= |b|
    requires forall k :: 0 <= k < n ==> a[k] <= k && b[k] <= k
    requires ShuffledBy(s, a, n) == ShuffledBy(s, b, n)
    ensures forall k :: 0 <= k < n ==> a[k] == b[k]
    decreases n
  {
    if n > 0 {
      LastPlaceIsPicked(s, a, n);
      LastPlaceIsPicked(s, b, n);
      SameItemSamePlace(s, a[n - 1], b[n - 1]);
      if n > 1 {
        SwapKeepsNoDup(s, n - 1, a[n - 1]);
        PicksDetermineTheOrder(Swapped(s, n - 1, a[n - 1]), a, b, n - 1);
      }
    }
  }

  lemma SameItemSamePlace<T>(s: seq<T>, i: nat, j: nat)
    requires NoDup(s) && i < |s| && j < |s| && s[i] == s[j]
    ensures i == j
  {
  }

  lemma SwapKeepsNoDup<T>(s: seq<T>, i: nat, j: nat)
    requires NoDup(s) && i < |s| && j < |s|
    ensures NoDup(Swapped(s, i, j))
  {
  }

  lemma PermutationKeepsNoDup<T>(a: seq<T>, b: seq<T>)
    requires multiset(a) == multiset(b) && NoDup(a)
    ensures NoDup(b) && |a| == |b| && forall x :: x in a <==> x in b
  {
    assert |a| == |multiset(a)| == |b|;
    forall i, j | 0 <= i < j < |b|
      ensures b[i] != b[j]
    {
      if b[i] == b[j] {
        TwoPlacesCountTwice(b, i, j);
        OnePlaceCountsOnce(a, b[i]);
      }
    }
    forall x
      ensures x in a <==> x in b
    {
      assert x in multiset(a) <==> x in multiset(b);
    }
  }

  lemma TwoPlacesCountTwice<T>(b: seq<T>, i: nat, j: nat)
    requires i < j < |b| && b[i] == b[j]
    ensures multiset(b)[b[i]] >= 2
  {
    assert b == b[..j] + ([b[j]] + b[j + 1..]);
    assert b[..j][i] == b[i];
    assert multiset(b[..j])[b[i]] >= 1;
  }

  lemma {:induction false} OnePlaceCountsOnce<T>(a: seq<T>, x: T)
    requires NoDup(a)
    ensures multiset(a)[x] <= 1
  {
    if a != [] {
      assert a == [a[0]] + a[1..];
      OnePlaceCountsOnce(a[1..], x);
      assert a[0] !in a[1..];
    }
  }

  // ---- The question bank ----

  datatype Pool = Profile(name: string) | Shared | Psycho

  datatype Question = Question(pool: Pool, place: nat)
  {
    predicate IsTechnical() { !pool.Psycho? }
  }

  const QUESTIONS_PER_PROFILE: nat := 8
  const SHARED_QUESTIONS: nat := 44
  const PSYCHO_QUESTIONS: nat := 26
  const TECHNICAL_PER_EXAM: nat := 20
  const PSYCHO_PER_EXAM: nat := 10

  const DEFAULT_PROFILE: string := "Software Engineer"

  const PROFILE_NAMES: seq<string> := [
    DEFAULT_PROFILE, "Java / Backend", "Frontend", "Full Stack", "Data Engineer", "DevOps / Cloud",
    "Cybersecurity", "QA / Test", "Business Analyst IT", "IT Project Manager"
  ]

  const ALIASES: map<string, string> := map[
    "D\U{00e9}veloppement Logiciel" := DEFAULT_PROFILE,
    "D\U{00e9}veloppement Web Full-Stack" := "Frontend",
    "Data Engineering" := "Data Engineer",
    "DevOps & Cloud" := "DevOps / Cloud",
    "Cybers\U{00e9}curit\U{00e9}" := "Cybersecurity",
    "Product Design (UX/UI)" := "Frontend",
    "G\U{00e9}nie Logiciel" := DEFAULT_PROFILE,
    "D\U{00e9}veloppement Back-end (Java)" := "Java / Backend",
    "D\U{00e9}veloppement Front-end" := "Frontend",
    "D\U{00e9}veloppement Full-Stack" := "Full Stack",
    "Ing\U{00e9}nierie des Donn\U{00e9}es" := "Data Engineer",
    "Qualit\U{00e9} & Test (QA)" := "QA / Test",
    "Chef de Projet IT" := "IT Project Manager"
  ]

  /**
   What every JavaScript object literal inherits: looking such a name up in the bank finds something
   that is no list.
   */
  const INHERITED: set<string> := {
    "constructor", "toString", "toLocaleString", "valueOf", "hasOwnProperty", "isPrototypeOf",
    "propertyIsEnumerable", "__proto__", "__defineGetter__", "__defineSetter__", "__lookupGetter__", "__lookupSetter__"
  }

  function FirstNamed(names: seq<string>, name: string, lower: string -> string): (r: Option<string>)
    ensures r.Some? ==> r.value in names && lower(r.value) == lower(name)
    ensures r.None? ==> forall n :: n in names ==> lower(n) != lower(name)
  {
    if names == [] then None
    else if lower(names[0]) == lower(name) then Some(names[0])
    else FirstNamed(names[1..], name, lower)
  }

  /** `lower` stands for `toLowerCase`. */
  function ResolveProfile(name: Option<string>, lower: string -> string): string {
    if name.None? || name.value == "" then DEFAULT_PROFILE
    else if name.value in PROFILE_NAMES || name.value in INHERITED then name.value
    else if name.value in ALIASES then ALIASES[name.value]
    else
      var found := FirstNamed(PROFILE_NAMES, name.value, lower);
      if found.Some? then found.value else DEFAULT_PROFILE
  }

  function PoolOf(pool: Pool, size: nat): seq<Question> {
    seq(size, k requires 0 <= k < size => Question(pool, k))
  }

  datatype Failure = NotIterable

  /** `PROFILE_TECH[profile] ?? []`, then spread into a fresh list. */
  function ProfilePool(profile: string): Result<seq<Question>, Failure> {
    if profile in PROFILE_NAMES then Ok(PoolOf(Profile(profile), QUESTIONS_PER_PROFILE))
    else if profile in INHERITED then Err(NotIterable)
    else Ok([])
  }

  function UpToFirst<T>(s: seq<T>, n: nat): seq<T> {
    if |s| <= n then s else s[..n]
  }

  const PT: seq<bv16> := [58, 112, 116]
  const ST: seq<bv16> := [58, 115, 116]
  const PSY: seq<bv16> := [58, 112, 115, 121]

  predicate Spells(units: seq<bv16>, s: string) {
    |units| == |s| && forall i :: 0 <= i < |s| ==> units[i] as int == s[i] as int
  }

  /** The three streams of an exam are told apart by what is put behind the seed. */
  lemma SuffixesSpell()
    ensures Spells(PT, ":pt") && Spells(ST, ":st") && Spells(PSY, ":psy") && Spells(FOOBAR, "foobar")
  {
  }

  function ExamFrom(pool: seq<Question>, seed: seq<bv16>): seq<Question> {
    var technical := UpToFirst(Shuffled(pool, seed + PT) + Shuffled(PoolOf(Shared, SHARED_QUESTIONS), seed + ST),
        TECHNICAL_PER_EXAM);
    technical + UpToFirst(Shuffled(PoolOf(Psycho, PSYCHO_QUESTIONS), seed + PSY), PSYCHO_PER_EXAM)
  }

  function ExamForSpecialty(name: Option<string>, seed: seq<bv16>, lower: string -> string)
    : Result<seq<Question>, Failure>
  {
    var pool :- ProfilePool(ResolveProfile(name, lower));
    Ok(ExamFrom(pool, seed))
  }

  // ---- What is drawn ----

  lemma ResolvedIsKnown(name: Option<string>, lower: string -> string)
    ensures ResolveProfile(name, lower) in PROFILE_NAMES
            <==> !(name.Some? && name.value in INHERITED)
    ensures ResolveProfile(name, lower) !in PROFILE_NAMES ==> ResolveProfile(name, lower) in INHERITED
  {
    assert DEFAULT_PROFILE == PROFILE_NAMES[0];
    ProfilesAreNotInherited();
    AliasesLeadToProfiles();
  }

  lemma ProfilesAreNotInherited()
    ensures forall p :: p in PROFILE_NAMES ==> p !in INHERITED
  {
    forall k | 0 <= k < |PROFILE_NAMES|
      ensures PROFILE_NAMES[k] !in INHERITED
    {
      assert |PROFILE_NAMES[k]| > 0 && 'A' <= PROFILE_NAMES[k][0] <= 'Z';
      assert forall n :: n in INHERITED ==> |n| > 0 && !('A' <= n[0] <= 'Z');
    }
  }

  lemma AliasesLeadToProfiles()
    ensures forall a :: a in ALIASES ==> ALIASES[a] in PROFILE_NAMES
  {
    assert PROFILE_NAMES[0] == DEFAULT_PROFILE && PROFILE_NAMES[1] == "Java / Backend"
        && PROFILE_NAMES[2] == "Frontend";
    assert PROFILE_NAMES[3] == "Full Stack" && PROFILE_NAMES[4] == "Data Engineer"
        && PROFILE_NAMES[5] == "DevOps / Cloud";
    assert PROFILE_NAMES[6] == "Cybersecurity" && PROFILE_NAMES[7] == "QA / Test"
        && PROFILE_NAMES[9] == "IT Project Manager";
  }

  /** Shuffling rearranges and nothing more, whatever the seed. */
  lemma ShuffledIsPermutation<T>(items: seq<T>, seed: seq<bv16>)
    ensures multiset(Shuffled(items, seed)) == multiset(items)
  {
    hide HashFrom, Picks, ShuffledFrom, ShuffledBy;
    if items != [] {
      var h, n := HashFrom(OFFSET_BASIS, seed, 0), |items|;
      ShuffleFollowsPicks(items, h, n - 1, Picks(h, n - 1));
      ShuffleIsPermutation(items, Picks(h, n - 1), n);
    }
  }

  ghost predicate HoldsPool(s: seq<Question>, pool: Pool, size: nat) {
    && |s| == size && NoDup(s)
    && (forall k :: 0 <= k < size ==> s[k].pool == pool && s[k].place < size)
    && (forall k :: 0 <= k < size ==> Question(pool, k) in s)
  }

  lemma ShuffledPool(pool: Pool, size: nat, seed: seq<bv16>)
    ensures HoldsPool(Shuffled(PoolOf(pool, size), seed), pool, size)
  {
    ShuffledIsPermutation(PoolOf(pool, size), seed);
    RearrangedPool(pool, size, Shuffled(PoolOf(pool, size), seed));
  }

  lemma RearrangedPool(pool: Pool, size: nat, s: seq<Question>)
    requires multiset(s) == multiset(PoolOf(pool, size))
    ensures HoldsPool(s, pool, size)
  {
    var items := PoolOf(pool, size);
    PermutationKeepsNoDup(items, s);
    forall k | 0 <= k < size
      ensures s[k].pool == pool && s[k].place < size
    {
      assert s[k] in items;
    }
    forall k | 0 <= k < size
      ensures Question(pool, k) in s
    {
      assert items[k] in s;
    }
  }

  /**
   Thirty distinct questions: twenty technical ones that open with the profile's eight and go on with
   some of the 44 shared ones, then ten of the 26 psychotechnical ones.
   */
  ghost predicate WellDrawn(exam: seq<Question>, profile: string) {
    && |exam| == 30 && NoDup(exam)
    && (forall k :: 0 <= k < 8 ==> exam[k].pool == Profile(profile))
    && (forall p :: 0 <= p < 8 ==> Question(Profile(profile), p) in exam[..8])
    && (forall k :: 8 <= k < 20 ==> exam[k].pool == Shared && exam[k].place < 44)
    && (forall k :: 20 <= k < 30 ==> exam[k].pool == Psycho && exam[k].place < 26)
  }

  predicate NamesProfile(p: string, name: string, lower: string -> string) {
    p in PROFILE_NAMES && lower(p) == lower(name)
  }

  /**
   The profile that a specialty name stands for: itself, or what it is an alias of, or the first
   profile that is spelled alike but for letter case; else, as without a name, software engineering.
   */
  ghost predicate StandsFor(name: Option<string>, profile: string, lower: string -> string) {
    if name.None? || name.value == "" then profile == "Software Engineer"
    else if name.value in PROFILE_NAMES then profile == name.value
    else if name.value in ALIASES then profile == ALIASES[name.value]
    else if exists p :: NamesProfile(p, name.value, lower) then
      exists k :: 0 <= k < |PROFILE_NAMES| && PROFILE_NAMES[k] == profile && lower(profile) == lower(name.value)
                  && forall j :: 0 <= j < k ==> lower(PROFILE_NAMES[j]) != lower(name.value)
    else profile == "Software Engineer"
  }

  lemma {:induction false} FirstNamedIsFirst(names: seq<string>, name: string, lower: string -> string)
    requires FirstNamed(names, name, lower).Some?
    ensures exists k :: 0 <= k < |names| && names[k] == FirstNamed(names, name, lower).value
                        && lower(names[k]) == lower(name) && forall j :: 0 <= j < k ==> lower(names[j]) != lower(name)
  {
    if lower(names[0]) != lower(name) {
      FirstNamedIsFirst(names[1..], name, lower);
      var k :| 0 <= k < |names[1..]| && names[1..][k] == FirstNamed(names, name, lower).value
               && lower(names[1..][k]) == lower(name)
               && forall j :: 0 <= j < k ==> lower(names[1..][j]) != lower(name);
      assert names[k + 1] == names[1..][k];
      forall j | 0 <= j < k + 1
        ensures lower(names[j]) != lower(name)
      {
        assert j > 0 ==> names[j] == names[1..][j - 1];
      }
    }
  }

  lemma ResolvedStandsFor(name: Option<string>, lower: string -> string)
    requires !(name.Some? && name.value in INHERITED)
    ensures StandsFor(name, ResolveProfile(name, lower), lower)
  {
    if name.Some? && name.value != "" && name.value !in PROFILE_NAMES && name.value !in ALIASES {
      var found := FirstNamed(PROFILE_NAMES, name.value, lower);
      if found.Some? {
        assert NamesProfile(found.value, name.value, lower);
        FirstNamedIsFirst(PROFILE_NAMES, name.value, lower);
      }
    }
  }

  /** An exam is drawn for every seed and every specialty name, except the names every object inherits. */
  lemma ExamIsDrawnIff(name: Option<string>, seed: seq<bv16>, lower: string -> string)
    ensures var exam := ExamForSpecialty(name, seed, lower);
            && (exam.Ok? <==> !(name.Some? && name.value in INHERITED))
            && (exam.Ok? ==> exists profile :: StandsFor(name, profile, lower) && WellDrawn(exam.value, profile))
  {
    hide ResolveProfile, ExamFrom, WellDrawn, StandsFor;
    ResolvedIsKnown(name, lower);
    if !(name.Some? && name.value in INHERITED) {
      ResolvedStandsFor(name, lower);
    }
    var profile := ResolveProfile(name, lower);
    if profile in PROFILE_NAMES {
      ProfilesAreNotInherited();
      ProfileExamIsWellDrawn(profile, seed);
    }
  }

  lemma ProfileExamIsWellDrawn(profile: string, seed: seq<bv16>)
    ensures WellDrawn(ExamFrom(PoolOf(Profile(profile), QUESTIONS_PER_PROFILE), seed), profile)
  {
    var pool := PoolOf(Profile(profile), QUESTIONS_PER_PROFILE);
    ShuffledPool(Profile(profile), QUESTIONS_PER_PROFILE, seed + PT);
    ShuffledPool(Shared, SHARED_QUESTIONS, seed + ST);
    ShuffledPool(Psycho, PSYCHO_QUESTIONS, seed + PSY);
    ThreePartsAreWellDrawn(
      profile, Shuffled(pool, seed + PT), Shuffled(PoolOf(Shared, SHARED_QUESTIONS), seed + ST),
      Shuffled(PoolOf(Psycho, PSYCHO_QUESTIONS), seed + PSY), ExamFrom(pool, seed));
  }

  lemma ThreePartsAreWellDrawn(profile: string, own: seq<Question>, shared: seq<Question>,
          psycho: seq<Question>, exam: seq<Question>)
    requires HoldsPool(own, Profile(profile), QUESTIONS_PER_PROFILE)
    requires HoldsPool(shared, Shared, SHARED_QUESTIONS)
    requires HoldsPool(psycho, Psycho, PSYCHO_QUESTIONS)
    requires exam == UpToFirst(own + shared, TECHNICAL_PER_EXAM) + UpToFirst(psycho, PSYCHO_PER_EXAM)
    ensures WellDrawn(exam, profile)
  {
    assert exam[..QUESTIONS_PER_PROFILE] == own;
    forall k | 0 <= k < |exam|
      ensures exam[k] == if k < 8 then own[k] else if k < 20 then shared[k - 8] else psycho[k - 20]
    {
    }
  }
}
