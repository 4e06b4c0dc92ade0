/** Plate canonicalisation, the three edit-distance algorithms, and the choice of the session to charge. */
module Plates {
  import opened EditDistance
  import opened Wrappers

  // ----- canonical form -----

  function Upcase(c: char): char {
    if 'a' <= c <= 'z' then c - 'a' + 'A' else c
  }

  predicate IsPlateChar(c: char) {
    'A' <= c <= 'Z' || '0' <= c <= '9'
  }

  /** Letters a camera confuses with digits, as listed for the V2 matcher. */
  function LookAlike(c: char): char {
    match c
    case 'O' => '0'
    case 'I' => '1'
    case 'B' => '8'
    case 'S' => '5'
    case _ => c
  }

  /** The longer list used by the manual search. */
  function WideLookAlike(c: char): char {
    match c
    case 'Z' => '2'
    case 'G' => '6'
    case _ => LookAlike(c)
  }

  function MapChars(f: char -> char, s: string): (r: string)
    ensures Rewrites(f, s, r)
  {
    seq(|s|, k requires 0 <= k < |s| => f(s[k]))
  }

  function KeepPlateChars(s: string): (r: string)
    ensures |r| <= |s| && forall k :: 0 <= k < |r| ==> IsPlateChar(r[k])
  {
    if s == [] then []
    else (if IsPlateChar(s[0]) then [s[0]] else []) + KeepPlateChars(s[1..])
  }

  function NormalizePlate(raw: string): string {
    KeepPlateChars(MapChars(Upcase, raw))
  }

  function CanonicalizePlate(raw: string): string {
    MapChars(LookAlike, NormalizePlate(raw))
  }

  /** Upper case, alphanumeric, and free of the four look-alike letters. */
  ghost predicate IsCanonical(s: string) {
    forall k :: 0 <= k < |s| ==> IsPlateChar(s[k]) && LookAlike(s[k]) == s[k]
  }

  lemma {:induction false} KeepsPlateChars(s: string)
    requires forall k :: 0 <= k < |s| ==> IsPlateChar(s[k])
    ensures KeepPlateChars(s) == s
  {
    if s != [] {
      KeepsPlateChars(s[1..]);
    }
  }

  /** The canonical strings are exactly the fixed points, so canonicalising twice changes nothing. */
  lemma CanonicalFixedPoints(s: string)
    ensures IsCanonical(CanonicalizePlate(s))
    ensures IsCanonical(s) <==> CanonicalizePlate(s) == s
    ensures CanonicalizePlate(CanonicalizePlate(s)) == CanonicalizePlate(s)
  {
    forall t: string | IsCanonical(t) ensures CanonicalizePlate(t) == t {
      assert MapChars(Upcase, t) == t;
      KeepsPlateChars(t);
      assert MapChars(LookAlike, t) == t;
    }
    assert IsCanonical(CanonicalizePlate(s));
  }

  lemma KeepFirst(s: string)
    requires s != []
    ensures KeepPlateChars(s) == KeepPlateChars([s[0]]) + KeepPlateChars(s[1..])
  {
    assert [s[0]][1..] == [] && KeepPlateChars([]) == [];
  }

  lemma ConcatAssociates(a: string, b: string, c: string)
    ensures (a + b) + c == a + (b + c)
  {
  }

  lemma {:induction false} KeepOfTwo(a: string, b: string)
    ensures KeepPlateChars(a + b) == KeepPlateChars(a) + KeepPlateChars(b)
  {
    if a == [] {
      assert a + b == b;
    } else {
      KeepOfTwo(a[1..], b);
      KeepFirst(a);
      KeepFirst(a + b);
      assert (a + b)[1..] == a[1..] + b;
      ConcatAssociates(KeepPlateChars([a[0]]), KeepPlateChars(a[1..]), KeepPlateChars(b));
    }
  }

  lemma MapOfTwo(f: char -> char, a: string, b: string)
    ensures MapChars(f, a + b) == MapChars(f, a) + MapChars(f, b)
  {
  }

  /** Plates are read character by character. */
  lemma CanonicalOfTwo(a: string, b: string)
    ensures CanonicalizePlate(a + b) == CanonicalizePlate(a) + CanonicalizePlate(b)
    ensures NormalizePlate(a + b) == NormalizePlate(a) + NormalizePlate(b)
    ensures CanonicalizePlate([]) == [] == NormalizePlate([])
  {
    MapOfTwo(Upcase, a, b);
    KeepOfTwo(MapChars(Upcase, a), MapChars(Upcase, b));
    MapOfTwo(LookAlike, NormalizePlate(a), NormalizePlate(b));
  }

  /** Digits and capitals read as they are and small letters as capitals, but O, I, B and S read as the digits they look
      like; everything else is skipped. */
  lemma CanonicalCharacter(c: char)
    ensures CanonicalizePlate([c]) ==
              if c == 'O' || c == 'o' then "0" else if c == 'I' || c == 'i' then "1"
              else if c == 'B' || c == 'b' then "8" else if c == 'S' || c == 's' then "5"
              else if '0' <= c <= '9' || 'A' <= c <= 'Z' then [c]
              else if 'a' <= c <= 'z' then [(c as int - 32) as char] else []
    ensures NormalizePlate([c]) ==
              if '0' <= c <= '9' || 'A' <= c <= 'Z' then [c]
              else if 'a' <= c <= 'z' then [(c as int - 32) as char] else []
  {
    assert MapChars(Upcase, [c]) == [Upcase(c)];
    assert KeepPlateChars([Upcase(c)][1..]) == [];
    var kept := NormalizePlate([c]);
    assert kept == if IsPlateChar(Upcase(c)) then [Upcase(c)] else [];
    assert MapChars(LookAlike, kept) == if kept == [] then [] else [LookAlike(kept[0])];
  }

  /** The manual search also takes Z for 2 and G for 6. */
  lemma WideCharacter(c: char)
    ensures WideLookAlike(c) ==
              if c == 'O' then '0' else if c == 'I' then '1' else if c == 'B' then '8' else if c == 'S' then '5'
              else if c == 'Z' then '2' else if c == 'G' then '6' else c
  {
  }

  // ----- plate distance -----

  /** What plateDistance computes. */
  function Distance(left: string, right: string): nat {
    Levenshtein(CanonicalizePlate(left), CanonicalizePlate(right))
  }

  /** The rolling-row loop: `previous` is one finished row of the table. */
  method PlateDistance(left: string, right: string) returns (distance: nat)
    ensures distance == Distance(left, right)
  {
    var canonicalLeft, canonicalRight := CanonicalizePlate(left), CanonicalizePlate(right);
    var previous: seq<nat> := seq(|canonicalRight| + 1, index requires 0 <= index => index);
    var leftIndex := 1;
    while leftIndex <= |canonicalLeft|
      invariant 1 <= leftIndex <= |canonicalLeft| + 1
      invariant IsRow(previous, canonicalLeft, canonicalRight, leftIndex - 1, |canonicalRight| + 1)
    {
      var current: seq<nat> := [leftIndex];
      var rightIndex := 1;
      while rightIndex <= |canonicalRight|
        invariant 1 <= rightIndex <= |canonicalRight| + 1
        invariant IsRow(current, canonicalLeft, canonicalRight, leftIndex, rightIndex)
      {
        var substitutionCost := if canonicalLeft[leftIndex - 1] == canonicalRight[rightIndex - 1] then 0 else 1;
        var cell := Min3(current[rightIndex - 1] + 1, previous[rightIndex] + 1,
                         previous[rightIndex - 1] + substitutionCost);
        assert cell == Lev(canonicalLeft, canonicalRight, leftIndex, rightIndex);
        current := current + [cell];
        rightIndex := rightIndex + 1;
      }
      previous := current;
      leftIndex := leftIndex + 1;
    }
    distance := previous[|canonicalRight|];
  }

  ghost predicate IsRow(row: seq<nat>, a: string, b: string, i: nat, n: nat)
    requires i <= |a| && n <= |b| + 1
  {
    |row| == n && forall j :: 0 <= j < n ==> row[j] == Lev(a, b, i, j)
  }

  /** plateDistance is a pseudometric on plates, measured between canonical forms. */
  lemma DistanceIsPseudometric(a: string, b: string, c: string)
    ensures Distance(a, b) == Distance(b, a)
    ensures Distance(a, c) <= Distance(a, b) + Distance(b, c)
    ensures Distance(a, b) == 0 <==> CanonicalizePlate(a) == CanonicalizePlate(b)
    ensures Distance(CanonicalizePlate(a), b) == Distance(a, b)
    ensures Distance(a, b) <= Levenshtein(NormalizePlate(a), NormalizePlate(b))
  {
    LevenshteinIsMetric(CanonicalizePlate(a), CanonicalizePlate(b), CanonicalizePlate(c));
    CanonicalFixedPoints(a);
    var x, y := NormalizePlate(a), NormalizePlate(b);
    RewritingContractsLev(LookAlike, x, y, CanonicalizePlate(a), CanonicalizePlate(b), |x|, |y|);
  }

  /** It counts single-character edits between the canonical forms, the fewest that do. */
  lemma DistanceIsLeastEdits(a: string, b: string)
    ensures exists path :: EditPath(path, CanonicalizePlate(a), CanonicalizePlate(b)) && |path| - 1 == Distance(a, b)
    ensures forall path :: EditPath(path, CanonicalizePlate(a), CanonicalizePlate(b)) ==> Distance(a, b) <= |path| - 1
  {
    LevenshteinIsLeastEdits(CanonicalizePlate(a), CanonicalizePlate(b));
  }

  // ----- the matrix algorithm -----

  /** The full matrix of restricted Damerau-Levenshtein distances, filled row by row. */
  method DamerauLevenshtein(left: string, right: string) returns (distance: nat)
    ensures distance == RestrictedDamerau(left, right)
  {
    var matrix := new int[|left| + 1, |right| + 1]((i, j) => 0);
    var i := 0;
    while i <= |left|
      invariant 0 <= i <= |left| + 1
      invariant forall k :: 0 <= k < i ==> matrix[k, 0] == k
    {
      matrix[i, 0] := i;
      i := i + 1;
    }
    var j := 0;
    while j <= |right|
      invariant 0 <= j <= |right| + 1
      invariant forall k :: 0 <= k <= |left| ==> matrix[k, 0] == k
      invariant forall k :: 0 <= k < j ==> matrix[0, k] == k
    {
      matrix[0, j] := j;
      j := j + 1;
    }
    i := 1;
    while i <= |left|
      invariant 1 <= i <= |left| + 1
      invariant Filled(matrix, left, right, i, 1)
    {
      j := 1;
      while j <= |right|
        invariant 1 <= j <= |right| + 1
        invariant Filled(matrix, left, right, i, j)
      {
        var cost := if left[i - 1] == right[j - 1] then 0 else 1;
        var cell := Min3(matrix[i - 1, j] + 1, matrix[i, j - 1] + 1, matrix[i - 1, j - 1] + cost);
        if i > 1 && j > 1 && left[i - 1] == right[j - 2] && left[i - 2] == right[j - 1] {
          cell := Min(cell, matrix[i - 2, j - 2] + 1);
        }
        assert cell == Osa(left, right, i, j);
        matrix[i, j] := cell;
        j := j + 1;
      }
      i := i + 1;
    }
    distance := matrix[|left|, |right|];
  }

  /** The border, every row above `row`, and `row` itself up to column `column` hold their distances. */
  ghost predicate Filled(matrix: array2<int>, left: string, right: string, row: nat, column: nat)
    reads matrix
  {
    && matrix.Length0 == |left| + 1 && matrix.Length1 == |right| + 1
    && forall k, l :: 0 <= k <= |left| && 0 <= l <= |right| && (k < row || (k == row && l < column) || l == 0) ==>
         matrix[k, l] == Osa(left, right, k, l)
  }

  /** Scores in hundredths of a percent, None when the plates are too far apart. */
  function SimilarityScore(input: string, candidate: string): Option<int> {
    var normalizedInput, normalizedCandidate := NormalizePlate(input), NormalizePlate(candidate);
    var canonicalInput, canonicalCandidate :=
      MapChars(WideLookAlike, normalizedInput), MapChars(WideLookAlike, normalizedCandidate);
    if normalizedInput == [] || normalizedCandidate == [] then None
    else if normalizedInput == normalizedCandidate then Some(10000)
    else if canonicalInput == canonicalCandidate then Some(9800)
    else
      var distance := Min(RestrictedDamerau(normalizedInput, normalizedCandidate),
                          RestrictedDamerau(canonicalInput, canonicalCandidate));
      if distance > 2 then None
      else Some(RoundedShare(10000, distance, Max(Max(|normalizedInput|, |normalizedCandidate|), 1)))
  }

  /** scale * (1 - distance / length), rounded half up as Math.round does; negative beyond the length. */
  function RoundedShare(scale: nat, distance: nat, length: nat): int
    requires length > 0
  {
    (2 * scale * (length - distance) + length) / (2 * length)
  }

  /** It is the nearest whole number, the greater one in the middle. */
  lemma RoundedShareIsNearest(scale: nat, distance: nat, length: nat)
    requires length > 0
    ensures var r := RoundedShare(scale, distance, length);
            2 * r * length <= 2 * scale * (length - distance) + length < 2 * (r + 1) * length
  {
    var n, d := 2 * scale * (length - distance) + length, 2 * length;
    assert n == (n / d) * d + n % d;
  }

  lemma QuotientAtLeast(q: int, r: int, d: int, t: int)
    requires 0 <= r < d
    ensures q >= t <==> q * d + r >= t * d
  {
    if q >= t {
      assert (q - t) * d >= 0;
    } else {
      assert (t - q - 1) * d >= 0;
    }
  }

  lemma DivAtLeast(n: int, d: int, t: int)
    requires d > 0
    ensures n / d >= t <==> n >= t * d
  {
    QuotientAtLeast(n / d, n % d, d, t);
  }

  /** The manual search is symmetric, and of the two distances it compares
      the one between look-alike forms always decides. */
  lemma SimilarityScoreFacts(a: string, b: string)
    ensures SimilarityScore(a, b) == SimilarityScore(b, a)
    ensures var x, y := NormalizePlate(a), NormalizePlate(b);
            RestrictedDamerau(MapChars(WideLookAlike, x), MapChars(WideLookAlike, y)) <= RestrictedDamerau(x, y)
  {
    var x, y := NormalizePlate(a), NormalizePlate(b);
    var x', y' := MapChars(WideLookAlike, x), MapChars(WideLookAlike, y);
    RewritingContractsOsa(WideLookAlike, x, y, x', y', |x|, |y|);
    DamerauBetween(x, y);
    DamerauBetween(x', y');
  }

  /** A score is given to two plates exactly if neither is empty and they are at most two edits apart, look-alikes apart
      from none: full marks for equal plates, 98 for look-alikes, else the share of the longer plate that is left. */
  lemma SimilarityScoreMeans(a: string, b: string)
    ensures var x, y := NormalizePlate(a), NormalizePlate(b);
            var distance := RestrictedDamerau(MapChars(WideLookAlike, x), MapChars(WideLookAlike, y));
            SimilarityScore(a, b) ==
              if x == [] || y == [] || distance > 2 then None
              else if x == y then Some(10000)
              else if distance == 0 then Some(9800)
              else Some(RoundedShare(10000, distance, Max(|x|, |y|)))
  {
    SimilarityScoreFacts(a, b);
    var x, y := NormalizePlate(a), NormalizePlate(b);
    DamerauBetween(MapChars(WideLookAlike, x), MapChars(WideLookAlike, y));
    LevenshteinIsMetric(MapChars(WideLookAlike, x), MapChars(WideLookAlike, y), []);
  }

  /** Equal plates, look-alike plates and merely close plates form three separate tiers
      exactly while the longer plate stays under 50 characters. */
  lemma SimilarityTiers(a: string, b: string)
    ensures var x, y := NormalizePlate(a), NormalizePlate(b);
            var x', y' := MapChars(WideLookAlike, x), MapChars(WideLookAlike, y);
            x != [] && y != [] ==>
              && (Max(|x|, |y|) < 50 ==>
                    && (SimilarityScore(a, b) == Some(10000) <==> x == y)
                    && (SimilarityScore(a, b) == Some(9800) <==> x != y && x' == y')
                    && (x' != y' && SimilarityScore(a, b).Some? ==> SimilarityScore(a, b).value < 9800))
              && (Max(|x|, |y|) >= 50 && RestrictedDamerau(x', y') == 1 ==>
                    SimilarityScore(a, b).Some? && SimilarityScore(a, b).value >= 9800)
  {
    SimilarityScoreFacts(a, b);
    var x, y := NormalizePlate(a), NormalizePlate(b);
    var x', y' := MapChars(WideLookAlike, x), MapChars(WideLookAlike, y);
    DamerauBetween(x', y');
    LevenshteinIsMetric(x', y', y');
    var length, distance := Max(|x|, |y|), RestrictedDamerau(x', y');
    if length > 0 {
      assert distance <= length;
      DivAtLeast(20000 * (length - distance) + length, 2 * length, 9800);
    }
  }

  function SimilarityPercent(left: string, right: string): int {
    var length := Max(|CanonicalizePlate(left)|, |CanonicalizePlate(right)|);
    if length == 0 then 100
    else Max(0, Min(100, RoundedShare(100, Distance(left, right), length)))
  }

  /** A rounded percentage would turn negative for a distance beyond the length by more than half a percent. */
  lemma ShareBounds(distance: nat, length: nat)
    requires length > 0
    ensures RoundedShare(100, distance, length) <= 100
    ensures RoundedShare(100, distance, length) < 0 <==> 200 * (distance - length) > length
  {
    var n := 200 * (length - distance) + length;
    DivAtLeast(n, 2 * length, 101);
    DivAtLeast(n, 2 * length, 0);
  }

  /** The distance never exceeds the longer canonical form, so the clamp never acts; and for plates under
      200 characters only equal canonical forms score 100. */
  lemma SimilarityPercentFacts(left: string, right: string)
    ensures var length := Max(|CanonicalizePlate(left)|, |CanonicalizePlate(right)|);
            && Distance(left, right) <= length
            && (length == 0 ==> SimilarityPercent(left, right) == 100)
            && (length > 0 ==>
                  && 0 <= RoundedShare(100, Distance(left, right), length) <= 100
                  && SimilarityPercent(left, right) == RoundedShare(100, Distance(left, right), length))
            && (0 < length < 200 ==>
                  (SimilarityPercent(left, right) == 100 <==> CanonicalizePlate(left) == CanonicalizePlate(right)))
    ensures SimilarityPercent(left, right) == SimilarityPercent(right, left)
  {
    var x, y := CanonicalizePlate(left), CanonicalizePlate(right);
    LevenshteinIsMetric(x, y, y);
    var length, distance := Max(|x|, |y|), Distance(left, right);
    if length > 0 {
      ShareBounds(distance, length);
      DivAtLeast(200 * (length - distance) + length, 2 * length, 100);
    }
  }

  // ----- the two-pointer test -----

  /** Returns true exactly for a single edit, hence false on equal strings. */
  method EditDistanceAtMostOne(left: string, right: string) returns (one: bool)
    ensures one <==> Levenshtein(left, right) == 1
  {
    OneEditIffDistanceOne(left, right);
    if |left| - |right| > 1 || |right| - |left| > 1 {
      return false;
    }
    var leftIndex, rightIndex, differences := 0, 0, 0;
    ghost var k := 0; // the first mismatch, once there is one
    while leftIndex < |left| && rightIndex < |right|
      invariant 0 <= leftIndex <= |left| && 0 <= rightIndex <= |right| && 0 <= differences <= 1
      invariant Aligned(left, right, leftIndex, rightIndex, differences, k)
      decreases |left| + |right| - leftIndex - rightIndex
    {
      if left[leftIndex] == right[rightIndex] {
        AlignedMatch(left, right, leftIndex, rightIndex, differences, k);
        leftIndex, rightIndex := leftIndex + 1, rightIndex + 1;
      } else {
        if differences == 1 {
          SecondMismatch(left, right, leftIndex, rightIndex, k);
          return false;
        }
        k := leftIndex;
        differences := differences + 1;
        if |left| > |right| {
          leftIndex := leftIndex + 1;
        } else if |right| > |left| {
          rightIndex := rightIndex + 1;
        } else {
          leftIndex, rightIndex := leftIndex + 1, rightIndex + 1;
        }
      }
    }
    AlignedDecides(left, right, leftIndex, rightIndex, differences, k);
    if leftIndex < |left| || rightIndex < |right| {
      differences := differences + 1;
    }
    one := differences == 1;
  }

  /** Everything before the two pointers agrees, apart from one edit at k once differences is 1. */
  ghost predicate Aligned(a: string, b: string, i: nat, j: nat, differences: nat, k: nat) {
    && i <= |a| && j <= |b|
    && (differences == 0 ==> i == j && a[..i] == b[..j])
    && (differences == 1 ==>
          && k < |a| + 1 && k < |b| + 1 && a[..k] == b[..k]
          && (|a| == |b| ==> i == j && k < i && a[k] != b[k] && a[k + 1..i] == b[k + 1..j])
          && (|a| > |b| ==> i == j + 1 && k < i && (k < |b| ==> a[k] != b[k]) && a[k + 1..i] == b[k..j])
          && (|b| > |a| ==> j == i + 1 && k < j && (k < |a| ==> a[k] != b[k]) && a[k..i] == b[k + 1..j]))
  }

  lemma AlignedMatch(a: string, b: string, i: nat, j: nat, differences: nat, k: nat)
    requires i < |a| && j < |b| && a[i] == b[j] && Aligned(a, b, i, j, differences, k)
    ensures Aligned(a, b, i + 1, j + 1, differences, k)
  {
    assert forall m: nat :: m <= i ==> a[m..i + 1] == a[m..i] + [a[i]];
    assert forall m: nat :: m <= j ==> b[m..j + 1] == b[m..j] + [b[j]];
  }

  lemma SecondMismatch(a: string, b: string, i: nat, j: nat, k: nat)
    requires -1 <= |a| - |b| <= 1
    requires i < |a| && j < |b| && a[i] != b[j] && Aligned(a, b, i, j, 1, k)
    ensures !OneEdit(a, b)
  {
    forall m: nat | m < |a| == |b| ensures !SubstitutesAt(a, b, m) {
      if m < i {
        assert a[m + 1..][i - m - 1] == a[i] && b[m + 1..][i - m - 1] == b[j];
      } else {
        assert a[..m][k] == a[k] && b[..m][k] == b[k];
      }
    }
    if |a| > |b| {
      NoInsertion(a, b, i, j, k);
    } else if |b| > |a| {
      NoInsertion(b, a, j, i, k);
    }
  }

  /** A mismatch at k and one on the shifted alignment rule out any insertion point. */
  lemma NoInsertion(a: string, b: string, i: nat, j: nat, k: nat)
    requires |a| == |b| + 1 && j < |b| && i == j + 1 && a[i] != b[j]
    requires k <= j && a[k] != b[k]
    ensures forall m: nat :: !InsertsAt(a, b, m)
  {
    forall m: nat | m <= |b| ensures !InsertsAt(a, b, m) {
      if m <= j {
        assert a[m + 1..][j - m] == a[i] && b[m..][j - m] == b[j];
      } else {
        assert a[..m][k] == a[k] && b[..m][k] == b[k];
      }
    }
  }

  lemma AlignedDecides(a: string, b: string, i: nat, j: nat, differences: nat, k: nat)
    requires -1 <= |a| - |b| <= 1 && differences <= 1
    requires i <= |a| && j <= |b| && (i == |a| || j == |b|) && Aligned(a, b, i, j, differences, k)
    ensures OneEdit(a, b) <==> (differences + (if i < |a| || j < |b| then 1 else 0)) == 1
  {
    if differences == 0 {
      if |a| == |b| {
        assert a == a[..i] && b == b[..j];
        LevenshteinIsMetric(a, b, b);
        OneEditIffDistanceOne(a, b);
      } else if |a| > |b| {
        assert a[i + 1..] == [] == b[i..];
        assert InsertsAt(a, b, i);
      } else {
        assert b[j + 1..] == [] == a[j..];
        assert InsertsAt(b, a, j);
      }
    } else if |a| == |b| {
      assert a[k + 1..] == a[k + 1..i] && b[k + 1..] == b[k + 1..j];
      assert SubstitutesAt(a, b, k);
    } else if |a| > |b| {
      assert a[k + 1..] == a[k + 1..i] && b[k..] == b[k..j];
      assert InsertsAt(a, b, k);
    } else {
      assert b[k + 1..] == b[k + 1..j] && a[k..] == a[k..i];
      assert InsertsAt(b, a, k);
    }
  }

  // ----- fuzzy matching -----

  const MIN_FUZZY_PLATE_LENGTH := 6

  predicate IsFuzzyPlateMatch(detectedPlate: string, candidatePlate: Option<string>) {
    && candidatePlate.Some? && candidatePlate.value != ""
    && |detectedPlate| >= MIN_FUZZY_PLATE_LENGTH && |candidatePlate.value| >= MIN_FUZZY_PLATE_LENGTH
    && Levenshtein(detectedPlate, candidatePlate.value) == 1
  }

  /** On canonical plates the two matchers agree. */
  lemma FuzzyAgreesOnCanonical(a: string, b: string)
    requires IsCanonical(a) && IsCanonical(b)
    ensures IsFuzzyPlateMatch(a, Some(b)) <==> |a| >= 6 && |b| >= 6 && Distance(a, b) == 1
    ensures IsFuzzyPlateMatch(a, Some(b)) == IsFuzzyPlateMatch(b, Some(a))
  {
    CanonicalFixedPoints(a);
    CanonicalFixedPoints(b);
    LevenshteinIsMetric(a, b, b);
  }

  /** On normalised plates a fuzzy match is at plate distance at most one, and at distance one exactly when the
      canonical forms differ: the matchers part just where the one edit swaps look-alikes. */
  lemma FuzzyOnNormalized(a: string, b: string)
    requires NormalizePlate(a) == a && NormalizePlate(b) == b && IsFuzzyPlateMatch(a, Some(b))
    ensures Distance(a, b) <= 1
    ensures Distance(a, b) == 1 <==> CanonicalizePlate(a) != CanonicalizePlate(b)
  {
    DistanceIsPseudometric(a, b, b);
  }

  /** That happens: a look-alike letter is one edit to the one, nothing to the other. */
  lemma FuzzyDiffersOffCanonical(rest: string)
    requires IsCanonical(rest) && |rest| >= 5
    ensures IsFuzzyPlateMatch("O" + rest, Some("0" + rest))
    ensures Distance("O" + rest, "0" + rest) == 0
  {
    var a, b := "O" + rest, "0" + rest;
    assert a[1..] == rest == b[1..];
    assert SubstitutesAt(a, b, 0);
    OneEditIffDistanceOne(a, b);
    assert IsCanonical(b);
    CanonicalFixedPoints(b);
    assert MapChars(Upcase, a) == a;
    KeepsPlateChars(a);
    assert CanonicalizePlate(a) == b;
    LevenshteinIsMetric(b, b, b);
  }

  // ----- the V2 matcher -----

  datatype ParkedCar = ParkedCar(id: nat, plate: string, enteredAt: int)

  function Filter<T>(p: T -> bool, s: seq<T>): seq<T> {
    if s == [] then []
    else (if p(s[0]) then [s[0]] else []) + Filter(p, s[1..])
  }

  predicate Eligible(car: ParkedCar, cameraEventAt: int) {
    car.enteredAt < cameraEventAt && |CanonicalizePlate(car.plate)| >= 3
  }

  function MatchesAtDistance(cars: seq<ParkedCar>, plate: string, cameraEventAt: int, distance: nat): seq<ParkedCar> {
    Filter((car: ParkedCar) => Eligible(car, cameraEventAt) && Distance(plate, car.plate) == distance, cars)
  }

  function FindV2ActiveSession(cars: seq<ParkedCar>, detectedPlate: string, cameraEventAt: int): Option<ParkedCar> {
    var canonicalDetectedPlate := CanonicalizePlate(detectedPlate);
    if |canonicalDetectedPlate| < 3 then None
    else
      var canonicalMatches := MatchesAtDistance(cars, canonicalDetectedPlate, cameraEventAt, 0);
      if |canonicalMatches| > 0 then
        if |canonicalMatches| == 1 then Some(canonicalMatches[0]) else None
      else
        var distanceOneMatches := MatchesAtDistance(cars, canonicalDetectedPlate, cameraEventAt, 1);
        if |distanceOneMatches| == 1 then Some(distanceOneMatches[0]) else None
  }

  ghost predicate OnlyMatch<T>(p: T -> bool, s: seq<T>, k: nat) {
    k < |s| && p(s[k]) && forall j :: 0 <= j < |s| && j != k ==> !p(s[j])
  }

  lemma {:induction false} FilterCounts<T>(p: T -> bool, s: seq<T>)
    ensures Filter(p, s) == [] <==> forall j :: 0 <= j < |s| ==> !p(s[j])
    ensures |Filter(p, s)| == 1 <==> exists k: nat :: OnlyMatch(p, s, k)
    ensures forall k: nat :: OnlyMatch(p, s, k) ==> Filter(p, s) == [s[k]]
  {
    if s != [] {
      var rest := s[1..];
      FilterCounts(p, rest);
      assert forall j :: 0 <= j < |rest| ==> rest[j] == s[j + 1];
      assert forall j :: 0 < j < |s| ==> s[j] == rest[j - 1];
      forall k: nat | OnlyMatch(p, s, k) ensures Filter(p, s) == [s[k]] {
        if k > 0 {
          assert OnlyMatch(p, rest, k - 1);
        }
      }
      if |Filter(p, s)| == 1 {
        if p(s[0]) {
          assert OnlyMatch(p, s, 0);
        } else {
          var k: nat :| OnlyMatch(p, rest, k);
          assert OnlyMatch(p, s, k + 1);
        }
      }
    }
  }

  /** A car that came in before the camera event, with a plate long enough to tell. */
  ghost predicate InRunning(car: ParkedCar, at: int) {
    car.enteredAt < at && |CanonicalizePlate(car.plate)| >= 3
  }

  /** Car k is strictly nearer to the plate than every other eligible car. */
  ghost predicate StrictlyNearest(cars: seq<ParkedCar>, plate: string, cameraEventAt: int, k: nat) {
    && k < |cars| && InRunning(cars[k], cameraEventAt)
    && forall j :: 0 <= j < |cars| && j != k && InRunning(cars[j], cameraEventAt) ==>
         Distance(plate, cars[k].plate) < Distance(plate, cars[j].plate)
  }

  ghost predicate OnlyAtDistance(cars: seq<ParkedCar>, plate: string, cameraEventAt: int, distance: nat, k: nat) {
    && k < |cars| && Eligible(cars[k], cameraEventAt) && Distance(plate, cars[k].plate) == distance
    && forall j :: 0 <= j < |cars| && j != k && Eligible(cars[j], cameraEventAt) ==>
         Distance(plate, cars[j].plate) != distance
  }

  lemma MatchesCounted(cars: seq<ParkedCar>, plate: string, cameraEventAt: int, distance: nat)
    ensures var found := MatchesAtDistance(cars, plate, cameraEventAt, distance);
            && (found == [] <==> forall j :: 0 <= j < |cars| && Eligible(cars[j], cameraEventAt) ==>
                  Distance(plate, cars[j].plate) != distance)
            && (|found| == 1 ==> exists k: nat :: OnlyAtDistance(cars, plate, cameraEventAt, distance, k))
            && (forall k: nat :: OnlyAtDistance(cars, plate, cameraEventAt, distance, k) ==> found == [cars[k]])
  {
    var p := (car: ParkedCar) => Eligible(car, cameraEventAt) && Distance(plate, car.plate) == distance;
    FilterCounts(p, cars);
    assert forall k: nat :: OnlyAtDistance(cars, plate, cameraEventAt, distance, k) <==> OnlyMatch(p, cars, k);
    if |Filter(p, cars)| == 1 {
      var k: nat :| OnlyMatch(p, cars, k);
      assert OnlyAtDistance(cars, plate, cameraEventAt, distance, k);
    }
  }

  /** The car the V2 matcher should take: strictly nearest and at most one edit away from a plate long enough. */
  ghost predicate Unmistakable(cars: seq<ParkedCar>, plate: string, cameraEventAt: int, k: nat) {
    && |CanonicalizePlate(plate)| >= 3 && StrictlyNearest(cars, plate, cameraEventAt, k)
    && Distance(plate, cars[k].plate) <= 1
  }

  lemma V2TakesUnmistakable(cars: seq<ParkedCar>, plate: string, cameraEventAt: int, k: nat)
    requires Unmistakable(cars, plate, cameraEventAt, k)
    ensures FindV2ActiveSession(cars, plate, cameraEventAt) == Some(cars[k])
  {
    var canonical := CanonicalizePlate(plate);
    CanonicalFixedPoints(plate);
    MatchesCounted(cars, canonical, cameraEventAt, 0);
    MatchesCounted(cars, canonical, cameraEventAt, 1);
    assert OnlyAtDistance(cars, canonical, cameraEventAt, Distance(plate, cars[k].plate), k);
  }

  lemma V2TakesOnlyUnmistakable(cars: seq<ParkedCar>, plate: string, cameraEventAt: int) returns (n: nat)
    requires FindV2ActiveSession(cars, plate, cameraEventAt).Some?
    ensures Unmistakable(cars, plate, cameraEventAt, n)
    ensures FindV2ActiveSession(cars, plate, cameraEventAt) == Some(cars[n])
  {
    var canonical := CanonicalizePlate(plate);
    CanonicalFixedPoints(plate);
    MatchesCounted(cars, canonical, cameraEventAt, 0);
    MatchesCounted(cars, canonical, cameraEventAt, 1);
    var d := if MatchesAtDistance(cars, canonical, cameraEventAt, 0) != [] then 0 else 1;
    n :| OnlyAtDistance(cars, canonical, cameraEventAt, d, n);
  }

  /** The V2 matcher takes a car exactly when there is such a car; an ambiguity never charges anybody. */
  lemma V2ChoosesStrictlyNearest(cars: seq<ParkedCar>, plate: string, cameraEventAt: int, car: ParkedCar)
    ensures FindV2ActiveSession(cars, plate, cameraEventAt) == Some(car) <==>
            exists k: nat :: Unmistakable(cars, plate, cameraEventAt, k) && cars[k] == car
  {
    if k: nat :| Unmistakable(cars, plate, cameraEventAt, k) && cars[k] == car {
      V2TakesUnmistakable(cars, plate, cameraEventAt, k);
    }
    if FindV2ActiveSession(cars, plate, cameraEventAt) == Some(car) {
      var n := V2TakesOnlyUnmistakable(cars, plate, cameraEventAt);
    }
  }
}
