/** Edit distances between strings: recurrences over prefix lengths, their algebra, and an
    independent reading of the Levenshtein distance as a least number of single edits. */
module EditDistance {

  function Min(x: int, y: int): int {
    if x <= y then x else y
  }

  function Min3(x: int, y: int, z: int): int {
    if x <= y && x <= z then x else if y <= z then y else z
  }

  function Max(x: int, y: int): int {
    if x >= y then x else y
  }

  function Cost(c: char, d: char): int {
    if c == d then 0 else 1
  }

  /** Levenshtein distance between a[..i] and b[..j]. */
  function Lev(a: string, b: string, i: nat, j: nat): nat
    requires i <= |a| && j <= |b|
    decreases i + j, 1
  {
    if i == 0 then j
    else if j == 0 then i
    else LevLast(a, b, i, j)
  }

  /** The choice at the two last characters: insert, delete, or keep/substitute. */
  function LevLast(a: string, b: string, i: nat, j: nat): nat
    requires 0 < i <= |a| && 0 < j <= |b|
    decreases i + j, 0
  {
    Min3(Lev(a, b, i, j - 1) + 1,
         Lev(a, b, i - 1, j) + 1,
         Lev(a, b, i - 1, j - 1) + Cost(a[i - 1], b[j - 1]))
  }

  function Levenshtein(a: string, b: string): nat {
    Lev(a, b, |a|, |b|)
  }

  /** Restricted Damerau-Levenshtein distance between a[..i] and b[..j]:
      adjacent characters may be swapped, but a swapped pair is not edited again. */
  function Osa(a: string, b: string, i: nat, j: nat): nat
    requires i <= |a| && j <= |b|
    decreases i + j, 1
  {
    if i == 0 then j
    else if j == 0 then i
    else OsaLast(a, b, i, j)
  }

  function OsaLast(a: string, b: string, i: nat, j: nat): nat
    requires 0 < i <= |a| && 0 < j <= |b|
    decreases i + j, 0
  {
    var plain := Min3(Osa(a, b, i - 1, j) + 1,
                      Osa(a, b, i, j - 1) + 1,
                      Osa(a, b, i - 1, j - 1) + Cost(a[i - 1], b[j - 1]));
    if Swappable(a, b, i, j) then Min(plain, Osa(a, b, i - 2, j - 2) + 1) else plain
  }

  predicate Swappable(a: string, b: string, i: nat, j: nat)
    requires i <= |a| && j <= |b|
  {
    i > 1 && j > 1 && a[i - 1] == b[j - 2] && a[i - 2] == b[j - 1]
  }

  function RestrictedDamerau(a: string, b: string): nat {
    Osa(a, b, |a|, |b|)
  }

  // ----- Levenshtein is a metric on strings -----

  lemma {:induction false} LevSymmetric(a: string, b: string, i: nat, j: nat)
    requires i <= |a| && j <= |b|
    ensures Lev(a, b, i, j) == Lev(b, a, j, i)
    decreases i + j
  {
    if i > 0 && j > 0 {
      LevSymmetric(a, b, i, j - 1);
      LevSymmetric(a, b, i - 1, j);
      LevSymmetric(a, b, i - 1, j - 1);
    }
  }

  lemma {:induction false} LevBounds(a: string, b: string, i: nat, j: nat)
    requires i <= |a| && j <= |b|
    ensures i - j <= Lev(a, b, i, j) && j - i <= Lev(a, b, i, j) <= Max(i, j)
    decreases i + j
  {
    if i > 0 && j > 0 {
      LevBounds(a, b, i, j - 1);
      LevBounds(a, b, i - 1, j);
      LevBounds(a, b, i - 1, j - 1);
    }
  }

  lemma {:induction false} LevZero(a: string, b: string, i: nat, j: nat)
    requires i <= |a| && j <= |b|
    ensures Lev(a, b, i, j) == 0 <==> a[..i] == b[..j]
    decreases i + j
  {
    if i > 0 && j > 0 {
      LevZero(a, b, i - 1, j - 1);
      assert a[..i] == a[..i - 1] + [a[i - 1]] && b[..j] == b[..j - 1] + [b[j - 1]];
    }
  }

  lemma {:induction false} LevTriangle(a: string, b: string, c: string, i: nat, j: nat, k: nat)
    requires i <= |a| && j <= |b| && k <= |c|
    ensures Lev(a, c, i, k) <= Lev(a, b, i, j) + Lev(b, c, j, k)
    decreases i + j + k
  {
    LevBounds(a, b, i, j);
    LevBounds(b, c, j, k);
    LevBounds(a, c, i, k);
    if i > 0 && j > 0 && k > 0 {
      if Lev(a, b, i, j) == Lev(a, b, i - 1, j) + 1 {
        LevTriangle(a, b, c, i - 1, j, k);
      } else if Lev(b, c, j, k) == Lev(b, c, j, k - 1) + 1 {
        LevTriangle(a, b, c, i, j, k - 1);
      } else if Lev(a, b, i, j) == Lev(a, b, i, j - 1) + 1 {
        if Lev(b, c, j, k) == Lev(b, c, j - 1, k) + 1 {
          LevTriangle(a, b, c, i, j - 1, k);
        } else {
          LevTriangle(a, b, c, i, j - 1, k - 1);
        }
      } else if Lev(b, c, j, k) == Lev(b, c, j - 1, k) + 1 {
        LevTriangle(a, b, c, i - 1, j - 1, k);
      } else {
        LevTriangle(a, b, c, i - 1, j - 1, k - 1);
      }
    }
  }

  lemma LevenshteinIsMetric(a: string, b: string, c: string)
    ensures Levenshtein(a, b) == Levenshtein(b, a)
    ensures Levenshtein(a, b) == 0 <==> a == b
    ensures Levenshtein(a, c) <= Levenshtein(a, b) + Levenshtein(b, c)
    ensures Max(|a|, |b|) - Min(|a|, |b|) <= Levenshtein(a, b) <= Max(|a|, |b|)
  {
    LevSymmetric(a, b, |a|, |b|);
    LevZero(a, b, |a|, |b|);
    assert a[..|a|] == a && b[..|b|] == b;
    LevTriangle(a, b, c, |a|, |b|, |c|);
    LevBounds(a, b, |a|, |b|);
  }

  // ----- Levenshtein as a least number of edits -----

  ghost predicate SubstitutesAt(a: string, b: string, k: nat) {
    k < |a| == |b| && a[..k] == b[..k] && a[k] != b[k] && a[k + 1..] == b[k + 1..]
  }

  /** a is b with one character inserted at position k. */
  ghost predicate InsertsAt(a: string, b: string, k: nat) {
    k <= |b| && |a| == |b| + 1 && a[..k] == b[..k] && a[k + 1..] == b[k..]
  }

  /** One substitution, insertion or deletion turns a into b. */
  ghost predicate OneEdit(a: string, b: string) {
    || (exists k: nat :: SubstitutesAt(a, b, k))
    || (exists k: nat :: InsertsAt(a, b, k))
    || (exists k: nat :: InsertsAt(b, a, k))
  }

  /** path walks from a to b, one edit a step. */
  ghost predicate EditPath(path: seq<string>, a: string, b: string) {
    && |path| > 0 && path[0] == a && path[|path| - 1] == b
    && forall n {:trigger path[n]} :: 0 < n < |path| ==> OneEdit(path[n - 1], path[n])
  }

  lemma OneEditExtends(a: string, b: string, c: char)
    requires OneEdit(a, b)
    ensures OneEdit(a + [c], b + [c])
  {
    var x, y := a + [c], b + [c];
    if k: nat :| SubstitutesAt(a, b, k) {
      assert x[..k] == a[..k] && y[..k] == b[..k];
      assert x[k + 1..] == a[k + 1..] + [c] && y[k + 1..] == b[k + 1..] + [c];
      assert SubstitutesAt(x, y, k);
    } else if k: nat :| InsertsAt(a, b, k) {
      assert x[..k] == a[..k] && y[..k] == b[..k];
      assert x[k + 1..] == a[k + 1..] + [c] && y[k..] == b[k..] + [c];
      assert InsertsAt(x, y, k);
    } else {
      var k: nat :| InsertsAt(b, a, k);
      assert x[..k] == a[..k] && y[..k] == b[..k];
      assert y[k + 1..] == b[k + 1..] + [c] && x[k..] == a[k..] + [c];
      assert InsertsAt(y, x, k);
    }
  }

  /** The edits at the very end of a string, one for each branch of the recurrence. */
  lemma OneEditAtEnd(s: string, c: char, d: char)
    ensures OneEdit(s + [c], s) && OneEdit(s, s + [c])
    ensures c != d ==> OneEdit(s + [c], s + [d])
  {
    assert InsertsAt(s + [c], s, |s|);
    if c != d {
      assert (s + [c])[..|s|] == s == (s + [d])[..|s|];
      assert SubstitutesAt(s + [c], s + [d], |s|);
    }
  }

  /** Single edits are exactly the pairs at distance one. */
  lemma {:induction false} DistanceOneIsEdit(a: string, b: string, i: nat, j: nat)
    requires i <= |a| && j <= |b| && Lev(a, b, i, j) == 1
    ensures OneEdit(a[..i], b[..j])
    decreases i + j
  {
    if i == 0 {
      OneEditAtEnd([], b[0], b[0]);
      assert [] + [b[0]] == b[..j] && a[..i] == [];
    } else if j == 0 {
      OneEditAtEnd([], a[0], a[0]);
      assert [] + [a[0]] == a[..i] && b[..j] == [];
    } else {
      var c, d := a[i - 1], b[j - 1];
      assert a[..i] == a[..i - 1] + [c] && b[..j] == b[..j - 1] + [d];
      LevZero(a, b, i, j - 1);
      LevZero(a, b, i - 1, j);
      LevZero(a, b, i - 1, j - 1);
      OneEditAtEnd(a[..i - 1], c, d);
      OneEditAtEnd(b[..j - 1], d, c);
      if Lev(a, b, i, j - 1) != 0 && Lev(a, b, i - 1, j) != 0 && c == d {
        DistanceOneIsEdit(a, b, i - 1, j - 1);
        OneEditExtends(a[..i - 1], b[..j - 1], c);
      }
    }
  }

  /** Equal suffixes never raise the distance. */
  lemma {:induction false} LevCommonSuffix(a: string, b: string, i: nat, j: nat, n: nat)
    requires i + n <= |a| && j + n <= |b| && a[i..i + n] == b[j..j + n]
    ensures Lev(a, b, i + n, j + n) <= Lev(a, b, i, j)
    decreases n
  {
    if n > 0 {
      assert a[i..i + n][n - 1] == b[j..j + n][n - 1];
      assert a[i..i + n - 1] == a[i..i + n][..n - 1] == b[j..j + n][..n - 1] == b[j..j + n - 1];
      LevCommonSuffix(a, b, i, j, n - 1);
    }
  }

  lemma SubstitutionAtMostOne(a: string, b: string, k: nat)
    requires SubstitutesAt(a, b, k)
    ensures Levenshtein(a, b) <= 1
  {
    LevZero(a, b, k, k);
    assert Lev(a, b, k + 1, k + 1) <= 1;
    LevCommonSuffix(a, b, k + 1, k + 1, |a| - k - 1);
  }

  lemma InsertionAtMostOne(a: string, b: string, k: nat)
    requires InsertsAt(a, b, k)
    ensures Levenshtein(a, b) <= 1
  {
    LevZero(a, b, k, k);
    LevShorten(a, b, k, k);
    LevCommonSuffix(a, b, k + 1, k, |b| - k);
  }

  lemma EditIsDistanceOne(a: string, b: string)
    requires OneEdit(a, b)
    ensures Levenshtein(a, b) == 1
  {
    LevenshteinIsMetric(a, b, b);
    if k: nat :| SubstitutesAt(a, b, k) {
      SubstitutionAtMostOne(a, b, k);
    } else if k: nat :| InsertsAt(a, b, k) {
      InsertionAtMostOne(a, b, k);
    } else {
      var k: nat :| InsertsAt(b, a, k);
      InsertionAtMostOne(b, a, k);
    }
  }

  lemma LevShorten(a: string, b: string, i: nat, j: nat)
    requires i < |a| && j <= |b|
    ensures Lev(a, b, i + 1, j) <= Lev(a, b, i, j) + 1
  {
  }

  lemma OneEditIffDistanceOne(a: string, b: string)
    ensures OneEdit(a, b) <==> Levenshtein(a, b) == 1
  {
    if OneEdit(a, b) {
      EditIsDistanceOne(a, b);
    }
    if Levenshtein(a, b) == 1 {
      DistanceOneIsEdit(a, b, |a|, |b|);
      assert a[..|a|] == a && b[..|b|] == b;
    }
  }

  lemma FrontOfPath(path: seq<string>, a: string, b: string)
    requires EditPath(path, a, b) && |path| > 1
    ensures EditPath(path[..|path| - 1], a, path[|path| - 2]) && OneEdit(path[|path| - 2], b)
  {
    var front := path[..|path| - 1];
    forall n | 0 < n < |front| ensures OneEdit(front[n - 1], front[n]) {
      assert OneEdit(path[n - 1], path[n]);
    }
    assert OneEdit(path[|path| - 2], path[|path| - 1]);
  }

  /** No walk of single edits is shorter than the distance. */
  lemma {:induction false} PathNotShorter(path: seq<string>, a: string, b: string)
    requires EditPath(path, a, b)
    ensures Levenshtein(a, b) <= |path| - 1
    decreases |path|
  {
    if |path| == 1 {
      LevenshteinIsMetric(a, b, b);
    } else {
      var mid := path[|path| - 2];
      FrontOfPath(path, a, b);
      PathNotShorter(path[..|path| - 1], a, mid);
      EditIsDistanceOne(mid, b);
      LevenshteinIsMetric(a, mid, b);
    }
  }

  lemma PathThen(path: seq<string>, a: string, m: string, b: string)
    requires EditPath(path, a, m) && OneEdit(m, b)
    ensures EditPath(path + [b], a, b)
  {
    var p := path + [b];
    forall n | 0 < n < |p| ensures OneEdit(p[n - 1], p[n]) {
      if n < |path| {
        assert p[n] == path[n] && p[n - 1] == path[n - 1];
      }
    }
  }

  lemma AfterEdit(path: seq<string>, a: string, m: string, b: string)
    requires OneEdit(a, m) && EditPath(path, m, b)
    ensures EditPath([a] + path, a, b)
  {
    var p := [a] + path;
    forall n | 0 < n < |p| ensures OneEdit(p[n - 1], p[n]) {
      if n > 1 {
        assert p[n] == path[n - 1] && p[n - 1] == path[n - 2];
      }
    }
  }

  function AppendToAll(path: seq<string>, c: char): seq<string> {
    seq(|path|, n requires 0 <= n < |path| => path[n] + [c])
  }

  lemma PathExtends(path: seq<string>, a: string, b: string, c: char)
    requires EditPath(path, a, b)
    ensures EditPath(AppendToAll(path, c), a + [c], b + [c])
  {
    var p := AppendToAll(path, c);
    forall n | 0 < n < |p| ensures OneEdit(p[n - 1], p[n]) {
      assert OneEdit(path[n - 1], path[n]);
      OneEditExtends(path[n - 1], path[n], c);
    }
  }

  /** The last edit of a shortest walk, as the recurrence takes its minimum. */
  lemma LevSplits(a: string, b: string, i: nat, j: nat)
    requires i <= |a| && j <= |b| && i + j > 0
    ensures || (j > 0 && Lev(a, b, i, j) == Lev(a, b, i, j - 1) + 1)
            || (i > 0 && Lev(a, b, i, j) == Lev(a, b, i - 1, j) + 1)
            || (i > 0 && j > 0 && Lev(a, b, i, j) == Lev(a, b, i - 1, j - 1) + Cost(a[i - 1], b[j - 1]))
  {
  }

  /** A walk of exactly that many edits exists. */
  lemma {:induction false} ShortestPath(a: string, b: string, i: nat, j: nat) returns (path: seq<string>)
    requires i <= |a| && j <= |b|
    ensures EditPath(path, a[..i], b[..j]) && |path| - 1 == Lev(a, b, i, j)
    decreases i + j
  {
    if i == 0 && j == 0 {
      path := NoEdits(a, b);
    } else {
      LevSplits(a, b, i, j);
      if j > 0 && Lev(a, b, i, j) == Lev(a, b, i, j - 1) + 1 {
        path := ShortestPath(a, b, i, j - 1);
        path := InsertLast(path, a[..i], b, j);
      } else if i > 0 && Lev(a, b, i, j) == Lev(a, b, i - 1, j) + 1 {
        path := ShortestPath(a, b, i - 1, j);
        path := DeleteLast(path, a, i, b[..j]);
      } else {
        path := ShortestPath(a, b, i - 1, j - 1);
        path := KeepOrSubstituteLast(path, a, b, i, j);
      }
    }
  }

  lemma NoEdits(a: string, b: string) returns (path: seq<string>)
    ensures EditPath(path, a[..0], b[..0]) && |path| - 1 == Lev(a, b, 0, 0)
  {
    path := [a[..0]];
  }

  lemma InsertLast(p: seq<string>, x: string, b: string, j: nat) returns (path: seq<string>)
    requires 0 < j <= |b| && EditPath(p, x, b[..j - 1])
    ensures EditPath(path, x, b[..j]) && |path| == |p| + 1
  {
    OneEditAtEnd(b[..j - 1], b[j - 1], b[j - 1]);
    assert b[..j] == b[..j - 1] + [b[j - 1]];
    PathThen(p, x, b[..j - 1], b[..j]);
    path := p + [b[..j]];
  }

  lemma DeleteLast(p: seq<string>, a: string, i: nat, y: string) returns (path: seq<string>)
    requires 0 < i <= |a| && EditPath(p, a[..i - 1], y)
    ensures EditPath(path, a[..i], y) && |path| == |p| + 1
  {
    OneEditAtEnd(a[..i - 1], a[i - 1], a[i - 1]);
    assert a[..i] == a[..i - 1] + [a[i - 1]];
    AfterEdit(p, a[..i], a[..i - 1], y);
    path := [a[..i]] + p;
  }

  lemma KeepOrSubstituteLast(p: seq<string>, a: string, b: string, i: nat, j: nat) returns (path: seq<string>)
    requires 0 < i <= |a| && 0 < j <= |b| && EditPath(p, a[..i - 1], b[..j - 1])
    ensures EditPath(path, a[..i], b[..j]) && |path| == |p| + Cost(a[i - 1], b[j - 1])
  {
    var c, d := a[i - 1], b[j - 1];
    assert a[..i] == a[..i - 1] + [c] && b[..j] == b[..j - 1] + [d];
    PathExtends(p, a[..i - 1], b[..j - 1], c);
    path := AppendToAll(p, c);
    if c != d {
      OneEditAtEnd(b[..j - 1], c, d);
      PathThen(path, a[..i], b[..j - 1] + [c], b[..j]);
      path := path + [b[..j]];
    }
  }

  /** The recurrence computes the least number of single-character edits. */
  lemma LevenshteinIsLeastEdits(a: string, b: string)
    ensures exists path :: EditPath(path, a, b) && |path| - 1 == Levenshtein(a, b)
    ensures forall path :: EditPath(path, a, b) ==> Levenshtein(a, b) <= |path| - 1
  {
    var path := ShortestPath(a, b, |a|, |b|);
    assert a[..|a|] == a && b[..|b|] == b;
    forall p | EditPath(p, a, b) ensures Levenshtein(a, b) <= |p| - 1 {
      PathNotShorter(p, a, b);
    }
  }

  // ----- the restricted Damerau-Levenshtein distance -----

  lemma {:induction false} OsaAtMostSwapped(a: string, b: string, i: nat, j: nat)
    requires i <= |a| && j <= |b|
    ensures Osa(b, a, j, i) <= Osa(a, b, i, j)
    decreases i + j
  {
    if i > 0 && j > 0 {
      if Osa(a, b, i, j) == Osa(a, b, i - 1, j) + 1 {
        OsaAtMostSwapped(a, b, i - 1, j);
      } else if Osa(a, b, i, j) == Osa(a, b, i, j - 1) + 1 {
        OsaAtMostSwapped(a, b, i, j - 1);
      } else if Osa(a, b, i, j) == Osa(a, b, i - 1, j - 1) + Cost(a[i - 1], b[j - 1]) {
        OsaAtMostSwapped(a, b, i - 1, j - 1);
      } else {
        OsaAtMostSwapped(a, b, i - 2, j - 2);
      }
    }
  }

  lemma {:induction false} OsaAtMostLev(a: string, b: string, i: nat, j: nat)
    requires i <= |a| && j <= |b|
    ensures Osa(a, b, i, j) <= Lev(a, b, i, j)
    decreases i + j
  {
    if i > 0 && j > 0 {
      OsaAtMostLev(a, b, i, j - 1);
      OsaAtMostLev(a, b, i - 1, j);
      OsaAtMostLev(a, b, i - 1, j - 1);
    }
  }

  /** A swap saves at most one edit: the two distances are within a factor of two. */
  lemma {:induction false} LevAtMostTwiceOsa(a: string, b: string, i: nat, j: nat)
    requires i <= |a| && j <= |b|
    ensures Lev(a, b, i, j) <= 2 * Osa(a, b, i, j)
    decreases i + j
  {
    if i > 0 && j > 0 {
      if Osa(a, b, i, j) == Osa(a, b, i - 1, j) + 1 {
        LevAtMostTwiceOsa(a, b, i - 1, j);
      } else if Osa(a, b, i, j) == Osa(a, b, i, j - 1) + 1 {
        LevAtMostTwiceOsa(a, b, i, j - 1);
      } else if Osa(a, b, i, j) == Osa(a, b, i - 1, j - 1) + Cost(a[i - 1], b[j - 1]) {
        LevAtMostTwiceOsa(a, b, i - 1, j - 1);
      } else {
        LevAtMostTwiceOsa(a, b, i - 2, j - 2);
        assert Lev(a, b, i - 1, j - 1) <= Lev(a, b, i - 2, j - 2) + 1;
        assert Lev(a, b, i, j) <= Lev(a, b, i - 1, j - 1) + 1;
      }
    }
  }

  lemma DamerauBetween(a: string, b: string)
    ensures RestrictedDamerau(a, b) == RestrictedDamerau(b, a)
    ensures RestrictedDamerau(a, b) <= Levenshtein(a, b) <= 2 * RestrictedDamerau(a, b)
    ensures RestrictedDamerau(a, b) == 0 <==> a == b
  {
    OsaAtMostSwapped(a, b, |a|, |b|);
    OsaAtMostSwapped(b, a, |b|, |a|);
    OsaAtMostLev(a, b, |a|, |b|);
    LevAtMostTwiceOsa(a, b, |a|, |b|);
    LevenshteinIsMetric(a, b, b);
  }

  lemma SwapThenInsert()
    ensures RestrictedDamerau("CA", "AC") == 1 && RestrictedDamerau("AC", "ABC") == 1
  {
    var x, y, z := "CA", "AC", "ABC";
    assert Osa(x, y, 1, 1) == 1 && Osa(x, y, 1, 2) == 1 && Osa(x, y, 2, 1) == 1;
    assert Osa(y, z, 1, 1) == 0 && Osa(y, z, 1, 2) == 1 && Osa(y, z, 1, 3) == 2;
    assert Osa(y, z, 2, 1) == 1 && Osa(y, z, 2, 2) == 1;
  }

  /** Unlike Levenshtein, it breaks the triangle inequality: CA - AC - ABC. */
  lemma DamerauIsNotMetric()
    ensures RestrictedDamerau("CA", "AC") == 1
    ensures RestrictedDamerau("AC", "ABC") == 1
    ensures RestrictedDamerau("CA", "ABC") == 3
  {
    SwapThenInsert();
    var x, z := "CA", "ABC";
    assert Osa(x, z, 1, 1) == 1 && Osa(x, z, 1, 2) == 2 && Osa(x, z, 1, 3) == 2;
    assert Osa(x, z, 2, 1) == 1 && Osa(x, z, 2, 2) == 2;
  }

  /** What holds instead: the triangle up to a factor of two, and in full while neither leg is shortened by a swap. */
  lemma DamerauTriangle(a: string, b: string, c: string)
    ensures RestrictedDamerau(a, c) <= 2 * (RestrictedDamerau(a, b) + RestrictedDamerau(b, c))
    ensures RestrictedDamerau(a, b) == Levenshtein(a, b) && RestrictedDamerau(b, c) == Levenshtein(b, c) ==>
              RestrictedDamerau(a, c) <= RestrictedDamerau(a, b) + RestrictedDamerau(b, c)
  {
    DamerauBetween(a, b);
    DamerauBetween(b, c);
    DamerauBetween(a, c);
    LevenshteinIsMetric(a, b, c);
  }

  // ----- character maps -----

  /** b is a with every character rewritten by one and the same function. */
  ghost predicate Rewrites(f: char -> char, a: string, b: string) {
    |a| == |b| && forall k :: 0 <= k < |a| ==> b[k] == f(a[k])
  }

  /** Rewriting characters can only bring strings closer. */
  lemma {:induction false} RewritingContractsLev(f: char -> char, a: string, b: string,
                                                 a': string, b': string, i: nat, j: nat)
    requires Rewrites(f, a, a') && Rewrites(f, b, b') && i <= |a| && j <= |b|
    ensures Lev(a', b', i, j) <= Lev(a, b, i, j)
    decreases i + j
  {
    if i > 0 && j > 0 {
      RewritingContractsLev(f, a, b, a', b', i, j - 1);
      RewritingContractsLev(f, a, b, a', b', i - 1, j);
      RewritingContractsLev(f, a, b, a', b', i - 1, j - 1);
    }
  }

  lemma {:induction false} RewritingContractsOsa(f: char -> char, a: string, b: string,
                                                 a': string, b': string, i: nat, j: nat)
    requires Rewrites(f, a, a') && Rewrites(f, b, b') && i <= |a| && j <= |b|
    ensures Osa(a', b', i, j) <= Osa(a, b, i, j)
    decreases i + j
  {
    if i > 0 && j > 0 {
      RewritingContractsOsa(f, a, b, a', b', i, j - 1);
      RewritingContractsOsa(f, a, b, a', b', i - 1, j);
      RewritingContractsOsa(f, a, b, a', b', i - 1, j - 1);
      if Swappable(a, b, i, j) {
        RewritingContractsOsa(f, a, b, a', b', i - 2, j - 2);
        assert Swappable(a', b', i, j);
      }
    }
  }
}
