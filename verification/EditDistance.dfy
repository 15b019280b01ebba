/**
 * Edit distance: the two-row loop, the recursion it computes, and what makes that recursion the
 * minimum number of single-character edits and a metric. Generic in the character.
 */
module EditDistance {
  import opened Basics

  function Cost<T(==)>(x: T, y: T): nat {
    if x == y then 0 else 1
  }

  function Init<T>(s: seq<T>): seq<T>
    requires s != []
  {
    s[..|s| - 1]
  }

  function Last<T>(s: seq<T>): T
    requires s != []
  {
    s[|s| - 1]
  }

  /** Drop the last character of one, of the other, or of both. */
  function Distance<T(==)>(a: seq<T>, b: seq<T>): nat
    decreases |a| + |b|
  {
    if a == [] then |b|
    else if b == [] then |a|
    else Min(Min(Distance(a, Init(b)) + 1, Distance(Init(a), b) + 1),
             Distance(Init(a), Init(b)) + Cost(Last(a), Last(b)))
  }

  // ---------------------------------------------------------------- the loop

  /** `row` holds the distances of the first `i` characters of `left` to the first 0, 1, ... of `right`. */
  ghost predicate IsRow<T(!new)>(row: seq<nat>, left: seq<T>, right: seq<T>, i: nat)
    requires i <= |left| && |row| <= |right| + 1
  {
    forall k :: 0 <= k < |row| ==> row[k] == Distance(left[..i], right[..k])
  }

  lemma FirstRow<T(!new)>(row: seq<nat>, left: seq<T>, right: seq<T>)
    requires |row| == |right| + 1 && forall k :: 0 <= k < |row| ==> row[k] == k
    ensures IsRow(row, left, right, 0)
  {
  }

  lemma RowBegins<T(!new)>(left: seq<T>, right: seq<T>, i: nat)
    requires i <= |left|
    ensures IsRow([i], left, right, i)
  {
  }

  lemma RowGrows<T(!new)>(previous: seq<nat>, current: seq<nat>, left: seq<T>, right: seq<T>, i: nat)
    requires i < |left| && |previous| == |right| + 1 && 0 < |current| <= |right|
    requires IsRow(previous, left, right, i) && IsRow(current, left, right, i + 1)
    ensures var j := |current| - 1;
            IsRow(current + [Min(Min(current[j] + 1, previous[j + 1] + 1), previous[j] + Cost(left[i], right[j]))],
                  left, right, i + 1)
  {
    var j := |current| - 1;
    assert Init(left[..i + 1]) == left[..i];
    assert Init(right[..j + 1]) == right[..j];
  }

  lemma RowEnds<T(!new)>(row: seq<nat>, left: seq<T>, right: seq<T>)
    requires |row| == |right| + 1 && IsRow(row, left, right, |left|)
    ensures row[|right|] == Distance(left, right)
  {
    assert left[..|left|] == left && right[..|right|] == right;
  }

  /** The two-row loop. */
  method Levenshtein<T(==,!new)>(left: seq<T>, right: seq<T>) returns (d: nat)
    ensures d == Distance(left, right)
  {
    if left == right {
      DistanceToSelf(left);
      return 0;
    }
    if left == [] {
      return |right|;
    }
    if right == [] {
      return |left|;
    }
    hide Distance, IsRow;
    var previous: seq<nat> := seq(|right| + 1, index => index);
    FirstRow(previous, left, right);
    var i := 0;
    while i < |left|
      invariant i <= |left| && |previous| == |right| + 1
      invariant IsRow(previous, left, right, i)
    {
      var current: seq<nat> := [i + 1];
      RowBegins(left, right, i + 1);
      var j := 0;
      while j < |right|
        invariant j <= |right| && |current| == j + 1
        invariant IsRow(current, left, right, i + 1)
      {
        RowGrows(previous, current, left, right, i);
        current := current + [Min(Min(current[j] + 1, previous[j + 1] + 1), previous[j] + Cost(left[i], right[j]))];
        j := j + 1;
      }
      previous := current;
      i := i + 1;
    }
    RowEnds(previous, left, right);
    return previous[|right|];
  }

  // ---------------------------------------------------------------- bounds

  lemma {:induction false} DistanceToSelf<T(!new)>(a: seq<T>)
    ensures Distance(a, a) == 0
  {
    if a == [] {
    } else {
      DistanceToSelf(Init(a));
    }
  }

  /** The distance lies between the difference of the lengths and the longer length. */
  lemma {:induction false} DistanceBounds<T(!new)>(a: seq<T>, b: seq<T>)
    ensures |a| <= |b| + Distance(a, b) && |b| <= |a| + Distance(a, b)
    ensures Distance(a, b) <= Max(|a|, |b|)
    decreases |a| + |b|
  {
    if a != [] && b != [] {
      DistanceBounds(a, Init(b));
      DistanceBounds(Init(a), b);
      DistanceBounds(Init(a), Init(b));
    }
  }

  // ---------------------------------------------------------------- a metric

  lemma {:induction false} ZeroOnlyIfEqual<T(!new)>(a: seq<T>, b: seq<T>)
    ensures Distance(a, b) == 0 <==> a == b
    decreases |a| + |b|
  {
    if a == b {
      DistanceToSelf(a);
    } else if a != [] && b != [] {
      assert a == Init(a) + [Last(a)] && b == Init(b) + [Last(b)];
      ZeroOnlyIfEqual(Init(a), Init(b));
    }
  }

  lemma {:induction false} Symmetric<T(!new)>(a: seq<T>, b: seq<T>)
    ensures Distance(a, b) == Distance(b, a)
    decreases |a| + |b|
  {
    if a != [] && b != [] {
      Symmetric(a, Init(b));
      Symmetric(Init(a), b);
      Symmetric(Init(a), Init(b));
    }
  }

  lemma {:induction false} Triangle<T(!new)>(a: seq<T>, b: seq<T>, c: seq<T>)
    ensures Distance(a, c) <= Distance(a, b) + Distance(b, c)
    decreases |a| + |b| + |c|
  {
    if a == [] || b == [] || c == [] {
      DistanceBounds(a, b);
      DistanceBounds(b, c);
      DistanceBounds(a, c);
    } else if Distance(a, b) == Distance(Init(a), b) + 1 {
      Triangle(Init(a), b, c);
    } else if Distance(b, c) == Distance(b, Init(c)) + 1 {
      Triangle(a, b, Init(c));
    } else if Distance(a, b) == Distance(a, Init(b)) + 1 {
      if Distance(b, c) == Distance(Init(b), c) + 1 {
        Triangle(a, Init(b), c);
      } else {
        Triangle(a, Init(b), Init(c));
      }
    } else {
      if Distance(b, c) == Distance(Init(b), c) + 1 {
        Triangle(Init(a), Init(b), c);
      } else {
        Triangle(Init(a), Init(b), Init(c));
      }
    }
  }

  // ---------------------------------------------------------------- the minimum number of edits

  /** One insertion, deletion or replacement, anywhere. */
  ghost predicate OneEdit<T(!new)>(a: seq<T>, b: seq<T>) {
    || (exists i, x :: 0 <= i <= |a| && b == Inserted(a, i, x))
    || (exists i, x :: 0 <= i <= |b| && a == Inserted(b, i, x))
    || (exists i, x :: 0 <= i < |a| && b == Replaced(a, i, x))
  }

  function Inserted<T>(a: seq<T>, i: nat, x: T): seq<T>
    requires i <= |a|
  {
    a[..i] + [x] + a[i..]
  }

  function Replaced<T>(a: seq<T>, i: nat, x: T): seq<T>
    requires i < |a|
  {
    a[i := x]
  }

  /** A sequence of texts, each one edit from the one before. */
  ghost predicate EditPath<T(!new)>(path: seq<seq<T>>, a: seq<T>, b: seq<T>) {
    && path != [] && path[0] == a && path[|path| - 1] == b
    && forall k :: 0 < k < |path| ==> OneEdit(path[k - 1], path[k])
  }

  /** Appending the same text to both sides brings them no further apart. */
  lemma {:induction false} SameSuffix<T(!new)>(a: seq<T>, b: seq<T>, s: seq<T>)
    ensures Distance(a + s, b + s) <= Distance(a, b)
    decreases |s|
  {
    if s == [] {
      assert a + s == a && b + s == b;
    } else {
      assert Init(a + s) == a + Init(s) && Init(b + s) == b + Init(s);
      SameSuffix(a, b, Init(s));
    }
  }

  lemma AppendOne<T(!new)>(a: seq<T>, x: T)
    ensures Distance(a, a + [x]) <= 1
  {
    assert Init(a + [x]) == a;
    DistanceToSelf(a);
  }

  lemma InsertedDistance<T(!new)>(a: seq<T>, i: nat, x: T)
    requires i <= |a|
    ensures Distance(a, Inserted(a, i, x)) <= 1
  {
    hide Distance;
    AppendOne(a[..i], x);
    SameSuffix(a[..i], a[..i] + [x], a[i..]);
    assert a[..i] + a[i..] == a;
  }

  lemma ReplacedDistance<T(!new)>(a: seq<T>, i: nat, x: T)
    requires i < |a|
    ensures Distance(a, Replaced(a, i, x)) <= 1
  {
    hide Distance;
    ReplaceBetween(a[..i], a[i], x, a[i + 1..]);
    assert a == a[..i] + [a[i]] + a[i + 1..];
    assert Replaced(a, i, x) == a[..i] + [x] + a[i + 1..];
  }

  lemma ReplaceBetween<T(!new)>(p: seq<T>, x: T, y: T, s: seq<T>)
    ensures Distance(p + [x] + s, p + [y] + s) <= 1
  {
    ReplaceLast(p, x, y);
    SameSuffix(p + [x], p + [y], s);
  }

  lemma ReplaceLast<T(!new)>(s: seq<T>, x: T, y: T)
    ensures Distance(s + [x], s + [y]) <= 1
  {
    assert Init(s + [x]) == s && Init(s + [y]) == s;
    DistanceToSelf(s);
  }

  lemma OneEditDistance<T(!new)>(a: seq<T>, b: seq<T>)
    requires OneEdit(a, b)
    ensures Distance(a, b) <= 1
  {
    if i, x :| 0 <= i <= |a| && b == Inserted(a, i, x) {
      InsertedDistance(a, i, x);
    } else if i, x :| 0 <= i <= |b| && a == Inserted(b, i, x) {
      InsertedDistance(b, i, x);
      Symmetric(a, b);
    } else {
      var i, x :| 0 <= i < |a| && b == Replaced(a, i, x);
      ReplacedDistance(a, i, x);
    }
  }

  /** No sequence of edits is shorter than the distance. */
  lemma {:induction false} NoShorterPath<T(!new)>(path: seq<seq<T>>, a: seq<T>, b: seq<T>)
    requires EditPath(path, a, b)
    ensures Distance(a, b) <= |path| - 1
  {
    if |path| == 1 {
      DistanceToSelf(a);
    } else {
      var mid := path[|path| - 2];
      NoShorterPath(path[..|path| - 1], a, mid);
      OneEditDistance(mid, b);
      Triangle(a, mid, b);
    }
  }

  lemma EditThenAppend<T(!new)>(a: seq<T>, b: seq<T>, x: T)
    requires OneEdit(a, b)
    ensures OneEdit(a + [x], b + [x])
  {
    if i, y :| 0 <= i <= |a| && b == Inserted(a, i, y) {
      InsertThenAppend(a, i, y, x);
    } else if i, y :| 0 <= i <= |b| && a == Inserted(b, i, y) {
      InsertThenAppend(b, i, y, x);
    } else {
      var i, y :| 0 <= i < |a| && b == Replaced(a, i, y);
      assert b + [x] == Replaced(a + [x], i, y);
    }
  }

  lemma InsertThenAppend<T>(a: seq<T>, i: nat, y: T, x: T)
    requires i <= |a|
    ensures Inserted(a, i, y) + [x] == Inserted(a + [x], i, y)
  {
  }

  function AppendAll<T>(path: seq<seq<T>>, x: T): seq<seq<T>> {
    seq(|path|, k requires 0 <= k < |path| => path[k] + [x])
  }

  lemma AppendPath<T(!new)>(path: seq<seq<T>>, a: seq<T>, b: seq<T>, x: T)
    requires EditPath(path, a, b)
    ensures EditPath(AppendAll(path, x), a + [x], b + [x])
  {
    forall k | 0 < k < |path| ensures OneEdit(path[k - 1] + [x], path[k] + [x]) {
      EditThenAppend(path[k - 1], path[k], x);
    }
  }

  lemma ExtendPath<T(!new)>(path: seq<seq<T>>, a: seq<T>, b: seq<T>, c: seq<T>)
    requires EditPath(path, a, b) && OneEdit(b, c)
    ensures EditPath(path + [c], a, c)
  {
    var longer := path + [c];
    forall k | 0 < k < |longer| ensures OneEdit(longer[k - 1], longer[k]) {
    }
  }

  lemma PrependPath<T(!new)>(path: seq<seq<T>>, a: seq<T>, b: seq<T>, c: seq<T>)
    requires OneEdit(a, b) && EditPath(path, b, c)
    ensures EditPath([a] + path, a, c)
  {
    var longer := [a] + path;
    forall k | 0 < k < |longer| ensures OneEdit(longer[k - 1], longer[k]) {
      assert k > 1 ==> longer[k - 1] == path[k - 2] && longer[k] == path[k - 1];
    }
  }

  lemma RemoveLast<T(!new)>(a: seq<T>)
    requires a != []
    ensures OneEdit(a, Init(a)) && OneEdit(Init(a), a)
  {
    assert a == Inserted(Init(a), |a| - 1, Last(a));
  }

  /** A path between the shorter texts, with the last characters put back. */
  lemma ReplaceLastOnPath<T(!new)>(path: seq<seq<T>>, a: seq<T>, b: seq<T>) returns (longer: seq<seq<T>>)
    requires a != [] && b != [] && EditPath(path, Init(a), Init(b))
    ensures EditPath(longer, a, b) && |longer| == |path| + Cost(Last(a), Last(b))
  {
    hide EditPath, OneEdit;
    var x, y := Last(a), Last(b);
    AppendPath(path, Init(a), Init(b), x);
    longer := AppendAll(path, x);
    assert a == Init(a) + [x] && b == Init(b) + [y];
    if x != y {
      SwapLast(Init(b), x, y);
      ExtendPath(longer, a, Init(b) + [x], b);
      longer := longer + [b];
    }
  }

  lemma SwapLast<T(!new)>(s: seq<T>, x: T, y: T)
    ensures OneEdit(s + [x], s + [y])
  {
    assert s + [y] == Replaced(s + [x], |s|, y);
  }

  /** And one sequence of edits is exactly as long. */
  lemma {:induction false} ShortestPath<T(!new)>(a: seq<T>, b: seq<T>) returns (path: seq<seq<T>>)
    ensures EditPath(path, a, b) && |path| == Distance(a, b) + 1
    decreases |a| + |b|
  {
    if a == [] && b == [] {
      path := [[]];
    } else {
      hide EditPath, OneEdit;
      if b == [] || (a != [] && Distance(a, b) == Distance(Init(a), b) + 1) {
        path := ShortestPath(Init(a), b);
        RemoveLast(a);
        PrependPath(path, a, Init(a), b);
        path := [a] + path;
      } else if a == [] || Distance(a, b) == Distance(a, Init(b)) + 1 {
        path := ShortestPath(a, Init(b));
        RemoveLast(b);
        ExtendPath(path, a, Init(b), b);
        path := path + [b];
      } else {
        path := ShortestPath(Init(a), Init(b));
        path := ReplaceLastOnPath(path, a, b);
      }
    }
  }

  /** The distance is the least number of single edits that turn one text into the other. */
  lemma DistanceIsMinimum<T(!new)>(a: seq<T>, b: seq<T>)
    ensures exists path :: EditPath(path, a, b) && |path| == Distance(a, b) + 1
    ensures forall path :: EditPath(path, a, b) ==> |path| >= Distance(a, b) + 1
  {
    var path := ShortestPath(a, b);
    forall p | EditPath(p, a, b) ensures |p| >= Distance(a, b) + 1 {
      NoShorterPath(p, a, b);
    }
  }

  // ---------------------------------------------------------------- similarity

  /** Similarity of two texts under a normalisation: one minus the distance over the longer length. */
  function Similarity<T(==)>(normalize: seq<T> -> seq<T>, left: seq<T>, right: seq<T>): real {
    var a, b := normalize(left), normalize(right);
    if a == [] || b == [] then 0.0
    else if a == b then 1.0
    else 1.0 - (Distance(a, b) as real) / (Max(|a|, |b|) as real)
  }

  /** Similarity is symmetric, lies in the unit interval, and is 1 exactly for equal non-empty normal forms. */
  lemma SimilarityIsAScore<T(!new)>(normalize: seq<T> -> seq<T>, left: seq<T>, right: seq<T>)
    ensures var s := Similarity(normalize, left, right);
            && 0.0 <= s <= 1.0
            && s == Similarity(normalize, right, left)
            && (s == 1.0 <==> normalize(left) == normalize(right) != [])
  {
    var a, b := normalize(left), normalize(right);
    if a != [] && b != [] && a != b {
      Symmetric(a, b);
      DistanceBounds(a, b);
      ZeroOnlyIfEqual(a, b);
      UnitQuotient(Distance(a, b), Max(|a|, |b|));
    }
  }

  /** For two non-empty normal forms the dissimilarity is the distance for each character of the longer one. */
  lemma SimilarityExactly<T(!new)>(normalize: seq<T> -> seq<T>, left: seq<T>, right: seq<T>)
    ensures var s, a, b := Similarity(normalize, left, right), normalize(left), normalize(right);
            if a == [] || b == [] then s == 0.0
            else (1.0 - s) * ((if |a| >= |b| then |a| else |b|) as real) == Distance(a, b) as real
  {
    hide Distance;
    var a, b := normalize(left), normalize(right);
    if a == b {
      DistanceToSelf(a);
    } else if a != [] && b != [] {
      ShareTimes(Distance(a, b), Max(|a|, |b|));
    }
  }

  lemma ShareTimes(d: nat, n: nat)
    requires n > 0
    ensures (1.0 - (1.0 - (d as real) / (n as real))) * (n as real) == d as real
  {
  }

  lemma UnitQuotient(d: nat, n: nat)
    requires 0 < d <= n
    ensures 0.0 < (d as real) / (n as real) <= 1.0
  {
    RealQuotient(d as real, n as real);
  }

  lemma RealQuotient(x: real, y: real)
    requires 0.0 <= x <= y && 0.0 < y
    ensures 0.0 <= x / y <= 1.0 && (x > 0.0 ==> x / y > 0.0)
  {
    var q := x / y;
    assert q * y == x;
    if q <= 0.0 {
      NonPositiveTimes(q, y);
    }
    if q > 1.0 {
      NonPositiveTimes(1.0 - q, y);
    }
  }

  lemma NonPositiveTimes(q: real, m: real)
    requires q <= 0.0 && m > 0.0
    ensures q * m <= 0.0 && (q < 0.0 ==> q * m < 0.0)
  {
  }
}
