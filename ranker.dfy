/**
 * The default fuzzy ranker (`internal/searchranker`): every meme gets a score in [0, 1] from how well
 * the words of the request's "general" field match the words of the meme's "general" description,
 * word similarity being one minus a keyboard-aware, length-normalised Levenshtein distance.
 */
module Ranker {
  import opened Text
  import opened Sorting
  import opened Models
  import opened Wrappers

  /** A key's column and row on the keyboard. */
  datatype Key = Key(x: int, y: int)

  /** The entries of a rune-to-key table, searched from the front. */
  datatype Layout = Nil | Entry(rune: char, key: Key, rest: Layout)

  /**
   * `keyboardLayout`: the Latin (QWERTY) and Cyrillic (ЙЦУКЕН) letters with the physical key they
   * share, entry by entry as in the source's map literal (every rune occurs once).
   */
  const KeyboardLayout: Layout :=
    Entry('q', Key(0, 0),
    Entry('w', Key(1, 0),
    Entry('e', Key(2, 0),
    Entry('r', Key(3, 0),
    Entry('t', Key(4, 0),
    Entry('y', Key(5, 0),
    Entry('u', Key(6, 0),
    Entry('i', Key(7, 0),
    Entry('o', Key(8, 0),
    Entry('p', Key(9, 0),
    Entry('a', Key(0, 1),
    Entry('s', Key(1, 1),
    Entry('d', Key(2, 1),
    Entry('f', Key(3, 1),
    Entry('g', Key(4, 1),
    Entry('h', Key(5, 1),
    Entry('j', Key(6, 1),
    Entry('k', Key(7, 1),
    Entry('l', Key(8, 1),
    Entry('z', Key(0, 2),
    Entry('x', Key(1, 2),
    Entry('c', Key(2, 2),
    Entry('v', Key(3, 2),
    Entry('b', Key(4, 2),
    Entry('n', Key(5, 2),
    Entry('m', Key(6, 2),
    Entry('й', Key(0, 0),
    Entry('ц', Key(1, 0),
    Entry('у', Key(2, 0),
    Entry('к', Key(3, 0),
    Entry('е', Key(4, 0),
    Entry('н', Key(5, 0),
    Entry('г', Key(6, 0),
    Entry('ш', Key(7, 0),
    Entry('щ', Key(8, 0),
    Entry('з', Key(9, 0),
    Entry('х', Key(10, 0),
    Entry('ъ', Key(11, 0),
    Entry('ф', Key(0, 1),
    Entry('ы', Key(1, 1),
    Entry('в', Key(2, 1),
    Entry('а', Key(3, 1),
    Entry('п', Key(4, 1),
    Entry('р', Key(5, 1),
    Entry('о', Key(6, 1),
    Entry('л', Key(7, 1),
    Entry('д', Key(8, 1),
    Entry('ж', Key(9, 1),
    Entry('э', Key(10, 1),
    Entry('я', Key(0, 2),
    Entry('ч', Key(1, 2),
    Entry('с', Key(2, 2),
    Entry('м', Key(3, 2),
    Entry('и', Key(4, 2),
    Entry('т', Key(5, 2),
    Entry('ь', Key(6, 2),
    Entry('б', Key(7, 2),
    Entry('ю', Key(8, 2),
    Nil))))))))))))))))))))))))))))))))))))))))))))))))))))))))))

  /** The key of the first entry for `c`. */
  function Lookup(layout: Layout, c: char): Option<Key>
  {
    match layout
    case Nil => None
    case Entry(r, k, rest) => if r == c then Some(k) else Lookup(rest, c)
  }

  /** `keyboardLayout[c]`, absent for runes off the keyboard. */
  function KeyOf(c: char): Option<Key> { Lookup(KeyboardLayout, c) }

  function Abs(i: int): (r: nat)
    ensures r == i || r == -i
  {
    if i > 0 then i else -i
  }

  /**
   * The price of substituting rune `b` for rune `a`: 0 on the same key, 0.2, 1 or 2 as the keys
   * are 1, 2 or more steps apart (Manhattan distance), and 100 when either rune is not on the keyboard.
   */
  function Cost(a: char, b: char): (r: real)
    ensures r == 0.0 || r == 0.2 || r == 1.0 || r == 2.0 || r == 100.0
    ensures r == 100.0 <==> KeyOf(a).None? || KeyOf(b).None?
    ensures r == 0.0 <==> KeyOf(a).Some? && KeyOf(a) == KeyOf(b)
  {
    if KeyOf(a).None? then 100.0
    else if KeyOf(b).None? then 100.0
    else
      var pa, pb := KeyOf(a).value, KeyOf(b).value;
      var dst := Abs(pa.x - pb.x) + Abs(pa.y - pb.y);
      if dst == 0 then 0.0
      else if dst == 1 then 0.2
      else if dst == 2 then 1.0
      else 2.0
  }

  /** Substitution is as dear in one direction as in the other. */
  lemma CostSymmetric(a: char, b: char)
    ensures Cost(a, b) == Cost(b, a)
  {
    if KeyOf(a).Some? && KeyOf(b).Some? {
      var pa, pb := KeyOf(a).value, KeyOf(b).value;
      assert Abs(pa.x - pb.x) == Abs(pb.x - pa.x);
      assert Abs(pa.y - pb.y) == Abs(pb.y - pa.y);
    }
  }

  function Min(x: int, y: int): int { if x <= y then x else y }

  function Min3(x: real, y: real, z: real): real
  {
    if x <= y && x <= z then x else if y <= z then y else z
  }

  function Max(x: real, y: real): real { if x >= y then x else y }

  /**
   * The Levenshtein recurrence over the prefixes a[..i] and b[..j]: deleting or inserting a rune
   * costs 1 and substituting one costs `sub` (the ranker uses `Cost`); the boundary cells are i and j.
   */
  function Lev(sub: (char, char) -> real, a: String, b: String, i: nat, j: nat): real
    requires i <= |a| && j <= |b|
    decreases i + j
  {
    if i == 0 then j as real
    else if j == 0 then i as real
    else Min3(Lev(sub, a, b, i - 1, j) + 1.0,
              Lev(sub, a, b, i, j - 1) + 1.0,
              Lev(sub, a, b, i - 1, j - 1) + sub(a[i - 1], b[j - 1]))
  }

  /** The distance divided by the length of the shorter word. */
  function NormDist(a: String, b: String): real
    requires |a| > 0 && |b| > 0
  {
    Lev(Cost, a, b, |a|, |b|) / (Min(|a|, |b|) as real)
  }

  /**
   * `normlizedLevenstainDist`: fills the (|a|+1) x (|b|+1) matrix row by row and divides its
   * last cell by the shorter length (both words are non-empty at every call).
   */
  method NormalizedLevenshteinDistance(a: String, b: String) returns (d: real)
    requires |a| > 0 && |b| > 0
    ensures d == NormDist(a, b)
  {
    var la, lb := |a|, |b|;
    var matrix := new real[la + 1, lb + 1];
    var i := 0;
    while i <= la
      invariant 0 <= i <= la + 1
      invariant forall p {:trigger matrix[p, 0]} :: 0 <= p < i ==> matrix[p, 0] == Lev(Cost, a, b, p, 0)
    {
      matrix[i, 0] := i as real;
      i := i + 1;
    }
    var j := 0;
    while j <= lb
      invariant 0 <= j <= lb + 1
      invariant forall p {:trigger matrix[p, 0]} :: 0 <= p <= la ==> matrix[p, 0] == Lev(Cost, a, b, p, 0)
      invariant forall q {:trigger matrix[0, q]} :: 0 <= q < j ==> matrix[0, q] == Lev(Cost, a, b, 0, q)
    {
      matrix[0, j] := j as real;
      j := j + 1;
    }
    i := 1;
    while i <= la
      invariant 1 <= i <= la + 1
      invariant forall p, q {:trigger matrix[p, q]} :: 0 <= p < i && 0 <= q <= lb ==> matrix[p, q] == Lev(Cost, a, b, p, q)
      invariant forall p {:trigger matrix[p, 0]} :: 0 <= p <= la ==> matrix[p, 0] == Lev(Cost, a, b, p, 0)
    {
      FillRow(matrix, a, b, i);
      i := i + 1;
    }
    d := matrix[la, lb] / (Min(la, lb) as real);
  }

  /** One pass of the inner loop: row `i` from row `i - 1` and the cell to the left. */
  method FillRow(matrix: array2<real>, a: String, b: String, i: nat)
    requires 0 < i <= |a| && matrix.Length0 == |a| + 1 && matrix.Length1 == |b| + 1
    requires forall p, q {:trigger matrix[p, q]} :: 0 <= p < i && 0 <= q <= |b| ==> matrix[p, q] == Lev(Cost, a, b, p, q)
    requires forall p {:trigger matrix[p, 0]} :: 0 <= p <= |a| ==> matrix[p, 0] == Lev(Cost, a, b, p, 0)
    modifies matrix
    ensures forall p, q {:trigger matrix[p, q]} :: 0 <= p <= i && 0 <= q <= |b| ==> matrix[p, q] == Lev(Cost, a, b, p, q)
    ensures forall p {:trigger matrix[p, 0]} :: 0 <= p <= |a| ==> matrix[p, 0] == Lev(Cost, a, b, p, 0)
  {
    var j := 1;
    while j <= |b|
      invariant 1 <= j <= |b| + 1
      invariant forall p, q {:trigger matrix[p, q]} :: 0 <= p < i && 0 <= q <= |b| ==> matrix[p, q] == Lev(Cost, a, b, p, q)
      invariant forall p {:trigger matrix[p, 0]} :: 0 <= p <= |a| ==> matrix[p, 0] == Lev(Cost, a, b, p, 0)
      invariant forall q {:trigger matrix[i, q]} :: 0 <= q < j ==> matrix[i, q] == Lev(Cost, a, b, i, q)
    {
      ghost var cell := Lev(Cost, a, b, i, j);
      assert cell == Min3(matrix[i - 1, j] + 1.0, matrix[i, j - 1] + 1.0,
        matrix[i - 1, j - 1] + Cost(a[i - 1], b[j - 1]));
      matrix[i, j] := Min3(matrix[i - 1, j] + 1.0,
                           matrix[i, j - 1] + 1.0,
                           matrix[i - 1, j - 1] + Cost(a[i - 1], b[j - 1]));
      j := j + 1;
    }
  }

  /** The distance is never negative and never exceeds deleting all of a[..i] and inserting all of b[..j]. */
  lemma {:induction false} LevBounds(sub: (char, char) -> real, a: String, b: String, i: nat, j: nat)
    requires forall x, y :: sub(x, y) >= 0.0
    requires i <= |a| && j <= |b|
    ensures 0.0 <= Lev(sub, a, b, i, j) <= (i + j) as real
    decreases i + j
  {
    if i > 0 && j > 0 {
      LevBounds(sub, a, b, i - 1, j);
      LevBounds(sub, a, b, i, j - 1);
      LevBounds(sub, a, b, i - 1, j - 1);
      Min3Bounds(Lev(sub, a, b, i - 1, j) + 1.0, Lev(sub, a, b, i, j - 1) + 1.0,
        Lev(sub, a, b, i - 1, j - 1) + sub(a[i - 1], b[j - 1]), 0.0, (i + j) as real);
    }
  }

  lemma Min3Bounds(x: real, y: real, z: real, lo: real, hi: real)
    requires lo <= x && lo <= y && lo <= z && x <= hi
    ensures lo <= Min3(x, y, z) <= hi
  {
  }

  lemma Min3Swap(x: real, y: real, z: real)
    ensures Min3(x, y, z) == Min3(y, x, z)
  {
  }

  /** A word is at distance 0 from itself when substituting a rune by itself is free. */
  lemma {:induction false} LevIdentity(sub: (char, char) -> real, a: String, i: nat)
    requires forall x, y :: sub(x, y) >= 0.0
    requires forall k :: 0 <= k < |a| ==> sub(a[k], a[k]) == 0.0
    requires i <= |a|
    ensures Lev(sub, a, a, i, i) == 0.0
    decreases i
  {
    if i > 0 {
      LevIdentity(sub, a, i - 1);
      LevBounds(sub, a, a, i - 1, i);
      LevBounds(sub, a, a, i, i - 1);
    }
  }

  /** The distance does not depend on which word is the request and which the description. */
  lemma {:induction false} LevSymmetric(sub: (char, char) -> real, a: String, b: String, i: nat, j: nat)
    requires forall x, y :: sub(x, y) == sub(y, x)
    requires i <= |a| && j <= |b|
    ensures Lev(sub, a, b, i, j) == Lev(sub, b, a, j, i)
    decreases i + j
  {
    if i > 0 && j > 0 {
      LevSymmetric(sub, a, b, i - 1, j);
      LevSymmetric(sub, a, b, i, j - 1);
      LevSymmetric(sub, a, b, i - 1, j - 1);
      Min3Swap(Lev(sub, a, b, i - 1, j) + 1.0, Lev(sub, a, b, i, j - 1) + 1.0,
        Lev(sub, a, b, i - 1, j - 1) + sub(a[i - 1], b[j - 1]));
    }
  }

  predicate OnKeyboard(w: String) { forall k :: 0 <= k < |w| ==> KeyOf(w[k]).Some? }

  /** The ranker's distance is never negative and is at most the sum of the lengths over the shorter one. */
  lemma NormDistBounds(a: String, b: String)
    requires |a| > 0 && |b| > 0
    ensures 0.0 <= NormDist(a, b) <= (|a| + |b|) as real / Min(|a|, |b|) as real
  {
    forall x, y ensures Cost(x, y) >= 0.0 {
      assert Cost(x, y) in {0.0, 0.2, 1.0, 2.0, 100.0};
    }
    LevBounds(Cost, a, b, |a|, |b|);
    DivBounds(Lev(Cost, a, b, |a|, |b|), (|a| + |b|) as real, Min(|a|, |b|) as real);
  }

  lemma DivBounds(x: real, m: real, y: real)
    requires 0.0 <= x <= m && 0.0 < y
    ensures 0.0 <= x / y <= m / y
  {
  }

  /** The ranker's distance does not depend on the order of the two words. */
  lemma NormDistSymmetric(a: String, b: String)
    requires |a| > 0 && |b| > 0
    ensures NormDist(a, b) == NormDist(b, a)
  {
    forall x, y ensures Cost(x, y) == Cost(y, x) {
      CostSymmetric(x, y);
    }
    LevSymmetric(Cost, a, b, |a|, |b|);
  }

  /** A word typed entirely on the keyboard is at distance 0 from itself. */
  lemma NormDistSelf(w: String)
    requires |w| > 0
    requires OnKeyboard(w)
    ensures NormDist(w, w) == 0.0
  {
    LevIdentity(Cost, w, |w|);
  }

  /** `commonlyUsed`: words of at most two runes are ignored on both sides. */
  predicate CommonlyUsed(w: String) { |w| <= 2 }

  /** The words of a "general" field: lower-cased and split at single spaces. */
  function Words(s: String): seq<String> { Split(ToLower(s), ' ') }

  /** The value of `mx` once the inner loop has seen `ds`: the best similarity of `w` to a counted word. */
  function Best(w: String, ds: seq<String>): real
    requires !CommonlyUsed(w)
    decreases |ds|
  {
    if |ds| == 0 then 0.0
    else
      var mx := Best(w, ds[..|ds| - 1]);
      var v := ds[|ds| - 1];
      if CommonlyUsed(v) then mx else Max(mx, 1.0 - NormDist(w, v))
  }

  /** What request word `w` adds to the total: its best similarity if above 0.5, else nothing. */
  function WordScore(w: String, ds: seq<String>): real
    requires !CommonlyUsed(w)
  {
    var mx := Best(w, ds);
    if mx > 0.5 then mx else 0.0
  }

  /** The value of `n` once the outer loop has seen `rs`. */
  function Counted(rs: seq<String>): nat
  {
    if |rs| == 0 then 0
    else Counted(rs[..|rs| - 1]) + (if CommonlyUsed(rs[|rs| - 1]) then 0 else 1)
  }

  /** The value of `totalScore` once the outer loop has seen `rs`. */
  function Total(rs: seq<String>, ds: seq<String>): real
  {
    if |rs| == 0 then 0.0
    else
      var w := rs[|rs| - 1];
      Total(rs[..|rs| - 1], ds) + (if CommonlyUsed(w) then 0.0 else WordScore(w, ds))
  }

  /**
   * The final division `totalScore / n` is by a non-zero count. (When no request word is longer
   * than two runes Go divides 0 by 0 and gets NaN; that input is excluded.)
   */
  predicate ScoreDefined(dsc: map<String, String>, req: map<String, String>)
  {
    "general" in req && |req["general"]| > 0 && "general" in dsc ==> Counted(Words(req["general"])) > 0
  }

  /**
   * The score of a description against a request, as `score` computes it: -1 without a non-empty
   * request "general" or without a description "general" (the emptiness test is made on the
   * request a second time, so an empty description is scored), otherwise the mean word score.
   */
  function ScoreOf(dsc: map<String, String>, req: map<String, String>): real
    requires ScoreDefined(dsc, req)
  {
    if "general" !in req || |req["general"]| == 0 then -1.0
    else if "general" !in dsc then -1.0
    else
      var rs := Words(req["general"]);
      Total(rs, Words(dsc["general"])) / (Counted(rs) as real)
  }

  /** `score`: the two nested loops over request and description words. */
  method Score(dsc: map<String, String>, req: map<String, String>) returns (s: real)
    requires ScoreDefined(dsc, req)
    ensures s == ScoreOf(dsc, req)
  {
    if "general" !in req || |req["general"]| == 0 {
      return -1.0;
    }
    var r := req["general"];
    if "general" !in dsc || |r| == 0 {
      return -1.0;
    }
    var d := dsc["general"];
    var rs := Split(ToLower(r), ' ');
    var ds := Split(ToLower(d), ' ');
    var n := 0;
    var totalScore := 0.0;
    var i := 0;
    while i < |rs|
      invariant 0 <= i <= |rs|
      invariant n == Counted(rs[..i]) && totalScore == Total(rs[..i], ds)
    {
      var w := rs[i];
      assert rs[..i + 1][..i] == rs[..i];
      if !CommonlyUsed(w) {
        n := n + 1;
        var mx := 0.0;
        var j := 0;
        while j < |ds|
          invariant 0 <= j <= |ds|
          invariant mx == Best(w, ds[..j])
        {
          var v := ds[j];
          assert ds[..j + 1][..j] == ds[..j];
          if !CommonlyUsed(v) {
            var dist := NormalizedLevenshteinDistance(w, v);
            mx := Max(mx, 1.0 - dist);
          }
          j := j + 1;
        }
        assert ds[..|ds|] == ds;
        if mx > 0.5 {
          totalScore := totalScore + mx;
        }
      }
      i := i + 1;
    }
    assert rs[..|rs|] == rs;
    s := totalScore / (n as real);
  }

  /** The best similarity lies in [0, 1]. */
  lemma {:induction false} BestRange(w: String, ds: seq<String>)
    requires !CommonlyUsed(w)
    ensures 0.0 <= Best(w, ds) <= 1.0
    decreases |ds|
  {
    if |ds| > 0 {
      BestRange(w, ds[..|ds| - 1]);
      var v := ds[|ds| - 1];
      if !CommonlyUsed(v) {
        NormDistBounds(w, v);
      }
    }
  }

  /** A request word adds nothing, or more than one half and at most one. */
  lemma WordScoreRange(w: String, ds: seq<String>)
    requires !CommonlyUsed(w)
    ensures WordScore(w, ds) == 0.0 || 0.5 < WordScore(w, ds) <= 1.0
  {
    BestRange(w, ds);
  }

  lemma {:induction false} TotalRange(rs: seq<String>, ds: seq<String>)
    ensures 0.0 <= Total(rs, ds) <= Counted(rs) as real
    decreases |rs|
  {
    if |rs| > 0 {
      TotalRange(rs[..|rs| - 1], ds);
      var w := rs[|rs| - 1];
      if !CommonlyUsed(w) {
        WordScoreRange(w, ds);
      }
    }
  }

  /**
   * The score is -1 exactly when the request has no non-empty "general" or the description has no
   * "general" at all; otherwise it lies in [0, 1].
   */
  lemma ScoreRange(dsc: map<String, String>, req: map<String, String>)
    requires ScoreDefined(dsc, req)
    ensures ScoreOf(dsc, req) == -1.0 <==> "general" !in req || |req["general"]| == 0 || "general" !in dsc
    ensures ScoreOf(dsc, req) != -1.0 ==> 0.0 <= ScoreOf(dsc, req) <= 1.0
  {
    if "general" in req && |req["general"]| > 0 && "general" in dsc {
      var rs := Words(req["general"]);
      var t := Total(rs, Words(dsc["general"]));
      var n := Counted(rs) as real;
      TotalRange(rs, Words(dsc["general"]));
      assert ScoreOf(dsc, req) == t / n;
      MeanInUnit(t, n);
    }
  }

  lemma MeanInUnit(t: real, n: real)
    requires 0.0 < n && 0.0 <= t <= n
    ensures 0.0 <= t / n <= 1.0
  {
    assert t / n * n == t;
  }

  /** An empty description "general" is not rejected: it scores 0, not -1. */
  lemma EmptyDescriptionScoresZero(dsc: map<String, String>, req: map<String, String>)
    requires ScoreDefined(dsc, req)
    requires "general" in req && |req["general"]| > 0
    requires "general" in dsc && dsc["general"] == []
    ensures ScoreOf(dsc, req) == 0.0
  {
    var rs := Words(req["general"]);
    assert Words(dsc["general"]) == [[]];
    EmptyTotal(rs, [[]]);
  }

  lemma {:induction false} EmptyTotal(rs: seq<String>, ds: seq<String>)
    requires forall k :: 0 <= k < |ds| ==> CommonlyUsed(ds[k])
    ensures Total(rs, ds) == 0.0
    decreases |rs|
  {
    if |rs| > 0 {
      EmptyTotal(rs[..|rs| - 1], ds);
      var w := rs[|rs| - 1];
      if !CommonlyUsed(w) {
        NoCountedWordBest(w, ds);
      }
    }
  }

  lemma {:induction false} NoCountedWordBest(w: String, ds: seq<String>)
    requires !CommonlyUsed(w)
    requires forall k :: 0 <= k < |ds| ==> CommonlyUsed(ds[k])
    ensures Best(w, ds) == 0.0
    decreases |ds|
  {
    if |ds| > 0 {
      NoCountedWordBest(w, ds[..|ds| - 1]);
    }
  }

  /** A counted word that occurs verbatim among the description words has best similarity 1. */
  lemma {:induction false} BestOfPresentWord(w: String, ds: seq<String>)
    requires !CommonlyUsed(w) && OnKeyboard(w)
    requires w in ds
    ensures Best(w, ds) == 1.0
    decreases |ds|
  {
    BestRange(w, ds);
    var init := ds[..|ds| - 1];
    if ds[|ds| - 1] == w {
      NormDistSelf(w);
      BestRange(w, init);
    } else {
      assert w in init by {
        var k :| 0 <= k < |ds| && ds[k] == w;
        assert init[k] == w;
      }
      BestOfPresentWord(w, init);
    }
  }

  /** When every counted request word occurs verbatim in the description, every one adds exactly 1. */
  lemma {:induction false} TotalOfPresentWords(rs: seq<String>, ds: seq<String>)
    requires forall k :: 0 <= k < |rs| && !CommonlyUsed(rs[k]) ==> OnKeyboard(rs[k]) && rs[k] in ds
    ensures Total(rs, ds) == Counted(rs) as real
    decreases |rs|
  {
    if |rs| > 0 {
      TotalOfPresentWords(rs[..|rs| - 1], ds);
      var w := rs[|rs| - 1];
      if !CommonlyUsed(w) {
        BestOfPresentWord(w, ds);
      }
    }
  }

  /** A description holding every (lower-cased, counted) request word scores exactly 1. */
  lemma ExactMatchScoresOne(dsc: map<String, String>, req: map<String, String>)
    requires ScoreDefined(dsc, req)
    requires "general" in req && |req["general"]| > 0 && "general" in dsc
    requires var rs := Words(req["general"]);
      forall k :: 0 <= k < |rs| && !CommonlyUsed(rs[k]) ==> OnKeyboard(rs[k]) && rs[k] in Words(dsc["general"])
    ensures ScoreOf(dsc, req) == 1.0
  {
    var rs, ds := Words(req["general"]), Words(dsc["general"]);
    TotalOfPresentWords(rs, ds);
    assert Counted(rs) > 0;
    MeanOfEqual(Total(rs, ds), Counted(rs));
  }

  /** A total equal to its positive count has mean 1. */
  lemma MeanOfEqual(t: real, n: nat)
    requires n > 0 && t == n as real
    ensures t / (n as real) == 1.0
  {
  }

  /** `ScroredMeme`: a meme with its score. */
  datatype ScoredMeme = ScoredMeme(score: real, meme: Meme)

  function ScoreKey(s: ScoredMeme): real { s.score }

  predicate AllScorable(memes: seq<Meme>, req: map<String, String>)
  {
    forall i :: 0 <= i < |memes| ==> ScoreDefined(memes[i].description, req)
  }

  /** The memes `Rank` keeps, in input order: exactly those scoring at least 0.01, with their scores. */
  function Kept(memes: seq<Meme>, req: map<String, String>): (kept: seq<ScoredMeme>)
    requires AllScorable(memes, req)
    ensures |kept| <= |memes|
    ensures forall k :: 0 <= k < |kept| ==>
      kept[k].meme in memes && kept[k].score == ScoreOf(kept[k].meme.description, req) && kept[k].score >= 0.01
    ensures forall i :: 0 <= i < |memes| && ScoreOf(memes[i].description, req) >= 0.01 ==>
      ScoredMeme(ScoreOf(memes[i].description, req), memes[i]) in kept
    decreases |memes|
  {
    if |memes| == 0 then []
    else
      var init := memes[..|memes| - 1];
      var m := memes[|memes| - 1];
      assert forall i :: 0 <= i < |init| ==> init[i] == memes[i];
      var s := ScoreOf(m.description, req);
      if s < 0.01 then Kept(init, req) else Kept(init, req) + [ScoredMeme(s, m)]
  }

  /**
   * `Rank`: scores every meme, drops those below 0.01, and orders the rest by non-increasing score;
   * `RankedMembers` says which memes the result holds.
   */
  method Rank(memes: seq<Meme>, req: map<String, String>) returns (res: seq<ScoredMeme>)
    requires AllScorable(memes, req)
    ensures res == SortDesc(Kept(memes, req), ScoreKey)
    ensures SortedDesc(res, ScoreKey) && multiset(res) == multiset(Kept(memes, req))
  {
    var kept: seq<ScoredMeme> := [];
    var i := 0;
    while i < |memes|
      invariant 0 <= i <= |memes|
      invariant kept == Kept(memes[..i], req)
    {
      assert memes[..i + 1][..i] == memes[..i];
      var s := Score(memes[i].description, req);
      if s >= 0.01 {
        kept := kept + [ScoredMeme(s, memes[i])];
      }
      i := i + 1;
    }
    assert memes[..|memes|] == memes;
    res := SortDesc(kept, ScoreKey);
  }

  /**
   * The ranked list holds exactly the memes scoring at least 0.01, each once per occurrence in
   * the input and with its score, and is never longer than the input.
   */
  lemma RankedMembers(memes: seq<Meme>, req: map<String, String>)
    requires AllScorable(memes, req)
    ensures var res := SortDesc(Kept(memes, req), ScoreKey);
      && |res| <= |memes|
      && (forall x :: x in res ==> x.meme in memes && x.score == ScoreOf(x.meme.description, req) && x.score >= 0.01)
      && (forall i :: 0 <= i < |memes| && ScoreOf(memes[i].description, req) >= 0.01 ==>
            ScoredMeme(ScoreOf(memes[i].description, req), memes[i]) in res)
  {
    var kept := Kept(memes, req);
    SortDescMembers(kept, ScoreKey);
    forall x | x in kept
      ensures x.meme in memes && x.score == ScoreOf(x.meme.description, req) && x.score >= 0.01
    {
      var k :| 0 <= k < |kept| && kept[k] == x;
    }
  }
}
