/**
 * The default search engine of a board (internal/memesearcher/default.go): it fetches every meme
 * of the board page by page, scores each description against the request's "general" words,
 * keeps the scores of at least 0.1, orders them by non-increasing score and cuts a window.
 */
module MemeSearcher {
  import opened Wrappers
  import opened Text
  import opened Models
  import opened ServerErrors
  import opened Paging
  import opened Sorting

  const PageSize: int := 200

  /** Scores below this are not results. */
  const MinScore: real := 0.1

  datatype ScoreResult = ScoreResult(score: real, id: MemeID)

  function ResultKey(r: ScoreResult): real { r.score }

  /** The request is scorable: its "general" field is present and not empty. */
  predicate HasGeneral(req: map<String, String>)
  {
    "general" in req && |req["general"]| > 0
  }

  /** The request's words: "general" split on single spaces (so empty words are possible). */
  function Words(req: map<String, String>): (words: seq<String>)
    requires HasGeneral(req)
    ensures |words| >= 1
  {
    Split(req["general"], ' ')
  }

  /** The distinct request words that occur as a space-separated word of one of the values under `keys`. */
  ghost function MatchedIn(words: seq<String>, desc: map<String, String>, keys: set<String>): set<String>
  {
    set w | w in words && exists k :: k in keys && k in desc && w in Split(desc[k], ' ')
  }

  /** A set of elements of `s` has no more elements than `s` has positions. */
  lemma {:induction false} CardOfElements<T>(a: set<T>, s: seq<T>)
    requires forall x :: x in a ==> x in s
    ensures |a| <= |s|
    decreases |s|
  {
    if |s| > 0 {
      var last := s[|s| - 1];
      var init := s[..|s| - 1];
      forall x | x in a - {last}
        ensures x in init
      {
        var i :| 0 <= i < |s| && s[i] == x;
        assert i < |s| - 1;
        assert init[i] == x;
      }
      CardOfElements(a - {last}, init);
    }
  }

  /** `a / b` as a Go float64 division, without rounding. */
  function Fraction(a: nat, b: nat): (q: real)
    requires a <= b && 0 < b
    ensures 0.0 <= q <= 1.0
  {
    var q := a as real / b as real;
    assert q * b as real == a as real;
    q
  }

  /**
   * `score`: -1 for a request without a non-empty "general" field; otherwise the number of
   * distinct request words found in the description, divided by the number of request words.
   */
  ghost function ScoreOf(req: map<String, String>, desc: map<String, String>): (s: real)
    ensures !HasGeneral(req) <==> s == -1.0
    ensures HasGeneral(req) ==> 0.0 <= s <= 1.0
  {
    if !HasGeneral(req) then -1.0
    else
      var words := Words(req);
      var matched := MatchedIn(words, desc, desc.Keys);
      CardOfElements(matched, words);
      Fraction(|matched|, |words|)
  }

  /** The request words that occur among the `parts` of one value. */
  ghost function WordsFound(words: seq<String>, parts: seq<String>): set<String>
  {
    set w | w in words && w in parts
  }

  /** Adding one key to the scanned keys adds exactly the request words of its value. */
  lemma AddKey(words: seq<String>, desc: map<String, String>, done: set<String>, k: String)
    requires k in desc
    ensures MatchedIn(words, desc, done + {k}) == MatchedIn(words, desc, done) + WordsFound(words, Split(desc[k], ' '))
  {
  }

  /** The inner loop of `score`: counts the request words among `parts` into `matches`. */
  method CountWords(words: seq<String>, parts: seq<String>, matches: map<String, int>)
    returns (counted: map<String, int>)
    ensures counted.Keys == matches.Keys + WordsFound(words, parts)
  {
    counted := matches;
    var j := 0;
    while j < |parts|
      invariant 0 <= j <= |parts|
      invariant counted.Keys == matches.Keys + WordsFound(words, parts[..j])
    {
      assert parts[..j + 1] == parts[..j] + [parts[j]];
      var word := parts[j];
      if word in words {
        counted := counted[word := (if word in counted then counted[word] else 0) + 1];
      }
      j := j + 1;
    }
    assert parts[..j] == parts;
  }

  /** The loop over the description's values and their words that computes `ScoreOf`. */
  method Score(req: map<String, String>, desc: map<String, String>) returns (s: real)
    ensures s == ScoreOf(req, desc)
  {
    if "general" !in req || |req["general"]| == 0 {
      return -1.0;
    }
    var words := Split(req["general"], ' ');
    var matches: map<String, int> := map[];
    var todo := desc.Keys;
    while todo != {}
      invariant todo <= desc.Keys
      invariant matches.Keys == MatchedIn(words, desc, desc.Keys - todo)
      decreases |todo|
    {
      var k :| k in todo;
      ghost var done := desc.Keys - todo;
      matches := CountWords(words, Split(desc[k], ' '), matches);
      AddKey(words, desc, done, k);
      assert desc.Keys - (todo - {k}) == done + {k};
      todo := todo - {k};
    }
    assert desc.Keys - todo == desc.Keys;
    assert words == Words(req);
    CardOfElements(matches.Keys, words);
    s := Fraction(|matches.Keys|, |words|);
  }

  /** No word occurs twice in `s`. */
  predicate Distinct<T(==)>(s: seq<T>)
  {
    forall i, j :: 0 <= i < j < |s| ==> s[i] != s[j]
  }

  /** The elements of a sequence without repetitions are as many as its positions. */
  lemma {:induction false} CardOfDistinct<T>(s: seq<T>)
    requires Distinct(s)
    ensures |set x | x in s| == |s|
  {
    if |s| > 0 {
      var init := s[..|s| - 1];
      var last := s[|s| - 1];
      CardOfDistinct(init);
      assert (set x | x in s) == (set x | x in init) + {last};
      forall i | 0 <= i < |init|
        ensures init[i] != last
      {
        assert init[i] == s[i];
      }
    }
  }

  /** When every word occurs in some value, all of them are matched. */
  lemma AllMatched(words: seq<String>, desc: map<String, String>)
    requires forall w :: w in words ==> exists k :: k in desc && w in Split(desc[k], ' ')
    ensures MatchedIn(words, desc, desc.Keys) == set x | x in words
  {
    forall w | w in words
      ensures w in MatchedIn(words, desc, desc.Keys)
    {
      var k :| k in desc && w in Split(desc[k], ' ');
    }
  }

  /** A request whose words are distinct and all occur in the description scores exactly 1. */
  lemma FullMatchScoresOne(req: map<String, String>, desc: map<String, String>)
    requires HasGeneral(req) && Distinct(Words(req))
    requires forall w :: w in Words(req) ==> exists k :: k in desc && w in Split(desc[k], ' ')
    ensures ScoreOf(req, desc) == 1.0
  {
    var words := Words(req);
    AllMatched(words, desc);
    CardOfDistinct(words);
    var n := |MatchedIn(words, desc, desc.Keys)|;
    assert n == |words|;
    assert ScoreOf(req, desc) == Fraction(n, |words|);
    assert Fraction(n, n) == 1.0;
  }

  /** A description without any request word scores 0: such a meme is never a result. */
  lemma NoMatchScoresZero(req: map<String, String>, desc: map<String, String>)
    requires HasGeneral(req)
    requires forall k :: k in desc ==> forall w :: w in Split(desc[k], ' ') ==> w !in Words(req)
    ensures ScoreOf(req, desc) == 0.0
  {
    assert MatchedIn(Words(req), desc, desc.Keys) == {};
  }

  /** The memes that score at least `MinScore`, in listing order, as score results. */
  ghost function Hits(memes: seq<Meme>, req: map<String, String>): (res: seq<ScoreResult>)
    ensures |res| <= |memes|
    ensures forall k :: 0 <= k < |res| ==> (res[k].score >= MinScore
      && exists i :: 0 <= i < |memes| && memes[i].id == res[k].id && ScoreOf(req, memes[i].description) == res[k].score)
    ensures forall i :: (0 <= i < |memes| && ScoreOf(req, memes[i].description) >= MinScore
      ==> ScoreResult(ScoreOf(req, memes[i].description), memes[i].id) in res)
  {
    if |memes| == 0 then []
    else
      var init := memes[..|memes| - 1];
      var m := memes[|memes| - 1];
      var s := ScoreOf(req, m.description);
      var prefix := Hits(init, req);
      var res := if s < MinScore then prefix else prefix + [ScoreResult(s, m.id)];
      assert forall k :: 0 <= k < |prefix| ==> res[k] == prefix[k];
      assert forall i :: 0 <= i < |init| ==> memes[i] == init[i];
      res
  }

  /** A request without a non-empty "general" field finds nothing. */
  lemma {:induction false} NoGeneralNoHits(memes: seq<Meme>, req: map<String, String>)
    requires !HasGeneral(req)
    ensures Hits(memes, req) == []
  {
    if |memes| > 0 {
      NoGeneralNoHits(memes[..|memes| - 1], req);
    }
  }

  /**
   * The fetches from `off` on: a page at a time, each starting where the memes received so far end,
   * up to the first empty page. The first fetch that fails ends it with that error, wrapped with its offset.
   */
  ghost function Fetched(fetch: (int, int) -> Result<seq<Meme>, Error>, all: seq<Meme>, off: int): Result<seq<Meme>, Error>
    requires Paged(fetch, all) && 0 <= off <= |all|
    decreases |all| - off
  {
    match fetch(off, PageSize)
    case Err(e) => Err(Wrapped("can't get memes with offset " + Itoa(off), e))
    case Ok(page) =>
      if |page| == 0 then Ok([])
      else
        assert page == Window(all, off, PageSize);
        Prepend(page, Fetched(fetch, all, off + |page|))
  }

  /** Fetches that succeed receive every meme from `off` on. */
  lemma {:induction false} FetchedIsRest(fetch: (int, int) -> Result<seq<Meme>, Error>, all: seq<Meme>, off: int)
    requires Paged(fetch, all) && 0 <= off <= |all|
    ensures Fetched(fetch, all, off).Ok? ==> Fetched(fetch, all, off).value == all[off..]
    decreases |all| - off
  {
    var page := fetch(off, PageSize);
    if page.Ok? && |page.value| > 0 {
      var n := |page.value|;
      assert page.value == all[off..off + n];
      FetchedIsRest(fetch, all, off + n);
      assert all[off..] == all[off..off + n] + all[off + n..];
    } else if page.Ok? {
      assert Window(all, off, PageSize) == [];
    }
  }

  /** A listing that never fails is fetched to its end. */
  lemma {:induction false} FetchedNeverFails(fetch: (int, int) -> Result<seq<Meme>, Error>, all: seq<Meme>, off: int)
    requires Paged(fetch, all) && 0 <= off <= |all| && NeverFails(fetch, PageSize)
    ensures Fetched(fetch, all, off).Ok?
    decreases |all| - off
  {
    var page := fetch(off, PageSize);
    assert page.Ok?;
    if |page.value| > 0 {
      assert page.value == Window(all, off, PageSize);
      FetchedNeverFails(fetch, all, off + |page.value|);
    }
  }

  /** A failing first fetch ends the search with its error, wrapped with offset 0. */
  lemma FirstFetchFails(fetch: (int, int) -> Result<seq<Meme>, Error>, all: seq<Meme>)
    requires Paged(fetch, all) && fetch(0, PageSize).Err?
    ensures Fetched(fetch, all, 0) == Err(Wrapped("can't get memes with offset 0", fetch(0, PageSize).error))
  {
    var e := fetch(0, PageSize).error;
    assert Fetched(fetch, all, 0) == Err(Wrapped("can't get memes with offset " + Itoa(0), e));
    assert Itoa(0) == "0";
    assert "can't get memes with offset " + "0" == "can't get memes with offset 0";
  }

  /** The fetch loop of `SearchForBoard`: every meme of the board, or the first fetch error, wrapped. */
  method FetchAll(fetch: (int, int) -> Result<seq<Meme>, Error>, ghost all: seq<Meme>)
    returns (r: Result<seq<Meme>, Error>)
    requires Paged(fetch, all)
    ensures r == Fetched(fetch, all, 0)
    ensures r.Ok? ==> r.value == all
    ensures NeverFails(fetch, PageSize) ==> r.Ok?
  {
    var memes: seq<Meme> := [];
    var getOffset := 0;
    while true
      invariant 0 <= getOffset <= |all|
      invariant memes == all[..getOffset]
      invariant Fetched(fetch, all, 0) == Prepend(memes, Fetched(fetch, all, getOffset))
      decreases |all| - getOffset
    {
      var newMemes := fetch(getOffset, PageSize);
      if newMemes.Err? {
        return Err(Wrapped("can't get memes with offset " + Itoa(getOffset), newMemes.error));
      }
      if |newMemes.value| == 0 {
        assert memes + [] == memes;
        break;
      }
      assert newMemes.value == Window(all, getOffset, PageSize);
      assert all[..getOffset + |newMemes.value|] == memes + newMemes.value;
      PrependTwice(memes, newMemes.value, Fetched(fetch, all, getOffset + |newMemes.value|));
      getOffset := getOffset + |newMemes.value|;
      memes := memes + newMemes.value;
    }
    assert memes == all;
    r := Ok(memes);
  }

  /** The scoring loop of `SearchForBoard`: the hits of `memes`, in order. */
  method ScoreAll(memes: seq<Meme>, req: map<String, String>) returns (res: seq<ScoreResult>)
    ensures res == Hits(memes, req)
  {
    res := [];
    var i := 0;
    while i < |memes|
      invariant 0 <= i <= |memes|
      invariant res == Hits(memes[..i], req)
    {
      assert memes[..i + 1][..i] == memes[..i];
      var score := Score(req, memes[i].description);
      if score >= MinScore {
        res := res + [ScoreResult(score, memes[i].id)];
      }
      i := i + 1;
    }
    assert memes[..i] == memes;
  }

  /**
   * `SearchForBoard`. `fetch(offset, limit)` is `GetMemesByBoardID(ctx, id, offset, limit)` for the
   * searched board. The fetch offset advances by the number of memes received until an empty page;
   * the window `res[offset : min(offset+limit, len(res))]` panics when `offset` is negative or
   * beyond its end.
   */
  method SearchForBoard(req: map<String, String>, offset: int, limit: int,
                        fetch: (int, int) -> Result<seq<Meme>, Error>, ghost all: seq<Meme>)
    returns (r: Outcome<ScoreResult>)
    requires Paged(fetch, all)
    ensures r.Results? ==> var res := SortDesc(Hits(all, req), ResultKey);
      0 <= offset <= Min(offset + limit, |res|) && r.items == res[offset..Min(offset + limit, |res|)]
    ensures NeverFails(fetch, PageSize) ==> !r.Failed?
    ensures NeverFails(fetch, PageSize) ==>
      (r.Panicked? <==> !(0 <= offset <= Min(offset + limit, |Hits(all, req)|)))
    ensures r.Failed? ==> !NeverFails(fetch, PageSize)
    ensures r.Failed? <==> Fetched(fetch, all, 0).Err?
    ensures r.Failed? ==> r.error == Fetched(fetch, all, 0).error
    ensures Fetched(fetch, all, 0).Ok? ==>
      (r.Panicked? <==> !(0 <= offset <= Min(offset + limit, |Hits(all, req)|)))
  {
    var fetched := FetchAll(fetch, all);
    if fetched.Err? {
      return Failed(fetched.error);
    }
    var res := ScoreAll(fetched.value, req);
    res := SortDesc(res, ResultKey);
    var right := Min(offset + limit, |res|);
    if offset < 0 || right < offset {
      return Panicked;
    }
    r := Results(res[offset..right]);
  }

  /** What a search returns: results of at least `MinScore`, best first, each the score of a fetched meme. */
  lemma SearchResults(all: seq<Meme>, req: map<String, String>)
    ensures var res := SortDesc(Hits(all, req), ResultKey);
      && SortedDesc(res, ResultKey)
      && (forall x :: x in res ==> (x.score >= MinScore
            && exists i :: 0 <= i < |all| && all[i].id == x.id && ScoreOf(req, all[i].description) == x.score))
      && (forall i :: (0 <= i < |all| && ScoreOf(req, all[i].description) >= MinScore
            ==> ScoreResult(ScoreOf(req, all[i].description), all[i].id) in res))
  {
    var hits := Hits(all, req);
    SortDescMembers(hits, ResultKey);
    forall x | x in hits
      ensures x.score >= MinScore
        && exists i :: 0 <= i < |all| && all[i].id == x.id && ScoreOf(req, all[i].description) == x.score
    {
      var k :| 0 <= k < |hits| && hits[k] == x;
    }
  }
}
