/**
 * `api.Search` (internal/api/search.go): lists every meme the caller can see in batches of 200,
 * ranks them, and returns a clamped window of the ranking.
 */
module ApiSearch {
  import opened Wrappers
  import opened Text
  import opened Models
  import opened ServerErrors
  import opened Paging
  import Ranker

  const BatchSize: int := 200

  /**
   * The listings from `off` on: a batch at a time, each starting `BatchSize` after the previous one,
   * up to the first empty batch. The first listing that fails ends it with that error, wrapped with its offset.
   */
  ghost function Listed(list: (int, int) -> Result<seq<Meme>, Error>, all: seq<Meme>, off: int): Result<seq<Meme>, Error>
    requires Paged(list, all) && 0 <= off
    decreases |all| - off
  {
    match list(off, BatchSize)
    case Err(e) => Err(Wrapped("can't list memes with offset " + Itoa(off), e))
    case Ok(batch) =>
      if |batch| == 0 then Ok([])
      else
        assert batch == Window(all, off, BatchSize);
        Prepend(batch, Listed(list, all, off + BatchSize))
  }

  /** Listings that succeed receive every meme from `off` on. */
  lemma {:induction false} ListedIsRest(list: (int, int) -> Result<seq<Meme>, Error>, all: seq<Meme>, off: int)
    requires Paged(list, all) && 0 <= off
    ensures Listed(list, all, off).Ok? ==> Listed(list, all, off).value == all[Min(off, |all|)..]
    decreases |all| - off
  {
    var batch := list(off, BatchSize);
    if batch.Ok? && |batch.value| > 0 {
      var next := Min(off + BatchSize, |all|);
      assert batch.value == all[off..next];
      ListedIsRest(list, all, off + BatchSize);
      assert all[off..] == all[off..next] + all[next..];
    } else if batch.Ok? {
      assert Window(all, off, BatchSize) == [];
    }
  }

  /** A listing that never fails is read to its end. */
  lemma {:induction false} ListedNeverFails(list: (int, int) -> Result<seq<Meme>, Error>, all: seq<Meme>, off: int)
    requires Paged(list, all) && 0 <= off && NeverFails(list, BatchSize)
    ensures Listed(list, all, off).Ok?
    decreases |all| - off
  {
    var batch := list(off, BatchSize);
    assert batch.Ok?;
    if |batch.value| > 0 {
      assert batch.value == Window(all, off, BatchSize);
      ListedNeverFails(list, all, off + BatchSize);
    }
  }

  /** A failing first listing ends the search with its error, wrapped with offset 0. */
  lemma FirstListingFails(list: (int, int) -> Result<seq<Meme>, Error>, all: seq<Meme>)
    requires Paged(list, all) && list(0, BatchSize).Err?
    ensures Listed(list, all, 0) == Err(Wrapped("can't list memes with offset 0", list(0, BatchSize).error))
  {
    var e := list(0, BatchSize).error;
    assert Listed(list, all, 0) == Err(Wrapped("can't list memes with offset " + Itoa(0), e));
    assert Itoa(0) == "0";
    assert "can't list memes with offset " + "0" == "can't list memes with offset 0";
  }

  /**
   * The search. `list(offset, limit)` is the caller's `ListMemes(ctx, offset, limit, "id")` and
   * `rank` the configured ranker (`Ranker.Rank` by default); both are parameters. The listing
   * offset advances by the batch size, not by the number of memes received, until an empty batch.
   * The window is `res[min(offset, n) : min(offset+limit, n)]`, taken before a ranking error is
   * looked at, so a negative offset or a window that ends before it begins panics first.
   */
  method Search(req: map<String, String>, offset: int, limit: int,
                list: (int, int) -> Result<seq<Meme>, Error>, ghost all: seq<Meme>,
                rank: (seq<Meme>, map<String, String>) -> Result<seq<Ranker.ScoredMeme>, Error>)
    returns (r: Outcome<Ranker.ScoredMeme>)
    requires Paged(list, all)
    ensures r.Results? ==> rank(all, req).Ok? && 0 <= offset
    ensures r.Results? && 0 <= limit ==> r.items == Window(rank(all, req).value, offset, limit)
    ensures r.Results? && limit < 0 ==> r.items == []
    ensures 0 <= offset && 0 <= limit ==> !r.Panicked?
    ensures NeverFails(list, BatchSize) && rank(all, req).Ok? && 0 <= offset && 0 <= limit
      ==> r == Results(Window(rank(all, req).value, offset, limit))
    ensures NeverFails(list, BatchSize) && rank(all, req).Err? && 0 <= offset && 0 <= limit
      ==> r == Failed(Wrapped("can't rank", rank(all, req).error))
    ensures r.Failed? ==> !NeverFails(list, BatchSize) || rank(all, req).Err?
    ensures Listed(list, all, 0).Err? ==> r == Failed(Listed(list, all, 0).error)
    ensures r.Failed? ==> (
      || (Listed(list, all, 0).Err? && r.error == Listed(list, all, 0).error)
      || (Listed(list, all, 0).Ok? && rank(all, req).Err? && r.error == Wrapped("can't rank", rank(all, req).error)))
  {
    var memes: seq<Meme> := [];
    var listOffset := 0;
    while true
      invariant 0 <= listOffset
      invariant memes == all[..Min(listOffset, |all|)]
      invariant Listed(list, all, 0) == Prepend(memes, Listed(list, all, listOffset))
      decreases |all| - listOffset
    {
      var nmemes := list(listOffset, BatchSize);
      if nmemes.Err? {
        return Failed(Wrapped("can't list memes with offset " + Itoa(listOffset), nmemes.error));
      }
      if |nmemes.value| == 0 {
        assert memes + [] == memes;
        break;
      }
      assert listOffset < |all|;
      assert nmemes.value == Window(all, listOffset, BatchSize);
      PrependTwice(memes, nmemes.value, Listed(list, all, listOffset + BatchSize));
      listOffset := listOffset + BatchSize;
      memes := memes + nmemes.value;
    }
    assert memes == all;
    var ranked := rank(memes, req);
    var res := if ranked.Ok? then ranked.value else [];
    var begin := Min(offset, |res|);
    var end := Min(offset + limit, |res|);
    if begin < 0 || end < begin {
      return Panicked;
    }
    res := res[begin..end];
    if ranked.Err? {
      return Failed(Wrapped("can't rank", ranked.error));
    }
    r := Results(res);
  }
}
