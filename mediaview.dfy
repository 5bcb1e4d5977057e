/**
 * The media-view state of the chat bot (tg-client/internal/statemachine/mediaview_state.go): a
 * pager over search results that moves on with "/next", leaves with "/exit", and sends each page
 * as one media group. Also the states a chat can be in.
 */
module MediaView {
  import opened Wrappers
  import opened Text
  import opened BotErrors
  import opened Telegram
  import ClientModels

  /** The state a chat is in: the central state, or a media view. */
  datatype State = Central | MediaView(view: MediaViewState)

  /** The results of one call of `f` that succeed, in order; failing ones are dropped. */
  function Kept<A, B>(xs: seq<A>, f: A -> Result<B, BotError>): (ys: seq<B>)
    ensures |ys| <= |xs|
  {
    if |xs| == 0 then []
    else
      var rest := Kept(xs[1..], f);
      match f(xs[0])
      case Ok(y) => [y] + rest
      case Err(_) => rest
  }

  /** One more input adds its result when it succeeds. */
  lemma {:induction false} KeptSnoc<A, B>(xs: seq<A>, x: A, f: A -> Result<B, BotError>)
    ensures Kept(xs + [x], f) == Kept(xs, f) + (if f(x).Ok? then [f(x).value] else [])
  {
    if |xs| == 0 {
      assert [x][1..] == [];
      assert xs + [x] == [x];
    } else {
      assert (xs + [x])[0] == xs[0];
      assert (xs + [x])[1..] == xs[1..] + [x];
      KeptSnoc(xs[1..], x, f);
    }
  }

  /** Exactly the successful results are kept: every kept value comes from an input, and every success is kept. */
  lemma {:induction false} KeptMembers<A, B>(xs: seq<A>, f: A -> Result<B, BotError>)
    ensures forall y :: y in Kept(xs, f) ==> exists i :: 0 <= i < |xs| && f(xs[i]) == Ok(y)
    ensures forall i :: 0 <= i < |xs| && f(xs[i]).Ok? ==> f(xs[i]).value in Kept(xs, f)
  {
    if |xs| > 0 {
      KeptMembers(xs[1..], f);
      forall y | y in Kept(xs, f)
        ensures exists i :: 0 <= i < |xs| && f(xs[i]) == Ok(y)
      {
        if y !in Kept(xs[1..], f) {
          assert f(xs[0]) == Ok(y);
        } else {
          var i :| 0 <= i < |xs[1..]| && f(xs[1..][i]) == Ok(y);
          assert f(xs[i + 1]) == Ok(y);
        }
      }
      forall i | 0 <= i < |xs| && f(xs[i]).Ok?
        ensures f(xs[i]).value in Kept(xs, f)
      {
        if i > 0 {
          assert xs[i] == xs[1..][i - 1];
        }
      }
    }
  }

  /** How many results a fetch asks for. */
  const PageSize := 10

  /** Where a chat in media view goes after a message. */
  datatype Next = Stay | ToCentral

  /**
   * What one message does to a media view: where the chat goes, the view's new page and skip
   * flag, the error, the texts sent to the chat and the media group sent, if any.
   */
  datatype Step = Step(next: Next, page: int, skip: bool, err: Option<BotError>,
                       said: seq<String>, group: Option<seq<MediaGroupEntry>>)

  /**
   * `sendMemes` on a fetched page: "No more memes" for an empty page, then the media group of the
   * memes whose media could be prepared, in order.
   */
  function ShowPage(memes: seq<ClientModels.ScoredMeme>, prepare: ClientModels.ScoredMeme -> Result<MediaGroupEntry, BotError>): (s: (seq<String>, seq<MediaGroupEntry>))
    ensures s.0 == (if |memes| == 0 then ["No more memes"] else [])
    ensures s.1 == Kept(memes, prepare)
    ensures |s.1| <= |memes|
    ensures forall e :: e in s.1 ==> exists i :: 0 <= i < |memes| && prepare(memes[i]) == Ok(e)
    ensures forall i :: 0 <= i < |memes| && prepare(memes[i]).Ok? ==> prepare(memes[i]).value in s.1
  {
    KeptMembers(memes, prepare);
    (if |memes| == 0 then ["No more memes"] else [], Kept(memes, prepare))
  }

  /** Fetch the view's page and show it; a failed fetch sends the chat back to the central state. */
  function Fetch(page: int, getMedias: (int, int) -> Result<seq<ClientModels.ScoredMeme>, BotError>,
                 prepare: ClientModels.ScoredMeme -> Result<MediaGroupEntry, BotError>): (s: Step)
    ensures !s.skip && s.page == page
    ensures s.next == ToCentral <==> getMedias(page, PageSize).Err?
  {
    match getMedias(page, PageSize)
    case Err(e) => Step(ToCentral, page, false, Some(Wrapped("can't get medias", e)), [], None)
    case Ok(memes) =>
      var shown := ShowPage(memes, prepare);
      Step(Stay, page, false, None, shown.0, Some(shown.1))
  }

  /**
   * `MediaViewState.Process` as a function of the view: unless a fetch is pending, no message
   * keeps the view as it is, "/next" moves to the next page and fetches it, "/exit" leaves, and any
   * other text repeats the usage; a pending fetch fetches the current page without reading the message.
   */
  function ViewStep(page: int, skip: bool, u: Update,
                    getMedias: (int, int) -> Result<seq<ClientModels.ScoredMeme>, BotError>,
                    prepare: ClientModels.ScoredMeme -> Result<MediaGroupEntry, BotError>): (s: Step)
    ensures skip ==> s == Fetch(page, getMedias, prepare)
    ensures !skip && u.message.None? ==> s == Step(Stay, page, skip, None, [], None)
    ensures !skip && u.message.Some? && u.message.value.text == "/next" ==> s == Fetch(page + 1, getMedias, prepare)
    ensures !skip && u.message.Some? && u.message.value.text == "/exit" ==>
      s == Step(ToCentral, page, skip, None, ["Exited media view."], None)
    ensures !skip && u.message.Some? && u.message.value.text !in {"/next", "/exit"} ==>
      s == Step(Stay, page, skip, None, ["Use /next to see next results or /exit to exit media view."], None)
    ensures s.group.Some? ==> s.page == (if skip then page else page + 1) && !s.skip && s.err.None?
  {
    if skip then Fetch(page, getMedias, prepare)
    else
      match u.message
      case None => Step(Stay, page, skip, None, [], None)
      case Some(m) =>
        if m.text == "/next" then Fetch(page + 1, getMedias, prepare)
        else if m.text == "/exit" then Step(ToCentral, page, skip, None, ["Exited media view."], None)
        else Step(Stay, page, skip, None, ["Use /next to see next results or /exit to exit media view."], None)
  }

  /** Only "/next" or a pending fetch changes the page, and then by at most one. */
  lemma PageMovesByAtMostOne(page: int, skip: bool, u: Update,
                             getMedias: (int, int) -> Result<seq<ClientModels.ScoredMeme>, BotError>,
                             prepare: ClientModels.ScoredMeme -> Result<MediaGroupEntry, BotError>)
    ensures var s := ViewStep(page, skip, u, getMedias, prepare);
      && (s.page == page || s.page == page + 1)
      && (s.page == page + 1 <==> !skip && u.message.Some? && u.message.value.text == "/next")
      && (s.next == ToCentral ==> s.group.None?)
  {
  }

  class MediaViewState {
    var page: int
    var skip: bool
    const getMedias: (int, int) -> Result<seq<ClientModels.ScoredMeme>, BotError>

    constructor(page: int, skip: bool, getMedias: (int, int) -> Result<seq<ClientModels.ScoredMeme>, BotError>)
      ensures this.page == page && this.skip == skip && this.getMedias == getMedias
    {
      this.page := page;
      this.skip := skip;
      this.getMedias := getMedias;
    }

    /**
     * `Process`: the view is updated in place as `ViewStep` says, and the chat stays in this same
     * view or goes back to the central state.
     */
    method Process(u: Update, prepare: ClientModels.ScoredMeme -> Result<MediaGroupEntry, BotError>)
      returns (next: State, err: Option<BotError>, said: seq<String>, group: Option<seq<MediaGroupEntry>>)
      modifies this
      ensures var s := ViewStep(old(page), old(skip), u, getMedias, prepare);
        && page == s.page && skip == s.skip && err == s.err && said == s.said && group == s.group
        && next == (if s.next == Stay then MediaView(this) else Central)
    {
      if !skip {
        if u.message.None? {
          return MediaView(this), None, [], None;
        }
        var cmd := u.message.value.text;
        if cmd == "/next" {
          page := page + 1;
        } else if cmd == "/exit" {
          return Central, None, ["Exited media view."], None;
        } else {
          return MediaView(this), None, ["Use /next to see next results or /exit to exit media view."], None;
        }
      }
      skip := false;
      var memes := getMedias(page, PageSize);
      if memes.Err? {
        return Central, Some(Wrapped("can't get medias", memes.error)), [], None;
      }
      said, group := SendMemes(memes.value, prepare);
      next, err := MediaView(this), None;
    }
  }

  /** `sendMemes`: the media of each meme is prepared in turn; those that fail are left out. */
  method SendMemes(memes: seq<ClientModels.ScoredMeme>, prepare: ClientModels.ScoredMeme -> Result<MediaGroupEntry, BotError>)
    returns (said: seq<String>, group: Option<seq<MediaGroupEntry>>)
    ensures (said, group) == (ShowPage(memes, prepare).0, Some(ShowPage(memes, prepare).1))
  {
    said := if |memes| == 0 then ["No more memes"] else [];
    var entries := [];
    for i := 0 to |memes|
      invariant entries == Kept(memes[..i], prepare)
    {
      KeptSnoc(memes[..i], memes[i], prepare);
      assert memes[..i + 1] == memes[..i] + [memes[i]];
      var e := prepare(memes[i]);
      if e.Ok? {
        entries := entries + [e.value];
      }
    }
    assert memes[..|memes|] == memes;
    group := Some(entries);
  }
}
