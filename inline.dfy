/**
 * Inline queries of the chat bot (tg-client/internal/statemachine/inline.go): the page taken from
 * the query's offset, the "flags!request" syntax, the offset of the next page, and the filter of
 * cached media by the flags.
 */
module Inline {
  import opened Wrappers
  import opened Text
  import opened BotErrors
  import opened Telegram
  import ClientModels
  import MediaView

  /** The page an offset asks for: 1 for no offset, otherwise its value, with 0 for a malformed one. */
  function PageOf(offset: String): (page: int)
    ensures offset == [] ==> page == 1
    ensures offset != [] && Atoi(offset).Some? ==> page == Atoi(offset).value
    ensures offset != [] && Atoi(offset).None? ==> page == 0
  {
    if offset == [] then 1
    else match Atoi(offset)
      case Some(n) => n
      case None => 0
  }

  /** What an inline query asks for: the search request and the media flags. */
  datatype Query = Query(request: String, flags: String)

  /**
   * The query text split at '!': without one, the whole text is the request with flags "pv";
   * with one, the flags come before the first '!' and the request runs up to the next '!'.
   */
  function ParseQuery(q: String): (r: Query)
  {
    var parts := Split(q, '!');
    if |parts| > 1 then Query(parts[1], parts[0]) else Query(parts[0], "pv")
  }

  /** Without a '!', the whole query is the request and both kinds of media are wanted. */
  lemma ParseQueryPlain(q: String)
    requires '!' !in q
    ensures ParseQuery(q) == Query(q, "pv")
  {
    SplitWithoutSeparator(q, '!');
  }

  /**
   * With a '!', the flags are the text before the first '!', and the request is the text after it
   * up to the next '!' or the end.
   */
  lemma ParseQueryFlags(q: String)
    requires '!' in q
    ensures var r := ParseQuery(q);
      && '!' !in r.flags && '!' !in r.request
      && |r.flags| + 1 + |r.request| <= |q|
      && q[..|r.flags|] == r.flags && q[|r.flags|] == '!'
      && q[|r.flags| + 1..|r.flags| + 1 + |r.request|] == r.request
      && (|r.flags| + 1 + |r.request| == |q| || q[|r.flags| + 1 + |r.request|] == '!')
  {
    var parts := Split(q, '!');
    JoinSplit(q, '!');
    if |parts| == 1 {
      assert false;
    }
    var f, rq := parts[0], parts[1];
    assert '!' !in f && '!' !in rq;
    var tail := Join(parts[1..], '!');
    assert q == f + ['!'] + tail;
    var rest: String := [];
    if |parts| == 2 {
      assert tail == rq;
    } else {
      assert parts[1..][1..] == parts[2..];
      rest := ['!'] + Join(parts[2..], '!');
      assert tail == rq + rest;
    }
    assert q == f + ['!'] + rq + rest;
    assert q[..|f|] == f && q[|f|] == '!';
    assert q[|f| + 1..|f| + 1 + |rq|] == rq;
    assert rest == [] || q[|f| + 1 + |rq|] == '!';
  }

  /** The offset of the next page: the following page number when this one had results, otherwise none. */
  function NextOffset(page: int, found: nat): (offset: String)
    ensures offset == [] <==> found == 0
  {
    if found != 0 then Itoa(page + 1) else []
  }

  /** The next offset Telegram sends back asks for the page after this one. */
  lemma NextOffsetRoundTrip(page: int, found: nat)
    requires found > 0
    ensures PageOf(NextOffset(page, found)) == page + 1
  {
    AtoiItoa(page + 1);
  }

  /** An inline answer entry: a cached photo or a cached video, under the meme's id. */
  datatype InlineResult = CachedPhoto(id: String, fileID: String) | CachedVideo(id: String, fileID: String, title: String)

  /**
   * `prepareMeme`: the meme's cached media becomes an answer entry when the flags ask for its
   * kind ('p' for photos, 'v' for videos) and is skipped otherwise; a failed lookup or an unknown
   * media type is an error.
   */
  function PrepareMeme(meme: ClientModels.Meme, flags: String,
                       cached: String -> Result<CachedMedia, BotError>): (r: Result<InlineResult, BotError>)
    ensures r.Ok? <==> (
      && cached(meme.id).Ok?
      && ((cached(meme.id).value.mediaType == "photo" && 'p' in flags)
          || (cached(meme.id).value.mediaType == "video" && 'v' in flags)))
    ensures r.Ok? ==> (
      && r.value.id == meme.id && r.value.fileID == cached(meme.id).value.id
      && (r.value.CachedPhoto? <==> cached(meme.id).value.mediaType == "photo"))
    ensures r == Err(Skipped) <==> (
      && cached(meme.id).Ok?
      && ((cached(meme.id).value.mediaType == "photo" && 'p' !in flags)
          || (cached(meme.id).value.mediaType == "video" && 'v' !in flags)))
  {
    match cached(meme.id)
    case Err(e) => Err(Wrapped("can't get file id", e))
    case Ok(cm) =>
      if cm.mediaType == "photo" then
        if 'p' !in flags then Err(Skipped) else Ok(CachedPhoto(meme.id, cm.id))
      else if cm.mediaType == "video" then
        if 'v' !in flags then Err(Skipped) else Ok(CachedVideo(meme.id, cm.id, "Title"))
      else Err(Opaque("unexpected cm.Type: " + cm.mediaType))
  }

  /** The answer to an inline query: its id, the entries, and the next offset. */
  datatype InlineAnswer = InlineAnswer(queryID: String, results: seq<InlineResult>, nextOffset: String)

  /**
   * The answer to an inline query: page `PageOf(offset)` of ten search results for the parsed
   * request, answered with the memes whose entries could be prepared, in order; a failed search
   * answers nothing.
   */
  function AnswerOf(q: InlineQuery,
                    search: (int, int, String) -> Result<seq<ClientModels.ScoredMeme>, BotError>,
                    cached: String -> Result<CachedMedia, BotError>): (a: Option<InlineAnswer>)
  {
    var page := PageOf(q.offset);
    var query := ParseQuery(q.query);
    match search(page, 10, query.request)
    case Err(_) => None
    case Ok(memes) =>
      Some(InlineAnswer(q.id, MediaView.Kept(memes, (m: ClientModels.ScoredMeme) => PrepareMeme(m.meme, query.flags, cached)),
                        NextOffset(page, |memes|)))
  }

  /**
   * An answer holds exactly the memes the flags ask for and whose media is cached, and offers a
   * next page exactly when the search found something.
   */
  lemma AnswerContents(q: InlineQuery,
                       search: (int, int, String) -> Result<seq<ClientModels.ScoredMeme>, BotError>,
                       cached: String -> Result<CachedMedia, BotError>)
    requires AnswerOf(q, search, cached).Some?
    ensures var a := AnswerOf(q, search, cached).value;
      var query := ParseQuery(q.query);
      var memes := search(PageOf(q.offset), 10, query.request).value;
      && a.queryID == q.id
      && (a.nextOffset == [] <==> |memes| == 0)
      && (forall r :: r in a.results ==> exists i :: 0 <= i < |memes| && PrepareMeme(memes[i].meme, query.flags, cached) == Ok(r))
      && (forall i :: 0 <= i < |memes| && PrepareMeme(memes[i].meme, query.flags, cached).Ok? ==>
            PrepareMeme(memes[i].meme, query.flags, cached).value in a.results)
  {
    var query := ParseQuery(q.query);
    var memes := search(PageOf(q.offset), 10, query.request).value;
    var prepare := (m: ClientModels.ScoredMeme) => PrepareMeme(m.meme, query.flags, cached);
    MediaView.KeptMembers(memes, prepare);
  }

  /** `processInline`: the search, then the entries prepared one by one. */
  method ProcessInline(q: InlineQuery,
                       search: (int, int, String) -> Result<seq<ClientModels.ScoredMeme>, BotError>,
                       cached: String -> Result<CachedMedia, BotError>) returns (a: Option<InlineAnswer>)
    ensures a == AnswerOf(q, search, cached)
  {
    var page := PageOf(q.offset);
    var query := ParseQuery(q.query);
    var found := search(page, 10, query.request);
    if found.Err? {
      return None;
    }
    var memes := found.value;
    var next := NextOffset(page, |memes|);
    var prepare := (m: ClientModels.ScoredMeme) => PrepareMeme(m.meme, query.flags, cached);
    var results := [];
    for i := 0 to |memes|
      invariant results == MediaView.Kept(memes[..i], prepare)
    {
      MediaView.KeptSnoc(memes[..i], memes[i], prepare);
      assert memes[..i + 1] == memes[..i] + [memes[i]];
      var entry := PrepareMeme(memes[i].meme, query.flags, cached);
      if entry.Ok? {
        results := results + [entry.value];
      }
    }
    assert memes[..|memes|] == memes;
    a := Some(InlineAnswer(q.id, results, next));
  }
}
