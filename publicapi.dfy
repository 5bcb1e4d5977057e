/**
 * The api-server's public facade (internal/api/publicapi.go): every entry point validates its
 * arguments, then runs the matching access check (its refusal wrapped as "acl failed"), then
 * delegates to the service layer.
 */
module PublicApi {
  import opened Wrappers
  import opened Text
  import opened Models
  import opened ServerErrors
  import opened Paging
  import opened Api
  import Ranker
  import ApiSearch

  /** `fmt.Errorf("acl failed: %w", err)` for a refusing check, nil for a passing one. */
  function AclFailed(acl: Option<Error>): (r: Option<Error>)
    ensures r == None <==> acl == None
    ensures acl.Some? ==> r == Some(Wrapped("acl failed", acl.value))
  {
    match acl
    case None => None
    case Some(e) => Some(Wrapped("acl failed", e))
  }

  /** `API.GetBoardByID`: the read check in front of the service's lookup changes no answer. */
  function GetBoard(st: Store, ctx: Ctx, id: BoardID): (r: Result<Board, Error>)
    ensures r == GetBoardByID(st, ctx, id)
  {
    match AclFailed(AclGetBoard(ctx, id))
    case Some(e) => Err(e)
    case None => GetBoardByID(st, ctx, id)
  }

  /** `API.GetMemeByID`: likewise the same answer as the service's lookup. */
  function GetMeme(st: Store, ctx: Ctx, id: MemeID): (r: Result<Meme, Error>)
    ensures r == GetMemeByID(st, ctx, id)
  {
    match AclFailed(AclGetMeme(st, ctx, id))
    case Some(e) => Err(e)
    case None => GetMemeByID(st, ctx, id)
  }

  /** `API.ListBoards`: the facade adds the login check the service's listing lacks. */
  function ListAllBoards(ctx: Ctx, offset: int, limit: int, sortBy: String,
                         list: (UserID, int, int, String) -> Result<seq<Board>, Error>): (r: Result<seq<Board>, Error>)
    ensures Anonymous(ctx) ==> r == Err(Unauthorized)
    ensures !Anonymous(ctx) ==> r == ListBoards(ctx, offset, limit, sortBy, list)
  {
    if Anonymous(ctx) then Err(Unauthorized) else ListBoards(ctx, offset, limit, sortBy, list)
  }

  /**
   * The checks of `API.UpdateBoard`. With a new owner given, the board id (not the new owner)
   * is validated under the parameter name "new owner", so a missing board is an invalid parameter
   * rather than an access failure.
   */
  function UpdateBoardCheck(st: Store, ctx: Ctx, id: BoardID, owner: Option<UserID>): (r: Option<Error>)
    ensures r == None <==> OwnsBoard(st, ctx, id)
    ensures owner.Some? && !Anonymous(ctx) && !st.offline && id !in st.boards
      ==> r == Some(Invalid("new owner", "board don't exist"))
    ensures owner.None? ==> r == AclFailed(AclUpdateBoard(st, ctx, id))
  {
    var invalid := if owner.Some? then ValidateBoard(st, ctx, id, "new owner") else None;
    if invalid.Some? then invalid else AclFailed(AclUpdateBoard(st, ctx, id))
  }

  /**
   * The checks of `API.CreateMeme`: the target board must exist (parameter "meme's board") and
   * the caller must be allowed to post to it.
   */
  function CreateMemeCheck(st: Store, ctx: Ctx, board: BoardID): (r: Option<Error>)
    ensures r == None <==> OwnsBoard(st, ctx, board)
    ensures !Anonymous(ctx) && !st.offline && board !in st.boards
      ==> r == Some(Invalid("meme's board", "board don't exist"))
    ensures !Anonymous(ctx) && !st.offline && board in st.boards && !OwnsBoard(st, ctx, board)
      ==> r == Some(Wrapped("acl failed", Wrapped("acl update board failed", Forbidden)))
  {
    var invalid := ValidateBoard(st, ctx, board, "meme's board");
    if invalid.Some? then invalid else AclFailed(AclPostMeme(st, ctx, board))
  }

  /**
   * The checks of `API.UpdateMeme`: a new board, when given, must exist, and the caller must own
   * the meme's current board.
   */
  function UpdateMemeCheck(st: Store, ctx: Ctx, id: MemeID, board: Option<BoardID>): (r: Option<Error>)
    requires st.Valid()
    ensures r == None <==> OwnsMeme(st, ctx, id) && (board.Some? ==> board.value in st.boards)
    ensures board.Some? && !Anonymous(ctx) && !st.offline && board.value !in st.boards
      ==> r == Some(Invalid("meme's board", "board don't exist"))
  {
    var invalid := if board.Some? then ValidateBoard(st, ctx, board.value, "meme's board") else None;
    if invalid.Some? then invalid else AclFailed(AclUpdateMeme(st, ctx, id))
  }

  /**
   * The checks of `API.Subscribe`: the board must be readable (its error wrapped "can't get
   * board"), then the caller may subscribe only themselves.
   */
  function SubscribeCheck(st: Store, ctx: Ctx, user: UserID, board: BoardID, role: String): (r: Option<Error>)
    ensures r == None <==> !Anonymous(ctx) && !st.offline && board in st.boards && ctx.userId == user
    ensures Anonymous(ctx) ==> r == Some(Wrapped("can't get board", Wrapped("acl failed", Unauthorized)))
    ensures !Anonymous(ctx) && !st.offline && board in st.boards && ctx.userId != user
      ==> r == Some(Wrapped("acl failed", Forbidden))
  {
    match GetBoard(st, ctx, board)
    case Err(e) => Some(Wrapped("can't get board", e))
    case Ok(_) => AclFailed(AclSubscribe(ctx, user, board, role))
  }

  /** The check of `API.Unsubscribe`. */
  function UnsubscribeCheck(st: Store, ctx: Ctx, user: UserID, board: BoardID, role: String): (r: Option<Error>)
    ensures r == None <==> !Anonymous(ctx) && (ctx.userId == user || OwnsBoard(st, ctx, board))
  {
    AclFailed(AclUnsubscribe(st, ctx, user, board, role))
  }

  /** Subscribing needs an existing board, unsubscribing oneself does not. */
  lemma SubscribeStricterThanUnsubscribe(st: Store, ctx: Ctx, board: BoardID, role: String)
    requires !Anonymous(ctx)
    ensures UnsubscribeCheck(st, ctx, ctx.userId, board, role) == None
    ensures SubscribeCheck(st, ctx, ctx.userId, board, role) == None <==> !st.offline && board in st.boards
  {
  }

  /** The checks of `API.GetUserByID`, `API.UpdateUser` and `API.DeleteUser`: one's own record only. */
  function UserCheck(ctx: Ctx, id: UserID): (r: Option<Error>)
    ensures r == None <==> !Anonymous(ctx) && ctx.userId == id
    ensures !Anonymous(ctx) && ctx.userId != id ==> r == Some(Wrapped("acl failed", Forbidden))
  {
    AclFailed(AclSelf(ctx, id))
  }

  /** The checks of `API.GetMedia` and `API.SetMedia`: those of the meme with the same id. */
  function MediaCheck(st: Store, ctx: Ctx, id: MediaID, update: bool): (r: Option<Error>)
    requires st.Valid()
    ensures !update ==> (r == None <==> !Anonymous(ctx) && MemeOnBoard(st, id))
    ensures update ==> (r == None <==> OwnsMeme(st, ctx, id))
  {
    if update then AclFailed(AclUpdateMedia(st, ctx, id)) else AclFailed(AclGetMedia(st, ctx, id))
  }

  /**
   * `API.Search`: an empty request is refused before anything is listed; otherwise the service's
   * search runs over the caller's listing.
   */
  method Search(req: map<String, String>, offset: int, limit: int,
                list: (int, int) -> Result<seq<Meme>, Error>, ghost all: seq<Meme>,
                rank: (seq<Meme>, map<String, String>) -> Result<seq<Ranker.ScoredMeme>, Error>)
    returns (r: Outcome<Ranker.ScoredMeme>)
    requires Paged(list, all)
    ensures |req| == 0 ==> r == Failed(Invalid("reqest", "request shouldn't be empty"))
    ensures |req| > 0 && NeverFails(list, ApiSearch.BatchSize) && rank(all, req).Ok? && 0 <= offset && 0 <= limit
      ==> r == Results(Window(rank(all, req).value, offset, limit))
    ensures r.Results? ==> |req| > 0 && rank(all, req).Ok? && 0 <= offset
    ensures r.Results? && 0 <= limit ==> r.items == Window(rank(all, req).value, offset, limit)
    ensures |req| > 0 && 0 <= offset && 0 <= limit ==> !r.Panicked?
    ensures |req| > 0 && ApiSearch.Listed(list, all, 0).Err? ==> r == Failed(ApiSearch.Listed(list, all, 0).error)
    ensures |req| > 0 && NeverFails(list, ApiSearch.BatchSize) && rank(all, req).Err? && 0 <= offset && 0 <= limit
      ==> r == Failed(Wrapped("can't rank", rank(all, req).error))
    ensures |req| > 0 && r.Failed? ==> (
      || (ApiSearch.Listed(list, all, 0).Err? && r.error == ApiSearch.Listed(list, all, 0).error)
      || (ApiSearch.Listed(list, all, 0).Ok? && rank(all, req).Err? && r.error == Wrapped("can't rank", rank(all, req).error)))
  {
    if |req| == 0 {
      return Failed(Invalid("reqest", "request shouldn't be empty"));
    }
    r := ApiSearch.Search(req, offset, limit, list, all, rank);
  }

  /** `API`: the facade over one service. */
  class API {
    const api: Service

    constructor (st: Store)
      ensures fresh(api) && api.store == st
    {
      api := new Service(st);
    }

    /** `API.CreateBoard`: the login check, then the service's insert. */
    method CreateBoard(ctx: Ctx, name: String, newId: BoardID) returns (r: Result<Board, Error>)
      requires api.store.Valid() && newId !in api.store.boards
      modifies api
      ensures api.store.Valid()
      ensures Anonymous(ctx) ==> r == Err(Unauthorized) && api.store == old(api.store)
      ensures !Anonymous(ctx) && old(api.store).offline
        ==> r == Err(Wrapped("can't create board", DbFault)) && api.store == old(api.store)
      ensures r.Ok? <==> !Anonymous(ctx) && !old(api.store).offline
      ensures r.Ok? ==> (r.value == Board(newId, ctx.userId, name)
        && api.store == old(api.store).(boards := old(api.store).boards[newId := r.value]))
    {
      if Anonymous(ctx) {
        return Err(Unauthorized);
      }
      r := api.CreateBoard(ctx, name, newId);
    }

    /** `API.UpdateBoard`: the checks of `UpdateBoardCheck`, then the service's update. */
    method UpdateBoard(ctx: Ctx, id: BoardID, name: Option<String>, owner: Option<UserID>)
      returns (r: Result<Board, Error>)
      requires api.store.Valid()
      modifies api
      ensures api.store.Valid()
      ensures UpdateBoardCheck(old(api.store), ctx, id, owner).Some?
        ==> r == Err(UpdateBoardCheck(old(api.store), ctx, id, owner).value) && api.store == old(api.store)
      ensures r.Ok? <==> OwnsBoard(old(api.store), ctx, id)
      ensures r.Ok? ==> (r.value == MergeBoard(old(api.store).boards[id], name, owner)
        && api.store == old(api.store).(boards := old(api.store).boards[id := r.value]))
    {
      var check := UpdateBoardCheck(api.store, ctx, id, owner);
      if check.Some? {
        return Err(check.value);
      }
      r := api.UpdateBoard(ctx, id, name, owner);
    }

    /** `API.DeleteBoard`: the owner-only check, then the service's delete. */
    method DeleteBoard(ctx: Ctx, id: BoardID) returns (r: Result<Board, Error>)
      requires api.store.Valid()
      modifies api
      ensures api.store.Valid()
      ensures AclDeleteBoard(old(api.store), ctx, id).Some?
        ==> r == Err(Wrapped("acl failed", AclDeleteBoard(old(api.store), ctx, id).value)) && api.store == old(api.store)
      ensures r.Ok? <==> OwnsBoard(old(api.store), ctx, id)
      ensures r.Ok? ==> (r.value == old(api.store).boards[id]
        && api.store == old(api.store).(boards := old(api.store).boards - {id}))
    {
      var check := AclFailed(AclDeleteBoard(api.store, ctx, id));
      if check.Some? {
        return Err(check.value);
      }
      r := api.DeleteBoard(ctx, id);
    }

    /** `API.CreateMeme`: the checks of `CreateMemeCheck`, then the service's insert. */
    method CreateMeme(ctx: Ctx, board: BoardID, filename: String, dsc: map<String, String>,
                      newId: MemeID, now: Timestamp) returns (r: Result<MemeID, Error>)
      requires api.store.Valid() && newId !in api.store.memes
      modifies api
      ensures api.store.Valid()
      ensures CreateMemeCheck(old(api.store), ctx, board).Some?
        ==> r == Err(CreateMemeCheck(old(api.store), ctx, board).value) && api.store == old(api.store)
      ensures r.Ok? <==> OwnsBoard(old(api.store), ctx, board)
      ensures r.Ok? ==> (r.value == newId
        && api.store == old(api.store).(memes := old(api.store).memes[newId := Meme(newId, board, filename, dsc, now, now)]))
    {
      var check := CreateMemeCheck(api.store, ctx, board);
      if check.Some? {
        return Err(check.value);
      }
      r := api.CreateMeme(ctx, board, filename, dsc, newId, now);
    }

    /**
     * `API.UpdateMeme`: the checks of `UpdateMemeCheck`, then the service's update. Because a new
     * board is validated first, the service's re-read after the write can no longer fail: the
     * update succeeds exactly when the caller owns the meme and the new board exists.
     */
    method UpdateMeme(ctx: Ctx, id: MemeID, board: Option<BoardID>, filename: Option<String>,
                      dsc: Option<map<String, String>>, now: Timestamp) returns (r: Result<Meme, Error>)
      requires api.store.Valid()
      modifies api
      ensures api.store.Valid()
      ensures UpdateMemeCheck(old(api.store), ctx, id, board).Some?
        ==> r == Err(UpdateMemeCheck(old(api.store), ctx, id, board).value) && api.store == old(api.store)
      ensures r.Ok? <==> OwnsMeme(old(api.store), ctx, id) && (board.Some? ==> board.value in old(api.store).boards)
      ensures r.Ok? ==> (r.value == MergeMeme(old(api.store).memes[id], board, filename, dsc, now)
        && api.store == old(api.store).(memes := old(api.store).memes[id := r.value]))
    {
      var check := UpdateMemeCheck(api.store, ctx, id, board);
      if check.Some? {
        return Err(check.value);
      }
      r := api.UpdateMeme(ctx, id, board, filename, dsc, now);
    }

    /** `API.DeleteMeme`: the delete check, then the service's delete. */
    method DeleteMeme(ctx: Ctx, id: MemeID) returns (r: Option<Error>)
      requires api.store.Valid()
      modifies api
      ensures api.store.Valid()
      ensures r == None <==> OwnsMeme(old(api.store), ctx, id)
      ensures r.Some? ==> r == AclFailed(AclDeleteMeme(old(api.store), ctx, id)) && api.store == old(api.store)
      ensures r == None ==> api.store == old(api.store).(memes := old(api.store).memes - {id})
    {
      var check := AclFailed(AclDeleteMeme(api.store, ctx, id));
      if check.Some? {
        return check;
      }
      r := api.DeleteMeme(ctx, id);
    }
  }
}
