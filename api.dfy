/**
 * The api-server's service layer (`internal/api`): the access-control rules of acl.go, the
 * existence checks of validations.go, and the board and meme operations of board.go and meme.go
 * over a store of maps standing in for the database.
 */
module Api {
  import opened Wrappers
  import opened Text
  import opened Models
  import opened ServerErrors

  /**
   * The database as the service sees it. When `offline` every query fails with `DbFault`
   * (a connection or SQL error), the only storage failure besides a missing row.
   */
  datatype Store = Store(
    users: map<UserID, User>,
    boards: map<BoardID, Board>,
    memes: map<MemeID, Meme>,
    offline: bool)
  {
    /** Every row is stored under its own id. */
    ghost predicate Valid()
    {
      && (forall id :: id in boards ==> boards[id].id == id)
      && (forall id :: id in memes ==> memes[id].id == id)
    }
  }

  /** The error a query returns when the database cannot be reached. */
  const DbFault: Error := Plain("sql: database is closed")

  /** `GetUserID(ctx) == ""`: nobody is logged in. */
  predicate Anonymous(ctx: Ctx) { ctx.userId == [] }

  // ---- storage queries (psql): a missing row is the storage's own not-found sentinel ----

  function StoredBoard(st: Store, id: BoardID): (r: Result<Board, Error>)
    ensures r.Ok? <==> !st.offline && id in st.boards
    ensures r.Ok? ==> r.value == st.boards[id]
  {
    if st.offline then Err(DbFault)
    else if id !in st.boards then Err(StoreBoardNotFound)
    else Ok(st.boards[id])
  }

  function StoredMeme(st: Store, id: MemeID): (r: Result<Meme, Error>)
    ensures r.Ok? <==> !st.offline && id in st.memes
    ensures r.Ok? ==> r.value == st.memes[id]
  {
    if st.offline then Err(DbFault)
    else if id !in st.memes then Err(StoreMemeNotFound)
    else Ok(st.memes[id])
  }

  /** `GetUser` (user.go): the storage lookup with its not-found mapped to the api's `ErrUserNotFound`. */
  function GetUser(st: Store, id: UserID): (r: Result<User, Error>)
    ensures r.Ok? <==> !st.offline && id in st.users
    ensures r.Ok? ==> r.value == st.users[id]
    ensures r.Err? ==> (r.error == UserNotFound <==> !st.offline)
  {
    if st.offline then Err(Wrapped("can't get", DbFault))
    else if id !in st.users then Err(UserNotFound)
    else Ok(st.users[id])
  }

  // ---- acl.go ----

  /** `aclGetBoard`: any authenticated caller may read any board. */
  function AclGetBoard(ctx: Ctx, id: BoardID): (r: Option<Error>)
    ensures r == None <==> !Anonymous(ctx)
    ensures r.Some? ==> r.value == Unauthorized
  {
    if Anonymous(ctx) then Some(Unauthorized) else None
  }

  /**
   * `GetBoardByID` (board.go): the read check, then the storage lookup with its not-found mapped
   * to the api's `ErrBoardNotFound`.
   */
  function GetBoardByID(st: Store, ctx: Ctx, id: BoardID): (r: Result<Board, Error>)
    ensures r.Ok? <==> !Anonymous(ctx) && !st.offline && id in st.boards
    ensures r.Ok? ==> r.value == st.boards[id]
    ensures r.Err? && r.error == BoardNotFound <==> !Anonymous(ctx) && !st.offline && id !in st.boards
  {
    var acl := AclGetBoard(ctx, id);
    if acl.Some? then Err(Wrapped("acl failed", acl.value))
    else
      var b := StoredBoard(st, id);
      if b.Err? then
        if b.error == StoreBoardNotFound then Err(BoardNotFound) else Err(Wrapped("can't get board", b.error))
      else Ok(b.value)
  }

  /** The caller is logged in and owns the stored board `id`. */
  predicate OwnsBoard(st: Store, ctx: Ctx, id: BoardID)
  {
    !Anonymous(ctx) && !st.offline && id in st.boards && st.boards[id].owner == ctx.userId
  }

  /** `aclUpdateBoard`: only the board's owner may change it. */
  function AclUpdateBoard(st: Store, ctx: Ctx, id: BoardID): (r: Option<Error>)
    ensures r == None <==> OwnsBoard(st, ctx, id)
    ensures Anonymous(ctx) ==> r == Some(Unauthorized)
    ensures !Anonymous(ctx) && !st.offline && id in st.boards && st.boards[id].owner != ctx.userId
      ==> r == Some(Forbidden)
    ensures !Anonymous(ctx) && !st.offline && id !in st.boards
      ==> r == Some(Wrapped("can't get board", BoardNotFound))
  {
    if Anonymous(ctx) then Some(Unauthorized)
    else
      var board := GetBoardByID(st, ctx, id);
      if board.Err? then Some(Wrapped("can't get board", board.error))
      else if board.value.owner != ctx.userId then Some(Forbidden)
      else None
  }

  /** `aclDeleteBoard`: the same owner-only rule as `aclUpdateBoard`. */
  function AclDeleteBoard(st: Store, ctx: Ctx, id: BoardID): (r: Option<Error>)
    ensures r == AclUpdateBoard(st, ctx, id)
  {
    if Anonymous(ctx) then Some(Unauthorized)
    else
      var board := GetBoardByID(st, ctx, id);
      if board.Err? then Some(Wrapped("can't get board", board.error))
      else if board.value.owner != ctx.userId then Some(Forbidden)
      else None
  }

  /** `aclPostMeme`: posting to a board needs the right to update it. */
  function AclPostMeme(st: Store, ctx: Ctx, board: BoardID): (r: Option<Error>)
    ensures r == None <==> OwnsBoard(st, ctx, board)
    ensures Anonymous(ctx) ==> r == Some(Unauthorized)
  {
    if Anonymous(ctx) then Some(Unauthorized)
    else
      var e := AclUpdateBoard(st, ctx, board);
      if e.Some? then Some(Wrapped("acl update board failed", e.value)) else None
  }

  /** The meme `id` is stored and so is the board it belongs to. */
  predicate MemeOnBoard(st: Store, id: MemeID)
  {
    !st.offline && id in st.memes && st.memes[id].boardId in st.boards
  }

  /**
   * `aclGetMeme`: an authenticated caller may read a meme whose board exists. The meme is read
   * from storage (see README: read through `GetMemeByID` the two functions would call each other
   * forever), so a missing meme is reported as the api's `ErrMemeNotFound`.
   */
  function AclGetMeme(st: Store, ctx: Ctx, id: MemeID): (r: Option<Error>)
    ensures r == None <==> !Anonymous(ctx) && MemeOnBoard(st, id)
    ensures Anonymous(ctx) ==> r == Some(Unauthorized)
    ensures !Anonymous(ctx) && !st.offline && id !in st.memes ==> r == Some(MemeNotFound)
  {
    if Anonymous(ctx) then Some(Unauthorized)
    else
      var meme := StoredMeme(st, id);
      if meme.Err? then
        if meme.error == StoreMemeNotFound then Some(MemeNotFound) else Some(Wrapped("can't get meme", meme.error))
      else
        match GetBoardByID(st, ctx, meme.value.boardId)
        case Err(e) => Some(Wrapped("can't get board", e))
        case Ok(board) =>
          match AclGetBoard(ctx, board.id)
          case Some(e) => Some(Wrapped("acl get board failed", e))
          case None => None
  }

  /** `GetMemeByID` (meme.go): the read check, then the lookup with not-found mapped to `ErrMemeNotFound`. */
  function GetMemeByID(st: Store, ctx: Ctx, id: MemeID): (r: Result<Meme, Error>)
    ensures r.Ok? <==> !Anonymous(ctx) && MemeOnBoard(st, id)
    ensures r.Ok? ==> r.value == st.memes[id]
  {
    var acl := AclGetMeme(st, ctx, id);
    if acl.Some? then Err(Wrapped("acl failed", acl.value))
    else
      match StoredMeme(st, id)
      case Err(e) => if e == StoreMemeNotFound then Err(MemeNotFound) else Err(Wrapped("can't get meme", e))
      case Ok(m) => Ok(m)
  }

  /** The caller owns the board of the stored meme `id`. */
  predicate OwnsMeme(st: Store, ctx: Ctx, id: MemeID)
  {
    MemeOnBoard(st, id) && OwnsBoard(st, ctx, st.memes[id].boardId)
  }

  /** `aclUpdateMeme`: only the owner of the meme's board may change the meme. */
  function AclUpdateMeme(st: Store, ctx: Ctx, id: MemeID): (r: Option<Error>)
    requires st.Valid()
    ensures r == None <==> OwnsMeme(st, ctx, id)
    ensures Anonymous(ctx) ==> r == Some(Unauthorized)
  {
    if Anonymous(ctx) then Some(Unauthorized)
    else
      var meme := GetMemeByID(st, ctx, id);
      if meme.Err? then Some(Wrapped("can't get meme", meme.error))
      else
        match GetBoardByID(st, ctx, meme.value.boardId)
        case Err(e) => Some(Wrapped("can't get board", e))
        case Ok(board) =>
          var e := AclUpdateBoard(st, ctx, board.id);
          if e.Some? then Some(Wrapped("acl update board failed", e.value)) else None
  }

  /** `aclDeleteMeme`: the owner of the meme's board, through `aclDeleteBoard`. */
  function AclDeleteMeme(st: Store, ctx: Ctx, id: MemeID): (r: Option<Error>)
    requires st.Valid()
    ensures r == AclUpdateMeme(st, ctx, id)
  {
    if Anonymous(ctx) then Some(Unauthorized)
    else
      var meme := GetMemeByID(st, ctx, id);
      if meme.Err? then Some(Wrapped("can't get meme", meme.error))
      else
        match GetBoardByID(st, ctx, meme.value.boardId)
        case Err(e) => Some(Wrapped("can't get board", e))
        case Ok(board) =>
          var e := AclDeleteBoard(st, ctx, board.id);
          if e.Some? then Some(Wrapped("acl update board failed", e.value)) else None
  }

  /** `aclGetMedia`: a media object is readable when the meme with the same id is. */
  function AclGetMedia(st: Store, ctx: Ctx, id: MediaID): (r: Option<Error>)
    ensures r == None <==> AclGetMeme(st, ctx, id) == None
    ensures r.Some? ==> r.value == Wrapped("acl update meme failed", AclGetMeme(st, ctx, id).value)
  {
    var e := AclGetMeme(st, ctx, id);
    if e.Some? then Some(Wrapped("acl update meme failed", e.value)) else None
  }

  /** `aclUpdateMedia`: a media object may be replaced by whoever may update the meme. */
  function AclUpdateMedia(st: Store, ctx: Ctx, id: MediaID): (r: Option<Error>)
    requires st.Valid()
    ensures r == None <==> OwnsMeme(st, ctx, id)
    ensures r.Some? ==> r.value == Wrapped("acl update meme failed", AclUpdateMeme(st, ctx, id).value)
  {
    var e := AclUpdateMeme(st, ctx, id);
    if e.Some? then Some(Wrapped("acl update meme failed", e.value)) else None
  }

  /** `aclGetUser`, `aclUpdateUser` and `aclDeleteUser`: a user's record is the user's own. */
  function AclSelf(ctx: Ctx, id: UserID): (r: Option<Error>)
    ensures r == None <==> !Anonymous(ctx) && ctx.userId == id
    ensures r.Some? ==> r.value == (if Anonymous(ctx) then Unauthorized else Forbidden)
  {
    if Anonymous(ctx) then Some(Unauthorized)
    else if ctx.userId != id then Some(Forbidden)
    else None
  }

  /** `aclSubscribe`: users subscribe only themselves (any board, any role). */
  function AclSubscribe(ctx: Ctx, user: UserID, board: BoardID, role: String): (r: Option<Error>)
    ensures r == None <==> !Anonymous(ctx) && ctx.userId == user
    ensures r.Some? ==> r.value == (if Anonymous(ctx) then Unauthorized else Forbidden)
  {
    if Anonymous(ctx) then Some(Unauthorized)
    else if ctx.userId != user then Some(Forbidden)
    else None
  }

  /**
   * `aclUnsubscribe`: users may unsubscribe themselves, without the board being looked up, and a
   * board's owner may unsubscribe anyone from it.
   */
  function AclUnsubscribe(st: Store, ctx: Ctx, user: UserID, board: BoardID, role: String): (r: Option<Error>)
    ensures r == None <==> !Anonymous(ctx) && (ctx.userId == user || OwnsBoard(st, ctx, board))
    ensures Anonymous(ctx) ==> r == Some(Unauthorized)
    ensures !Anonymous(ctx) && ctx.userId != user && !st.offline && board in st.boards && !OwnsBoard(st, ctx, board)
      ==> r == Some(Forbidden)
  {
    if Anonymous(ctx) then Some(Unauthorized)
    else if ctx.userId == user then None
    else
      var b := GetBoardByID(st, ctx, board);
      if b.Err? then Some(Wrapped("can't get board", b.error))
      else if ctx.userId == b.value.owner then None
      else Some(Forbidden)
  }

  /** Self-unsubscription does not depend on the store at all. */
  lemma SelfUnsubscribeIgnoresStore(st1: Store, st2: Store, ctx: Ctx, board: BoardID, role: String)
    requires !Anonymous(ctx)
    ensures AclUnsubscribe(st1, ctx, ctx.userId, board, role) == AclUnsubscribe(st2, ctx, ctx.userId, board, role) == None
  {
  }

  /** Every direct check answers `ErrUnauthorized` to an anonymous caller, whatever the store holds. */
  lemma AnonymousIsUnauthorized(st: Store, ctx: Ctx, board: BoardID, meme: MemeID, user: UserID, role: String)
    requires Anonymous(ctx) && st.Valid()
    ensures AclGetBoard(ctx, board) == AclUpdateBoard(st, ctx, board) == AclDeleteBoard(st, ctx, board) == Some(Unauthorized)
    ensures AclPostMeme(st, ctx, board) == AclGetMeme(st, ctx, meme) == Some(Unauthorized)
    ensures AclUpdateMeme(st, ctx, meme) == AclDeleteMeme(st, ctx, meme) == Some(Unauthorized)
    ensures AclSelf(ctx, user) == AclSubscribe(ctx, user, board, role) == Some(Unauthorized)
    ensures AclUnsubscribe(st, ctx, user, board, role) == Some(Unauthorized)
  {
  }

  // ---- validations.go ----

  /** `validateUser`: nil when the user exists; a missing user is an invalid parameter. */
  function ValidateUser(st: Store, id: UserID, param: String): (r: Option<Error>)
    ensures r == None <==> GetUser(st, id).Ok?
    ensures r == Some(Invalid(param, "user don't exist")) <==> !st.offline && id !in st.users
    ensures r.Some? && !r.value.Invalid? ==> r.value == Wrapped("can't get user", GetUser(st, id).error)
  {
    var u := GetUser(st, id);
    if u.Ok? then None
    else if u.error == UserNotFound then Some(Invalid(param, "user don't exist"))
    else Some(Wrapped("can't get user", u.error))
  }

  /** `validateBoard`: nil exactly when the board can be read; a missing board is an invalid parameter. */
  function ValidateBoard(st: Store, ctx: Ctx, id: BoardID, param: String): (r: Option<Error>)
    ensures r == None <==> GetBoardByID(st, ctx, id).Ok?
    ensures r == Some(Invalid(param, "board don't exist")) <==> !Anonymous(ctx) && !st.offline && id !in st.boards
    ensures r.Some? && !r.value.Invalid? ==> r.value == Wrapped("can't get board", GetBoardByID(st, ctx, id).error)
  {
    var b := GetBoardByID(st, ctx, id);
    if b.Ok? then None
    else if b.error == BoardNotFound then Some(Invalid(param, "board don't exist"))
    else Some(Wrapped("can't get board", b.error))
  }

  /**
   * `validateMeme`: nil exactly when the meme can be read. The lookup reports a missing meme from
   * inside its read check, wrapped as "acl failed", so the `==` test against `ErrMemeNotFound`
   * never holds and a missing meme comes back wrapped rather than as an invalid parameter.
   */
  function ValidateMeme(st: Store, ctx: Ctx, id: MemeID, param: String): (r: Option<Error>)
    ensures r == None <==> GetMemeByID(st, ctx, id).Ok?
    ensures r.Some? && !r.value.Invalid? ==> r.value == Wrapped("can't get meme", GetMemeByID(st, ctx, id).error)
  {
    var m := GetMemeByID(st, ctx, id);
    if m.Ok? then None
    else if m.error == MemeNotFound then Some(Invalid(param, "meme don't exist"))
    else Some(Wrapped("can't get meme", m.error))
  }

  /** A missing meme is reported as a wrapped `ErrMemeNotFound`, never as `ErrInvalid`. */
  lemma MissingMemeNotInvalid(st: Store, ctx: Ctx, id: MemeID, param: String)
    requires !Anonymous(ctx) && !st.offline && id !in st.memes
    ensures ValidateMeme(st, ctx, id, param) == Some(Wrapped("can't get meme", Wrapped("acl failed", MemeNotFound)))
    ensures Is(ValidateMeme(st, ctx, id, param).value, MemeNotFound)
  {
  }

  // ---- board.go and meme.go ----

  /** The board after `UpdateBoard`'s partial merge: only the given fields are overwritten. */
  function MergeBoard(b: Board, name: Option<String>, owner: Option<UserID>): (r: Board)
    ensures r.id == b.id
    ensures r.name == (if name.Some? then name.value else b.name)
    ensures r.owner == (if owner.Some? then owner.value else b.owner)
  {
    var b1 := if name.Some? then b.(name := name.value) else b;
    if owner.Some? then b1.(owner := owner.value) else b1
  }

  /** The meme after `UpdateMeme`'s partial merge, stamped by the database's update time. */
  function MergeMeme(m: Meme, board: Option<BoardID>, filename: Option<String>,
                     dsc: Option<map<String, String>>, now: Timestamp): (r: Meme)
    ensures r.id == m.id && r.createdAt == m.createdAt && r.updatedAt == now
    ensures r.description == (if dsc.Some? then dsc.value else m.description)
    ensures r.filename == (if filename.Some? then filename.value else m.filename)
    ensures r.boardId == (if board.Some? then board.value else m.boardId)
  {
    var m1 := if dsc.Some? then m.(description := dsc.value) else m;
    var m2 := if filename.Some? then m1.(filename := filename.value) else m1;
    var m3 := if board.Some? then m2.(boardId := board.value) else m2;
    m3.(updatedAt := now)
  }

  /** Merging with nothing given changes nothing (apart from the update time for memes). */
  lemma MergeNothingIsIdentity(b: Board, m: Meme)
    ensures MergeBoard(b, None, None) == b
    ensures MergeMeme(m, None, None, None, m.updatedAt) == m
  {
  }

  /**
   * `ListMemes` (meme.go): anonymous callers are refused before the storage's listing (left
   * abstract as `list`) runs; a listing error is wrapped.
   */
  function ListMemes(ctx: Ctx, offset: int, limit: int, sortBy: String,
                     list: (UserID, int, int, String) -> Result<seq<Meme>, Error>): (r: Result<seq<Meme>, Error>)
    ensures Anonymous(ctx) ==> r == Err(Unauthorized)
    ensures !Anonymous(ctx) ==> (r.Ok? <==> list(ctx.userId, offset, limit, sortBy).Ok?)
    ensures r.Ok? ==> r.value == list(ctx.userId, offset, limit, sortBy).value
    ensures !Anonymous(ctx) && r.Err? ==> r.error == Wrapped("can't list memes", list(ctx.userId, offset, limit, sortBy).error)
  {
    if Anonymous(ctx) then Err(Unauthorized)
    else
      var memes := list(ctx.userId, offset, limit, sortBy);
      if memes.Err? then Err(Wrapped("can't list memes", memes.error)) else Ok(memes.value)
  }

  /** `ListBoards` (board.go): no login check here; the storage's listing runs with whatever id. */
  function ListBoards(ctx: Ctx, offset: int, limit: int, sortBy: String,
                      list: (UserID, int, int, String) -> Result<seq<Board>, Error>): (r: Result<seq<Board>, Error>)
    ensures r.Ok? <==> list(ctx.userId, offset, limit, sortBy).Ok?
    ensures r.Ok? ==> r.value == list(ctx.userId, offset, limit, sortBy).value
    ensures r.Err? ==> r.error == Wrapped("can't list boards", list(ctx.userId, offset, limit, sortBy).error)
  {
    var boards := list(ctx.userId, offset, limit, sortBy);
    if boards.Err? then Err(Wrapped("can't list boards", boards.error)) else Ok(boards.value)
  }

  /** The service over its store; the methods below are the ones that write to it. */
  class Service {
    var store: Store

    constructor (st: Store)
      ensures store == st
    {
      store := st;
    }

    /**
     * `CreateBoard`: anonymous callers are refused; otherwise a board owned by the caller is
     * inserted under the id the database generates (`newId`).
     */
    method CreateBoard(ctx: Ctx, name: String, newId: BoardID) returns (r: Result<Board, Error>)
      requires store.Valid() && newId !in store.boards
      modifies this
      ensures store.Valid()
      ensures Anonymous(ctx) ==> r == Err(Unauthorized) && store == old(store)
      ensures !Anonymous(ctx) && old(store).offline
        ==> r == Err(Wrapped("can't create board", DbFault)) && store == old(store)
      ensures r.Ok? <==> !Anonymous(ctx) && !old(store).offline
      ensures r.Ok? ==> (r.value == Board(newId, ctx.userId, name)
        && store == old(store).(boards := old(store).boards[newId := r.value]))
    {
      if Anonymous(ctx) {
        return Err(Unauthorized);
      }
      if store.offline {
        return Err(Wrapped("can't create board", DbFault));
      }
      var board := Board(newId, ctx.userId, name);
      store := store.(boards := store.boards[newId := board]);
      r := Ok(board);
    }

    /**
     * `UpdateBoard`: after the owner-only check, overwrites the given name and owner, writes the
     * board back and returns it as read again. The read and the write cannot fail once the check
     * has read the same board.
     */
    method UpdateBoard(ctx: Ctx, id: BoardID, name: Option<String>, owner: Option<UserID>)
      returns (r: Result<Board, Error>)
      requires store.Valid()
      modifies this
      ensures store.Valid()
      ensures AclUpdateBoard(old(store), ctx, id).Some?
        ==> r == Err(Wrapped("acl failed", AclUpdateBoard(old(store), ctx, id).value)) && store == old(store)
      ensures r.Ok? <==> OwnsBoard(old(store), ctx, id)
      ensures r.Ok? ==> (r.value == MergeBoard(old(store).boards[id], name, owner)
        && store == old(store).(boards := old(store).boards[id := r.value]))
    {
      var acl := AclUpdateBoard(store, ctx, id);
      if acl.Some? {
        return Err(Wrapped("acl failed", acl.value));
      }
      var board := GetBoardByID(store, ctx, id).value;
      board := MergeBoard(board, name, owner);
      store := store.(boards := store.boards[board.id := board]);
      r := Ok(StoredBoard(store, id).value);
    }

    /** `DeleteBoard`: after the owner-only check, removes the board and returns it as it was. */
    method DeleteBoard(ctx: Ctx, id: BoardID) returns (r: Result<Board, Error>)
      requires store.Valid()
      modifies this
      ensures store.Valid()
      ensures AclDeleteBoard(old(store), ctx, id).Some?
        ==> r == Err(Wrapped("acl failed", AclDeleteBoard(old(store), ctx, id).value)) && store == old(store)
      ensures r.Ok? <==> OwnsBoard(old(store), ctx, id)
      ensures r.Ok? ==> (r.value == old(store).boards[id]
        && store == old(store).(boards := old(store).boards - {id}))
    {
      var acl := AclDeleteBoard(store, ctx, id);
      if acl.Some? {
        return Err(Wrapped("acl failed", acl.value));
      }
      var board := StoredBoard(store, id).value;
      store := store.(boards := store.boards - {id});
      r := Ok(board);
    }

    /**
     * `CreateMeme`: after the post check on the board, inserts a meme built from the board,
     * filename and descriptions under the id and time the database assigns.
     */
    method CreateMeme(ctx: Ctx, board: BoardID, filename: String, dsc: map<String, String>,
                      newId: MemeID, now: Timestamp) returns (r: Result<MemeID, Error>)
      requires store.Valid() && newId !in store.memes
      modifies this
      ensures store.Valid()
      ensures AclPostMeme(old(store), ctx, board).Some?
        ==> r == Err(Wrapped("acl failed", AclPostMeme(old(store), ctx, board).value)) && store == old(store)
      ensures r.Ok? <==> OwnsBoard(old(store), ctx, board)
      ensures r.Ok? ==> (r.value == newId
        && store == old(store).(memes := old(store).memes[newId := Meme(newId, board, filename, dsc, now, now)]))
    {
      var acl := AclPostMeme(store, ctx, board);
      if acl.Some? {
        return Err(Wrapped("acl failed", acl.value));
      }
      var meme := Meme(newId, board, filename, dsc, now, now);
      store := store.(memes := store.memes[newId := meme]);
      r := Ok(newId);
    }

    /**
     * `UpdateMeme`: after the update check, overwrites the given descriptions, filename and board,
     * writes the meme and returns it as read again. The re-read fails, after the write, when the
     * meme was moved to a board that does not exist.
     */
    method UpdateMeme(ctx: Ctx, id: MemeID, board: Option<BoardID>, filename: Option<String>,
                      dsc: Option<map<String, String>>, now: Timestamp) returns (r: Result<Meme, Error>)
      requires store.Valid()
      modifies this
      ensures store.Valid()
      ensures AclUpdateMeme(old(store), ctx, id).Some?
        ==> r == Err(Wrapped("acl failed", AclUpdateMeme(old(store), ctx, id).value)) && store == old(store)
      ensures OwnsMeme(old(store), ctx, id) ==>
        var m := MergeMeme(old(store).memes[id], board, filename, dsc, now);
        && store == old(store).(memes := old(store).memes[id := m])
        && (r.Ok? <==> m.boardId in store.boards)
        && (r.Ok? ==> r.value == m)
    {
      var acl := AclUpdateMeme(store, ctx, id);
      if acl.Some? {
        return Err(Wrapped("acl failed", acl.value));
      }
      var meme := GetMemeByID(store, ctx, id).value;
      meme := MergeMeme(meme, board, filename, dsc, now);
      store := store.(memes := store.memes[id := meme]);
      var reread := GetMemeByID(store, ctx, id);
      if reread.Err? {
        return Err(Wrapped("can't get meme", reread.error));
      }
      r := Ok(reread.value);
    }

    /** `DeleteMeme`: after the delete check, removes the meme. */
    method DeleteMeme(ctx: Ctx, id: MemeID) returns (r: Option<Error>)
      requires store.Valid()
      modifies this
      ensures store.Valid()
      ensures AclDeleteMeme(old(store), ctx, id).Some?
        ==> r == Some(Wrapped("acl failed", AclDeleteMeme(old(store), ctx, id).value)) && store == old(store)
      ensures r == None <==> OwnsMeme(old(store), ctx, id)
      ensures r == None ==> store == old(store).(memes := old(store).memes - {id})
    {
      var acl := AclDeleteMeme(store, ctx, id);
      if acl.Some? {
        return Some(Wrapped("acl failed", acl.value));
      }
      store := store.(memes := store.memes - {id});
      r := None;
    }
  }
}
