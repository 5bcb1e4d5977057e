/** The api-server's entities (`internal/models`): plain values keyed by string ids. */
module Models {
  import opened Text

  type UserID = String
  type BoardID = String
  type MemeID = String
  /** A media object shares the id of the meme it illustrates. */
  type MediaID = MemeID

  /** A time stamp as stored by the database; only copied around, never interpreted. */
  type Timestamp = int

  datatype User = User(id: UserID, login: String, password: String)

  datatype Board = Board(id: BoardID, owner: UserID, name: String)

  datatype Meme = Meme(
    id: MemeID,
    boardId: BoardID,
    filename: String,
    description: map<String, String>,
    createdAt: Timestamp,
    updatedAt: Timestamp)

  /** The authenticated caller carried by `context.Context`; `GetUserID` yields "" when nobody is logged in. */
  datatype Ctx = Ctx(userId: UserID)
}
