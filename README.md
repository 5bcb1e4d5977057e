# memesearch in Dafny

A model of the core of memesearch, a service for storing memes on boards and searching them by their
text descriptions, and of its Telegram chat bot. Each Dafny module follows one Go package or file:

- **The search.** `Ranker` is the fuzzy ranker of `internal/searchranker`. It uses a Levenshtein distance
  whose substitution price is the distance between keys on a Latin/Cyrillic keyboard, ignores words of two
  runes or fewer, and sorts the memes best first. `MemeSearcher` is the exact-word engine of
  `internal/memesearcher` with its fetch loop and result window. `ApiSearch` is the batch loop of `api.Search`.
  `Sorting`, `Paging` and `Text` hold the shared pieces: sorting, `s[begin:end]` windows, `strings.Split`,
  `strings.ToLower`, `Atoi` and `Itoa`.
- **The service layer.** `Api` holds the access rules of `acl.go`, the checks of `validations.go`, and the
  board and meme operations of `board.go` and `meme.go`. The operations that write storage are methods of
  the class `Service`, which holds the stored rows. `PublicApi` is the facade of `publicapi.go`, which runs
  validation, then the access check, then the service.
- **The HTTP layers.** `ApiServer` covers the generated server's parameter checks and defaults, the
  conversions to JSON bodies, the media handlers and the error-to-response table. `HttpServer` covers the
  hand-written server's error-to-status table and the `ApiError` search of its handler wrapper. `ServerErrors`
  models Go's error values, `Unwrap` chains, `errors.Is` and `errors.As`.
- **The api client.** `ClientModels` holds the client's error values. `Requester` covers the status-to-error
  table, the decoding of an answer into out-pointers, and the payload rules of a request.
- **The chat bot.**
  - `Telegram`: the file-id cache, media groups and file downloads.
  - `BotErrors` and `BotHelpers`: the bot's error chains, `sendError`, and the command helpers.
  - `CentralState`, `MediaView` and `Inline`: the chat states and inline queries.
  - `StateMachine`: the per-chat state table and per-user records of `processUpdate`.

Storage, the Telegram API, the api client's network calls, content sniffing and JSON marshalling are
parameters: functions returning a `Result`, or a store value holding maps. Go errors are a datatype with one
constructor per error type, and `fmt.Errorf("...: %w", err)` is `Wrapped(prefix, err)`. Go panics are either
preconditions or an explicit `Panicked` outcome, chosen by whether the caller can know the bound in advance.
Scores are `real`.

## Model

| member | source | states |
|---|---|---|
| Api.GetUser | api-server/internal/api/user.go:22-31 | a user is returned exactly when the store is up and holds the id; a missing user is `ErrUserNotFound`, any other storage fault is not |
| Api.AclGetBoard | api-server/internal/api/acl.go:11-18 | reading a board is allowed exactly for a logged-in caller; otherwise `ErrUnauthorized` |
| Api.GetBoardByID | api-server/internal/api/board.go:22-36 | the stored board comes back exactly when the caller is logged in and the board exists; `ErrBoardNotFound` exactly when a logged-in caller asks for a missing board |
| Api.AclUpdateBoard | api-server/internal/api/acl.go:20-33 | updating is allowed exactly for the board's owner; anonymous is `ErrUnauthorized`, a non-owner `ErrForbidden`, a missing board the wrapped `ErrBoardNotFound` |
| Api.AclDeleteBoard | api-server/internal/api/acl.go:35-49 | deleting a board follows exactly the update rule |
| Api.AclPostMeme | api-server/internal/api/acl.go:54-66 | posting a meme to a board is allowed exactly for the board's owner; anonymous is `ErrUnauthorized` |
| Api.AclGetMeme | api-server/internal/api/acl.go:68-93 | reading a meme is allowed exactly for a logged-in caller when the meme and its board exist; a missing meme is `ErrMemeNotFound` |
| Api.GetMemeByID | api-server/internal/api/meme.go:25-43 | the stored meme comes back exactly when the read check passes |
| Api.AclUpdateMeme | api-server/internal/api/acl.go:95-117 | updating a meme is allowed exactly for the owner of its board; anonymous is `ErrUnauthorized` |
| Api.AclDeleteMeme | api-server/internal/api/acl.go:119-141 | deleting a meme follows exactly the meme update rule |
| Api.AclGetMedia | api-server/internal/api/acl.go:146-152 | a media object is readable exactly when the meme with its id is; a refusal wraps the meme's |
| Api.AclUpdateMedia | api-server/internal/api/acl.go:154-160 | a media object may be replaced exactly by the owner of its meme's board; a refusal wraps the meme's |
| Api.AclSelf | api-server/internal/api/acl.go:165-199 | a user record may be read, changed or deleted only by that user; anonymous is `ErrUnauthorized`, anyone else `ErrForbidden` |
| Api.AclSubscribe | api-server/internal/api/acl.go:204-215 | users may subscribe only themselves, to any board with any role |
| Api.AclUnsubscribe | api-server/internal/api/acl.go:217-236 | unsubscribing is allowed exactly for the user themselves or the board's owner; a logged-in stranger is `ErrForbidden` |
| Api.SelfUnsubscribeIgnoresStore | api-server/internal/api/acl.go:217-226 | self-unsubscription is allowed whatever the store holds |
| Api.AnonymousIsUnauthorized | api-server/internal/api/acl.go:11-236 | every access check answers `ErrUnauthorized` to an anonymous caller |
| Api.ValidateUser | api-server/internal/api/validations.go:9-17 | nil exactly when the user can be read; `ErrInvalid` with "user don't exist" exactly for a missing user; any other failure is wrapped "can't get user" |
| Api.ValidateBoard | api-server/internal/api/validations.go:19-27 | nil exactly when the board can be read; `ErrInvalid` with "board don't exist" exactly for a missing board; any other failure is wrapped "can't get board" |
| Api.ValidateMeme | api-server/internal/api/validations.go:29-37 | nil exactly when the meme can be read; a failure that is not `ErrInvalid` is wrapped "can't get meme" |
| Api.MissingMemeNotInvalid | api-server/internal/api/validations.go:29-37 | a missing meme comes back as "can't get meme" wrapping "acl failed" wrapping `ErrMemeNotFound`: `errors.Is` finds it, but it is never `ErrInvalid` |
| Api.MergeBoard | api-server/internal/api/board.go:48-53 | only the given name and owner are overwritten; the id is kept |
| Api.MergeMeme | api-server/internal/api/meme.go:54-62 | only the given descriptions, filename and board are overwritten; id and creation time are kept |
| Api.MergeNothingIsIdentity | api-server/internal/api/board.go:48-53 | a merge with nothing given leaves the board and the meme as they were |
| Api.ListMemes | api-server/internal/api/meme.go:102-114 | anonymous callers get `ErrUnauthorized`; otherwise the storage listing for the caller, succeeding exactly when it does; a storage error comes back wrapped as "can't list memes" |
| Api.ListBoards | api-server/internal/api/board.go:84-91 | the storage listing, with no login check; its error is wrapped "can't list boards" |
| Api.Service.CreateBoard | api-server/internal/api/board.go:9-20 | succeeds exactly for a logged-in caller with the store up; the new board is owned by the caller and inserted under the new id, and nothing else changes |
| Api.Service.UpdateBoard | api-server/internal/api/board.go:38-66 | a refused check is wrapped "acl failed" and changes nothing; it succeeds exactly for the owner, storing and returning the merged board |
| Api.Service.DeleteBoard | api-server/internal/api/board.go:68-82 | a refused check is wrapped "acl failed" and changes nothing; it succeeds exactly for the owner, removing the board and returning it as it was |
| Api.Service.CreateMeme | api-server/internal/api/meme.go:11-23 | a refused post check is wrapped "acl failed" and changes nothing; it succeeds exactly for the board's owner and inserts the new meme under the new id |
| Api.Service.UpdateMeme | api-server/internal/api/meme.go:45-80 | a refused check is wrapped "acl failed" and changes nothing; for the owner the merged meme is stored, and it is returned exactly when its board still exists |
| Api.Service.DeleteMeme | api-server/internal/api/meme.go:82-100 | a refused check is wrapped "acl failed" and changes nothing; it succeeds exactly for the owner and removes only that meme |
| Paging.Window | api-server/internal/api/search.go:30-33 | the ranked items from `offset` on, consecutive and in order, as many as `limit` allows: `min(limit, len - offset)` of them, or none when `offset` is past the end |
| Paging.Prepend | api-server/internal/memesearcher/default.go:36-40 | a page followed by the rest of a paged fetch: the pages concatenated when the rest succeeds, the rest's error unchanged otherwise |
| Sorting.Insert | api-server/internal/memesearcher/default.go:54-56 | inserting into a list sorted best first keeps it sorted and adds exactly the one element |
| Sorting.SortDesc | api-server/internal/memesearcher/default.go:54-56 | the result is sorted best first and is a permutation of the input |
| Sorting.SortDescMembers | api-server/internal/searchranker/ranker.go:34-36 | sorting neither adds nor loses an element |
| ApiSearch.Search | api-server/internal/api/search.go:11-39 | the listing loop gives exactly `Listed` from offset 0: a failing listing ends the search with that listing's error wrapped with its offset; otherwise, with a non-negative offset and limit, the answer is the window of the ranking of every listed meme, or the ranking error wrapped "can't rank"; a failure is one of these two; a negative offset or limit is the only way to panic |
| ApiSearch.ListedIsRest | api-server/internal/api/search.go:15-28 | listings that succeed receive every meme from the offset on |
| ApiSearch.ListedNeverFails | api-server/internal/api/search.go:15-28 | a listing that never fails is read to its end |
| ApiSearch.FirstListingFails | api-server/internal/api/search.go:19-22 | a failing first listing is the search's error, wrapped "can't list memes with offset 0" |
| MemeSearcher.Words | api-server/internal/memesearcher/default.go:64-69 | a scorable request has at least one word |
| MemeSearcher.Fraction | api-server/internal/memesearcher/default.go:78 | the quotient of at most as many matches as words lies in 0..1 |
| MemeSearcher.ScoreOf | api-server/internal/memesearcher/default.go:63-79 | -1 exactly when "general" is missing or empty; otherwise a score in 0..1 |
| MemeSearcher.AddKey | api-server/internal/memesearcher/default.go:71-77 | scanning one more description value adds exactly the request words among its words |
| MemeSearcher.CountWords | api-server/internal/memesearcher/default.go:72-76 | the inner loop adds to the counted words exactly the request words among the value's words |
| MemeSearcher.Score | api-server/internal/memesearcher/default.go:63-79 | the loops compute `ScoreOf` |
| MemeSearcher.FullMatchScoresOne | api-server/internal/memesearcher/default.go:63-79 | distinct request words that all occur in the description score exactly 1 |
| MemeSearcher.NoMatchScoresZero | api-server/internal/memesearcher/default.go:63-79 | a description without any request word scores 0 |
| MemeSearcher.Hits | api-server/internal/memesearcher/default.go:43-53 | exactly the memes scoring at least 0.1, each with its score and id, and no more of them than memes |
| MemeSearcher.NoGeneralNoHits | api-server/internal/memesearcher/default.go:44-48 | a request without a non-empty "general" finds nothing |
| MemeSearcher.FetchAll | api-server/internal/memesearcher/default.go:29-41 | the fetch loop gives exactly `Fetched` from offset 0: every meme of the board when it succeeds, the first failing fetch's error wrapped with its offset otherwise, and success when no fetch fails |
| MemeSearcher.FetchedIsRest | api-server/internal/memesearcher/default.go:29-41 | fetches that succeed receive every meme from the offset on |
| MemeSearcher.FetchedNeverFails | api-server/internal/memesearcher/default.go:29-41 | a listing that never fails is fetched to its end |
| MemeSearcher.FirstFetchFails | api-server/internal/memesearcher/default.go:32-35 | a failing first fetch is the search's error, wrapped "can't get memes with offset 0" |
| MemeSearcher.ScoreAll | api-server/internal/memesearcher/default.go:43-53 | the scoring loop computes `Hits` |
| MemeSearcher.SearchForBoard | api-server/internal/memesearcher/default.go:24-61 | it fails exactly when the fetches fail, with their error; otherwise it panics exactly when the window `[offset, min(offset+limit, len))` is out of range, and returns that window of the hits sorted best first |
| MemeSearcher.SearchResults | api-server/internal/memesearcher/default.go:43-59 | the results are sorted best first, each scores at least 0.1 for a fetched meme, and every such meme is among them |
| PublicApi.AclFailed | api-server/internal/api/publicapi.go:32-34 | a refusal is wrapped "acl failed"; a pass stays nil |
| PublicApi.GetBoard | api-server/internal/api/publicapi.go:31-37 | the read check in front of the service's lookup changes no answer |
| PublicApi.GetMeme | api-server/internal/api/publicapi.go:91-96 | the read check in front of the service's lookup changes no answer |
| PublicApi.ListAllBoards | api-server/internal/api/publicapi.go:59-64 | anonymous callers get `ErrUnauthorized`; others the service's listing |
| PublicApi.UpdateBoardCheck | api-server/internal/api/publicapi.go:39-48 | passes exactly for the board's owner; with a new owner given, a missing board is an invalid "new owner" |
| PublicApi.CreateMemeCheck | api-server/internal/api/publicapi.go:80-86 | passes exactly for the owner of the target board; a missing board is an invalid "meme's board", a non-owner a wrapped `ErrForbidden` |
| PublicApi.UpdateMemeCheck | api-server/internal/api/publicapi.go:98-107 | passes exactly for the owner of the meme's board when a given new board exists; a missing new board is an invalid "meme's board" |
| PublicApi.SubscribeCheck | api-server/internal/api/publicapi.go:129-135 | passes exactly for a logged-in caller subscribing themselves to an existing board; anonymous is a wrapped `ErrUnauthorized`, anyone else a wrapped `ErrForbidden` |
| PublicApi.UnsubscribeCheck | api-server/internal/api/publicapi.go:122-126 | passes exactly for the user themselves or the board's owner |
| PublicApi.SubscribeStricterThanUnsubscribe | api-server/internal/api/publicapi.go:122-135 | unsubscribing oneself always passes; subscribing oneself passes exactly when the board exists |
| PublicApi.UserCheck | api-server/internal/api/publicapi.go:139-158 | a user record may be used only by that user; anyone else gets a wrapped `ErrForbidden` |
| PublicApi.MediaCheck | api-server/internal/api/publicapi.go:66-78 | reading media needs a readable meme; replacing it needs ownership of the meme's board |
| PublicApi.Search | api-server/internal/api/publicapi.go:176-181 | an empty request is `ErrInvalid` before anything is listed; otherwise the service's search: a failing listing is returned as that listing error; a failure is either that or the ranking error wrapped as "can't rank" (which it is whenever listing never fails); a result is the requested window of the ranking |
| PublicApi.API.CreateBoard | api-server/internal/api/publicapi.go:24-29 | anonymous callers get `ErrUnauthorized` and change nothing; a failed insert returns the service's error ("can't create board" wrapping the storage fault) as is and changes nothing; otherwise the board owned by the caller is inserted and returned |
| PublicApi.API.UpdateBoard | api-server/internal/api/publicapi.go:39-50 | a failing check is returned and changes nothing; it succeeds exactly for the owner, storing the merged board |
| PublicApi.API.DeleteBoard | api-server/internal/api/publicapi.go:52-57 | a refusal is wrapped "acl failed" and changes nothing; it succeeds exactly for the owner, removing the board |
| PublicApi.API.CreateMeme | api-server/internal/api/publicapi.go:80-89 | a failing check is returned and changes nothing; it succeeds exactly for the board's owner and inserts the meme |
| PublicApi.API.UpdateMeme | api-server/internal/api/publicapi.go:98-109 | a failing check is returned and changes nothing; it succeeds exactly for the owner when a given new board exists, storing the merged meme |
| PublicApi.API.DeleteMeme | api-server/internal/api/publicapi.go:111-116 | succeeds exactly for the owner of the meme's board and removes only that meme; a refusal is wrapped "acl failed" and changes nothing |
| ApiServer.InvalidInputFor | api-server/internal/apiserver/helper.go:82-84 | the error is an `*InvalidParamFormatError` for the given parameter, and `errors.As` finds it |
| ApiServer.StringsOf | api-server/internal/apiserver/helper.go:46-56 | the conversion succeeds exactly when every value is a string, keeps every key and value, and fails with "unexpected type" otherwise |
| ApiServer.AnyOf | api-server/internal/apiserver/helper.go:58-64 | the same keys, each value as a JSON string |
| ApiServer.StringsOfAnyOf | api-server/internal/apiserver/helper.go:46-64 | a string map survives the round trip through `map[string]any` |
| ApiServer.AnyOfStringsOf | api-server/internal/apiserver/helper.go:46-64 | a map that converts to strings is rebuilt exactly from them |
| ApiServer.ConvertMapToString | api-server/internal/apiserver/helper.go:46-56 | the loop computes `StringsOf` |
| ApiServer.ConvertMapToAny | api-server/internal/apiserver/helper.go:58-64 | the loop computes `AnyOf` |
| ApiServer.ConvertBoardToServer | api-server/internal/apiserver/helper.go:66-72 | the copy loses nothing: the board is recovered from it |
| ApiServer.ConvertBoardListToServer | api-server/internal/apiserver/helper.go:74-80 | a list of the same length, converted position by position |
| ApiServer.ConvertMemeToServer | api-server/internal/apiserver/helper.go:27-37 | ids, filename and times are copied, and the descriptions convert back to the meme's own |
| ApiServer.PagingParams | api-server/internal/apiserver/validations.go:98-128 | defaults page 1, size 20, sort "id"; succeeds exactly when page >= 1, 1 <= size <= 100 and the sort key is allowed; the first failing check names its parameter |
| ApiServer.DefaultListing | api-server/internal/apiserver/validations.go:51-59 | with nothing given, the listing is page 1 of 20 ordered by id |
| ApiServer.ListMemesParams | api-server/internal/apiserver/validations.go:98-128 | equal to `PagingParams` on the three query values, with its defaults for missing values; a success is valid paging; an error is an invalid page, pageSize or sortBy |
| ApiServer.DescriptionMap | api-server/internal/apiserver/validations.go:130-136 | the request holds only "general", and holds it exactly when it was given |
| ApiServer.SearchByBoardIDParams | api-server/internal/apiserver/validations.go:61-96 | succeeds exactly when the paging does, with the board id unchecked and the description map of the query; fails with the paging's error |
| ApiServer.PostMemeParams | api-server/internal/apiserver/validations.go:138-155 | a nil body and a non-string description are refused with their parameters; otherwise board, filename and descriptions are passed on |
| ApiServer.UpdateMemeParams | api-server/internal/apiserver/validations.go:12-49 | a nil body is refused first; a missing meme becomes the server's `ErrMemeNotFound`, another lookup error is wrapped; otherwise the given fields are passed on |
| ApiServer.UpdateOfMissingMemeIsNotFound | api-server/internal/apiserver/validations.go:21-26 | asking to update a meme that is not stored gives the not-found answer |
| ApiServer.ListMemes | api-server/internal/apiserver/server.go:90-113 | `ErrInvalidPagination` exactly when page < 1 or the size is outside 1..100 (defaults 1 and 10); otherwise an empty page with total -1 |
| ApiServer.KindOf | api-server/internal/apiserver/server.go:62-73 | octet-stream exactly for a type other than jpeg, jpg, png and mp4 |
| ApiServer.GetMediaByID | api-server/internal/apiserver/server.go:50-75 | answers exactly when the media is read; a missing media is the server's not-found, another error is wrapped "can't get media"; otherwise the whole body with its length and the kind sniffed from its first 512 bytes, zero-padded |
| ApiServer.PostMeme | api-server/internal/apiserver/server.go:116-143 | a nil body and a non-string description are refused; otherwise it succeeds exactly when the insert of the given board, filename and descriptions does, returns the inserted id, and wraps an insert error "can't create meme" |
| ApiServer.SniffBuffer | api-server/internal/apiserver/server.go:172-179 | the 512-byte buffer holds the file's first bytes and zeros after them |
| ApiServer.PutMediaCheck | api-server/internal/apiserver/server.go:146-199 | a form too large gives `ErrTooLarge`; a form that cannot be read gives its error wrapped as "can't read form"; no "media" file and a file over 16 MiB each give their error; an empty file gives "can't read buffer prefix" wrapping EOF; a sniffed type not allowed gives `ErrUnsupportedMediaType`; it succeeds exactly for a non-empty file within the limit whose sniffed type is allowed, and returns its content |
| ApiServer.PutMediaByID | api-server/internal/apiserver/server.go:146-207 | succeeds exactly when the checks pass and the media is stored; a check's error is returned as is, a storage error wrapped "can't set media" |
| ApiServer.ErrorHandler | api-server/internal/apiserver/errors.go:27-60 | 404 exactly for a not-found anywhere in the chain, with the error's text as Id; 400 exactly for an `*InvalidParamFormatError` otherwise, with its parameter and message; 500 with no body else |
| ApiServer.NotFoundExcludesInvalidParam | api-server/internal/apiserver/errors.go:34-46 | an error with a not-found in its chain has no `*InvalidParamFormatError` in it and is a 404, so the order of the two cases never decides an answer |
| ApiServer.DeepNotFoundIs404 | api-server/internal/apiserver/errors.go:35-41 | a not-found under an ApiError and a wrap is a 404 |
| ApiServer.WrappedInvalidParamIs400 | api-server/internal/apiserver/errors.go:43-46 | a wrapped invalid parameter is a 400 |
| ServerErrors.MatchInChainIs | api-server/internal/apiserver/errors.go:35-38 | a value of the unwrap chain that matches the target makes `errors.Is` hold |
| ServerErrors.IsMatchInChain | api-server/internal/apiserver/errors.go:35-38 | when `errors.Is` holds, the first matching value of the chain is found |
| ServerErrors.WrapKeepsIs | api-server/internal/api/board.go:39-41 | wrapping with "%w" keeps every `errors.Is` answer, and adds none for a target other than the wrapper |
| ServerErrors.AsInvalidInput | api-server/internal/httpserver/errors.go:60-63 | `errors.As` gives an `ErrInvalidInput` of the chain, and none exactly when the chain has none |
| ServerErrors.AsInvalidInputIsFirst | api-server/internal/httpserver/errors.go:60-63 | what `errors.As` gives is the first `ErrInvalidInput` of the chain |
| ServerErrors.AsInvalidParam | api-server/internal/apiserver/errors.go:43-46 | `errors.As` gives an `*InvalidParamFormatError` of the chain, and none exactly when the chain has none |
| ServerErrors.InvalidInputIsWildcard | api-server/internal/httpserver/errors.go:31-37 | `ErrInvalidInput.Is` is reflexive, an empty Reason matches every invalid input, and no other type matches |
| ServerErrors.ServerErrorIsWildcard | api-server/internal/apiserver/errors.go:16-25 | `Error.Is` is reflexive, the empty target matches every `Error`, and no other type matches |
| ServerErrors.ServerErrorIsFieldwise | api-server/internal/apiserver/errors.go:16-25 | a target matches exactly when each of its non-empty fields equals the receiver's (with a body, also equal bodies) |
| HttpServer.HttpErrorForwards | api-server/internal/httpserver/errors.go:18-24 | an `httpError` shows its cause's text, unwraps to it and keeps its `errors.Is` answers |
| HttpServer.FirstMatch | api-server/internal/httpserver/errors.go:44-59 | a `switch` of `errors.Is` cases picks the first case that holds, or none when none does |
| HttpServer.ParseError | api-server/internal/httpserver/errors.go:39-69 | 404 exactly when a not-found test holds, with the first such test's status; otherwise 400 "INVALID_INPUT" exactly when `errors.As` finds an `ErrInvalidInput`, carrying that first one; 500 "UNEXPECTED_ERROR" with the error itself and no invalid input in the chain |
| HttpServer.ParseErrorKeepsIs | api-server/internal/httpserver/errors.go:39-69 | outside the 400 case, the parsed error answers `errors.Is` as the original did |
| HttpServer.NotFoundWins | api-server/internal/httpserver/errors.go:44-53 | a board-not-found two wraps deep is reported as BOARD_NOT_FOUND |
| HttpServer.InvalidInputBelowWrap | api-server/internal/httpserver/errors.go:54-63 | a wrapped invalid input with no not-found in its chain becomes a 400 that carries the invalid input itself |
| HttpServer.FirstApiError | api-server/internal/httpserver/helpers.go:52-67 | what is found is an unwrappable `ApiError` of the chain |
| HttpServer.FirstApiErrorFindsAny | api-server/internal/httpserver/helpers.go:52-67 | an `ApiError` is found exactly when the chain holds one that can be unwrapped |
| HttpServer.BareApiErrorIsMissed | api-server/internal/httpserver/helpers.go:56-60 | an `ApiError` without `Unwrap` is never found |
| HttpServer.UnwrapApiError | api-server/internal/httpserver/helpers.go:52-67 | the loop computes `FirstApiError` |
| HttpServer.HandlerWrapper | api-server/internal/httpserver/helpers.go:19-50 | success answers "OK" with the data; an error answers the found `ApiError`'s status, or "UNEXPECTED_ERROR", with the error as error data |
| Ranker.Abs | api-server/internal/searchranker/ranker.go:140-145 | the result is the number or its negation, and never negative |
| Ranker.Cost | api-server/internal/searchranker/ranker.go:107-138 | one of 0, 0.2, 1, 2 or 100; 100 exactly when a rune is off the keyboard; 0 exactly when both runes are on the same key |
| Ranker.CostSymmetric | api-server/internal/searchranker/ranker.go:117-138 | substituting a for b costs what substituting b for a does |
| Ranker.NormalizedLevenshteinDistance | api-server/internal/searchranker/ranker.go:77-105 | the matrix loops compute the keyboard-weighted Levenshtein distance over the shorter length |
| Ranker.FillRow | api-server/internal/searchranker/ranker.go:95-101 | after one inner loop every cell of rows 0..i holds the recurrence's value |
| Ranker.LevBounds | api-server/internal/searchranker/ranker.go:87-102 | the distance of two prefixes lies between 0 and the sum of their lengths |
| Ranker.LevIdentity | api-server/internal/searchranker/ranker.go:87-102 | a word is at distance 0 from itself when substituting a rune by itself is free |
| Ranker.LevSymmetric | api-server/internal/searchranker/ranker.go:87-102 | with a symmetric substitution price, swapping the words keeps the distance |
| Ranker.NormDistBounds | api-server/internal/searchranker/ranker.go:77-105 | the normalized distance is never negative and at most the sum of the lengths over the shorter one |
| Ranker.NormDistSymmetric | api-server/internal/searchranker/ranker.go:77-105 | the normalized distance does not depend on the order of the words |
| Ranker.NormDistSelf | api-server/internal/searchranker/ranker.go:77-105 | a word typed on the keyboard is at distance 0 from itself |
| Ranker.Score | api-server/internal/searchranker/ranker.go:41-75 | the nested loops compute `ScoreOf` |
| Ranker.BestRange | api-server/internal/searchranker/ranker.go:62-69 | the best similarity of a request word lies in 0..1 |
| Ranker.WordScoreRange | api-server/internal/searchranker/ranker.go:70-72 | a request word adds either nothing or more than one half and at most one |
| Ranker.TotalRange | api-server/internal/searchranker/ranker.go:55-73 | the total lies between 0 and the number of counted request words |
| Ranker.ScoreRange | api-server/internal/searchranker/ranker.go:41-75 | -1 exactly when the request has no non-empty "general" or the description has no "general"; otherwise a score in 0..1 |
| Ranker.EmptyDescriptionScoresZero | api-server/internal/searchranker/ranker.go:47-51 | an empty description "general" passes the check and scores 0, not -1 |
| Ranker.BestOfPresentWord | api-server/internal/searchranker/ranker.go:62-69 | a counted word found verbatim among the description words has best similarity 1 |
| Ranker.TotalOfPresentWords | api-server/internal/searchranker/ranker.go:55-73 | when every counted request word is in the description, the total equals the count |
| Ranker.ExactMatchScoresOne | api-server/internal/searchranker/ranker.go:41-75 | a description holding every lower-cased counted request word scores exactly 1 |
| Ranker.Kept | api-server/internal/searchranker/ranker.go:26-33 | exactly the memes scoring at least 0.01, in input order, each with its own score |
| Ranker.Rank | api-server/internal/searchranker/ranker.go:25-39 | the kept memes sorted by non-increasing score, as a permutation of them |
| Ranker.RankedMembers | api-server/internal/searchranker/ranker.go:25-39 | the ranking holds exactly the memes scoring at least 0.01, with their scores, and is never longer than the input |
| Text.Split | api-server/internal/searchranker/ranker.go:53-54 | at least one piece, and no piece holds the separator |
| Text.JoinSplit | api-server/internal/searchranker/ranker.go:53-54 | joining the pieces with the separator gives back the string |
| Text.SplitWithoutSeparator | tg-client/internal/statemachine/inline.go:25-31 | a string without the separator is one piece |
| Text.ToLower | api-server/internal/searchranker/ranker.go:53-54 | the same length, each rune lower-cased |
| Text.NatToString | tg-client/internal/statemachine/inline.go:38-41 | at least one digit and only digits |
| Text.AtoiItoa | tg-client/internal/statemachine/inline.go:17-41 | formatting an integer and parsing it back gives the integer |
| ClientModels.InvalidInputMessage | api-client/pkg/models/errors.go:28 | the text is "invalid ", the parameter, ": " and the reason |
| ClientModels.InvalidInputMessageInjective | api-client/pkg/models/errors.go:28 | for colon-free parameter names the text determines both the parameter and the reason |
| ClientModels.InvalidInputIsProperties | api-client/pkg/models/errors.go:29-37 | `Is` is reflexive, rejects other types, the all-empty target matches every invalid input, and a target matches exactly when each non-empty field is equal |
| ClientModels.WildcardIsOnlyInvalidInput | api-client/pkg/models/errors.go:29-37 | `errors.Is` with the empty `ErrInvalidInput{}` holds exactly for invalid inputs |
| Requester.Field | api-client/internal/requester/requester.go:120-131 | a decoded field is the object's value under its name, or the zero string |
| Requester.Remarshal | api-client/internal/requester/requester.go:120-131 | an object fills Param and Reason, `null` leaves the struct zero, any other kind fails to unmarshal |
| Requester.RemarshalRoundTrip | api-client/internal/requester/requester.go:114-131 | an invalid input sent as an object comes back as the same value with the same text |
| Requester.ParseError | api-client/internal/requester/requester.go:104-118 | each known not-found status gives its sentinel and INVALID_INPUT decodes the error data; an invalid input comes back exactly for INVALID_INPUT |
| Requester.ServerNotFoundsParse | api-client/internal/requester/requester.go:104-113 | every 404 status of the server's table except USER_NOT_FOUND is handled and gives the client's version of the server's error |
| Requester.UnhandledServerStatuses | api-client/internal/requester/requester.go:104-118 | USER_NOT_FOUND and UNEXPECTED_ERROR, which the server does send, have no case |
| Requester.ReadResponse | api-client/internal/requester/requester.go:72-102 | read and decode failures are returned and change nothing; a non-OK status stores the parsed error and returns nil; OK decodes the data into the input or returns the decoding error |
| Requester.Prepare | api-client/internal/requester/requester.go:23-57 | no body and no files give an empty payload; a body is marshalled, failing exactly when marshalling fails; files give one form part per field under the file's name, holding the file's bytes |
| Requester.ContentType | api-client/internal/requester/requester.go:42-60 | the Content-Type is set exactly for a multipart payload |
| BotErrors.Chain | tg-client/internal/statemachine/helpers.go:168-181 | the chain starts at the error, every value but the last is a wrapper, and the last is not |
| BotErrors.IsInChain | tg-client/internal/statemachine/helpers.go:146-157 | `errors.Is` holds exactly when some value of the chain matches the target |
| BotErrors.Innermost | tg-client/internal/statemachine/helpers.go:168-181 | the last value of the chain, which is not a wrapper |
| BotErrors.MatchIsInnermost | tg-client/internal/statemachine/helpers.go:146-181 | a match against a target that is not a wrapper is a match of the innermost value |
| BotHelpers.Unwrap | tg-client/internal/statemachine/helpers.go:168-181 | the loop returns the innermost value of the chain |
| BotHelpers.SendError | tg-client/internal/statemachine/helpers.go:145-166 | the notice is the one `NoticeOf` defines: the innermost value for an expected error, the request id otherwise |
| BotHelpers.ShownErrorIsExpected | tg-client/internal/statemachine/helpers.go:145-166 | what is shown for an expected error is itself one of the eleven expected errors, never a wrapper's text |
| BotHelpers.WrappedClientErrorIsShown | tg-client/internal/statemachine/helpers.go:147-158 | any client sentinel or invalid input under two wrappers is expected and shown bare |
| BotHelpers.TargetIndex | tg-client/internal/statemachine/helpers.go:147-157 | each client value has its own case among the expected errors |
| BotHelpers.OtherClientErrorIsUnexpected | tg-client/internal/statemachine/helpers.go:160-164 | an error the client made up from a text is reported by request id only |
| BotHelpers.DoGetBoard | tg-client/internal/statemachine/helpers.go:56-71 | a lookup failure is wrapped "can't get board by id"; otherwise the board's name and id are sent, a send failure wrapped |
| BotHelpers.DoSetBoard | tg-client/internal/statemachine/helpers.go:73-83 | on success the new board is active and nothing else changed; on failure the previous board is restored and the error wrapped "can't doGetBoard" |
| BotHelpers.DoLogin | tg-client/internal/statemachine/helpers.go:24-38 | a failed login changes neither the record nor the client; a successful one stores the token in both before `whoami` runs |
| BotHelpers.ListingSnoc | tg-client/internal/statemachine/helpers.go:107-109 | one more board adds its line, numbered after the others |
| BotHelpers.ListingNumbers | tg-client/internal/statemachine/helpers.go:107-109 | the board at position i is on the line numbered i+1, after the lines of the boards before it |
| BotHelpers.ListingSplit | tg-client/internal/statemachine/helpers.go:107-109 | the listing of two lists is the first's followed by the second's, numbered on |
| BotHelpers.ListingText | tg-client/internal/statemachine/helpers.go:106-109 | the loop builds the numbered listing |
| BotHelpers.DoListBoards | tg-client/internal/statemachine/helpers.go:99-116 | the first hundred boards by id are sent as one numbered listing; a listing failure is wrapped and nothing is sent |
| Telegram.Ext | tg-client/internal/telegram/telegram.go:75 | empty, or a suffix of the name starting with its last '.' and holding no '/' |
| Telegram.Upload | tg-client/internal/telegram/telegram.go:200-224 | ".mp4" uploads a video, ".png", ".jpg" and ".jpeg" a photo (its last size); each succeeds exactly when its send does; any other extension is "unexpected file format" |
| Telegram.UploadKind | tg-client/internal/telegram/telegram.go:201-224 | a message is sent exactly for ".mp4" and the photo extensions |
| Telegram.Bot.GetFileID | tg-client/internal/telegram/telegram.go:196-226 | a cached key answers from the cache with no upload; otherwise the upload's answer, cached only on success |
| Telegram.GroupItem | tg-client/internal/telegram/telegram.go:73-89 | an entry is sent exactly for ".jpg", ".png" and ".mp4", as a video exactly for ".mp4", with its name, caption and bytes |
| Telegram.Group | tg-client/internal/telegram/telegram.go:72-90 | the group is never longer than the entries |
| Telegram.GroupAccountsForAll | tg-client/internal/telegram/telegram.go:72-90 | every entry is either in the group or reported, none twice |
| Telegram.GroupAppend | tg-client/internal/telegram/telegram.go:72-90 | the group keeps input order: the group of two lists is the concatenation of their groups |
| Telegram.GroupSnoc | tg-client/internal/telegram/telegram.go:73-89 | one more entry adds its item or one report |
| Telegram.ExtOfSuffix | tg-client/internal/telegram/telegram.go:75 | a name ending in an extension has that extension |
| Telegram.JpegIsNotSent | tg-client/internal/telegram/telegram.go:76 | a ".jpeg" file, which `GetFileID` uploads, is left out of a media group |
| Telegram.SendMediaGroup | tg-client/internal/telegram/telegram.go:71-95 | the loop builds the group and counts the reported entries |
| Telegram.SourceFileID | tg-client/internal/telegram/telegram.go:100-112 | the file is taken in the order photo (last size), video, document, audio, voice |
| Telegram.SourceFileIDPresent | tg-client/internal/telegram/telegram.go:100-112 | a file is found exactly when the message has some media |
| Telegram.TrimSlashes | tg-client/internal/telegram/telegram.go:129 | a prefix of the path not ending in '/' |
| Telegram.Base | tg-client/internal/telegram/telegram.go:129 | a non-empty last element holding no '/' (or "/" itself) |
| Telegram.GetFileBytes | tg-client/internal/telegram/telegram.go:97-130 | a message without media is an error; a failing URL lookup or download returns its error text; when both succeed, the downloaded bytes named by the URL's last element, and only then |
| MediaView.Kept | tg-client/internal/statemachine/mediaview_state.go:51-59 | the successful results, never more than the inputs |
| MediaView.KeptSnoc | tg-client/internal/statemachine/mediaview_state.go:52-59 | one more input adds its result exactly when it succeeds |
| MediaView.KeptMembers | tg-client/internal/statemachine/mediaview_state.go:52-59 | every kept value is the success of some input, and every success is kept |
| MediaView.ShowPage | tg-client/internal/statemachine/mediaview_state.go:47-62 | "No more memes" exactly for an empty page; the group holds exactly the prepared media of the page's memes whose preparation succeeds, in order |
| MediaView.Fetch | tg-client/internal/statemachine/mediaview_state.go:37-44 | the pending flag is cleared at the asked page; the chat goes back to central exactly when the fetch fails |
| MediaView.ViewStep | tg-client/internal/statemachine/mediaview_state.go:20-45 | a pending fetch fetches the current page; otherwise no message stays, "/next" fetches the next page, "/exit" leaves with its text, anything else repeats the usage; a group is sent only after a successful fetch |
| MediaView.PageMovesByAtMostOne | tg-client/internal/statemachine/mediaview_state.go:20-45 | the page moves by one exactly on "/next" without a pending fetch, and not otherwise; leaving sends no group |
| MediaView.MediaViewState.Process | tg-client/internal/statemachine/mediaview_state.go:20-45 | page, pending flag, error, texts and group are those of `ViewStep`, and the chat stays in this same view or goes central |
| MediaView.SendMemes | tg-client/internal/statemachine/mediaview_state.go:47-62 | the loop sends what `ShowPage` defines |
| CentralState.ClassesExclusive | tg-client/internal/statemachine/central_state.go:29-95 | at most one of search request, new photo and new video holds, none without a message, and the inline test never holds |
| CentralState.UnsupportedMediaIsIgnored | tg-client/internal/statemachine/central_state.go:29-95 | a message with audio, a document or a voice note is in none of the classes |
| CentralState.Process | tg-client/internal/statemachine/central_state.go:10-27 | the chat stays central with no error; the handler run is the search exactly for a search request, the photo one exactly for a new photo, the video one exactly for a new video, never the inline one |
| Inline.PageOf | tg-client/internal/statemachine/inline.go:17-24 | page 1 without an offset, the offset's value when it parses, 0 when it does not |
| Inline.ParseQueryPlain | tg-client/internal/statemachine/inline.go:25-31 | without a '!', the whole query is the request and the flags are "pv" |
| Inline.ParseQueryFlags | tg-client/internal/statemachine/inline.go:25-31 | with a '!', the flags are the text before the first '!' and the request the text after it up to the next '!' |
| Inline.NextOffset | tg-client/internal/statemachine/inline.go:38-41 | no next offset exactly when nothing was found |
| Inline.NextOffsetRoundTrip | tg-client/internal/statemachine/inline.go:17-41 | the next offset, sent back by Telegram, asks for the following page |
| Inline.PrepareMeme | tg-client/internal/statemachine/inline.go:60-88 | an entry exactly when the media is cached and the flags ask for its kind, as a photo exactly for a photo, under the meme's id and the cached file id; `ErrSkipped` exactly when the flags do not ask for a known kind |
| Inline.AnswerContents | tg-client/internal/statemachine/inline.go:14-56 | the answer holds exactly the entries that could be prepared for the page's memes, and offers a next page exactly when something was found |
| Inline.ProcessInline | tg-client/internal/statemachine/inline.go:14-56 | the loop computes the answer `AnswerOf` defines; a failed search answers nothing |
| StateMachine.InfoOf | tg-client/internal/statemachine/statemachine.go:69-72 | the stored record, or the default one with the "default" board for a new user |
| StateMachine.Statemachine.ProcessUpdate | tg-client/internal/statemachine/statemachine.go:56-104 | without a sender nothing changes; otherwise the sender's record is created if missing and written back; the chat is handled as `ChatHandled` says; an inline query is answered exactly when no error was reported; every other chat keeps its state, and its media view is untouched unless it is the same object as this chat's |
| StateMachine.Statemachine.ProcessChat | tg-client/internal/statemachine/statemachine.go:87-100 | a missing chat starts central; its state runs; on an error the state is kept and the error reported, otherwise the chat moves to the returned state; it may change only this chat's media view, and every other chat keeps its state |
| StateMachine.Dispatch | tg-client/internal/statemachine/statemachine.go:94 | a central chat stays central with no error; a media view takes the step `ViewStep` defines |

## Left out

- Storage internals (PostgreSQL, S3, the bot's SQLite key-value store) are left out. Storage is a value of maps, with an `offline` flag that stands for any storage fault other than not-found. Fresh ids and time stamps are parameters.
- Authentication (password hashing, JWT tokens, the auth middleware) is left out. The caller is the user id carried by the context, empty when nobody is logged in.
- Logging (`slog`), contexts and cancellation, and the `recover` in `processUpdate` are left out; they change no returned value.
- Api.AclGetMeme: the Go code looks the meme up through `GetMemeByID`, whose body calls `aclGetMeme` again, so the two would recurse without end. The model reads the meme from storage at that point, which makes the `ErrMemeNotFound` branch reachable.
- The service and facade entry points for users, media storage, subscriptions and authentication (`GetUser` aside) delegate to storage or code not shown. Only their access checks are modelled.
- `UpdateMemeByID`, `DeleteMemeByID`, `GetMemeByID` and `About` of the generated server (api-server/internal/apiserver/server.go:29-48, 78-88, 210-242) are not modelled. They call the service with signatures that differ from `publicapi.go`; only the parameter checks of `UpdateMemeByID` (`UpdateMemeParams`) are.
- ApiServer.PostMeme: the service's `CreateMeme` is called there with a whole meme, unlike `publicapi.go`. The model passes board, filename and descriptions to an abstract insert.
- The two layers of the generated server disagree on the default page size: 20 in api-server/internal/apiserver/validations.go:52, 10 in server.go:92. Each is modelled as written.
- GetMediaByID: Go's `Body[:512]` reads past a short body within its capacity. The model takes the body as the S3 store returns it, read by `io.ReadAll` into a buffer of at least 512 zeroed bytes, so a short body is sniffed with zeros after it. A body of smaller capacity, on which Go would panic, does not arise from the modelled store and is not modelled.
- ApiServer.GetMediaByID and ApiServer.PutMediaCheck: `http.DetectContentType` is a parameter, and the multipart form parsing is a `Form` value. Opening, seeking and reading the uploaded file cannot fail except for the first read of an empty file.
- ApiServer.NotFoundExcludesInvalidParam: `*InvalidParamFormatError` is declared in generated code that is not part of this model. The model gives it no cause, because every construction of it in the modelled files wraps an error made without `%w`.
- ApiServer.ErrorHandler: the texts of the server's own sentinels (`ErrMediaNotFound`, `ErrInvalidPagination`, …) are declared in generated code that is not part of this model. Only their identity is modelled, and the JSON body is a value, not bytes.
- Sorting.SortDesc: Go's `sort.Slice` is not stable and promises no order among equal scores. The model sorts by insertion, which keeps equal scores in their input order. `SortDesc`'s own contract says only "sorted and a permutation", but Ranker.Rank and MemeSearcher.SearchForBoard are stated in terms of this one order. With equal scores at a page boundary, Go's page may therefore hold other results of the same score than the model's.
- Ranker.ScoreOf: a request with no word longer than two runes makes Go divide 0 by 0 (NaN). This input is excluded by the precondition `ScoreDefined`. In Go the NaN score then fails the `s < 0.01` test (ranker.go:28), so every meme whose description has a "general" entry is kept, scored NaN, and the order `sort.Slice` gives them is unspecified. Floating-point rounding is not modelled.
- Ranker.EmptyDescriptionScoresZero: the description check at api-server/internal/searchranker/ranker.go:48 tests the request's length again. An empty description therefore scores 0 instead of -1; `Rank` drops it either way.
- Text.ToLower: only ASCII and the basic Cyrillic capitals (Ѐ-Џ, А-Я) are lower-cased, which covers the keyboard layout of the ranker. Other Unicode case mappings are not modelled.
- Text.Atoi: Go's `strconv.Atoi` fails on values outside 64 bits. The model accepts every integer.
- Requester.Remarshal: JSON's case-insensitive matching of field names is not modelled. The error data is an object of string fields under "Param" and "Reason", `null`, or another kind.
- Requester.ParseError: the panic on an unknown status is a precondition. `UnhandledServerStatuses` shows two statuses the server does send that fall outside it.
- Client errors built from text (transport failures, decode failures, `parseApiError`) are one `Other(text)` value, not wrap chains.
- Requester.Prepare: the network part of `Do` (building and sending the HTTP request) is left out. Only the payload rules and the Content-Type are modelled.
- `ErrBadCommandUsage`, which `sendError` lists, is declared in a file that is not part of this model. It is one constructor of `BotError`.
- Telegram.Bot.GetFileID: `bot.Send` is two parameters, one for videos and one for photos. A successful photo send is assumed to return at least one size, as Telegram always does.
- `GetCachedMedia`, the asynchronous upload queue behind it, and the bot's other Telegram calls (`SendMessage`, `AnswerInlineQuery`, the update channel) are not modelled. The states take the cache as a lookup function, and the messages they send are returned as values.
- The snapshot mixes revisions. `prepareMemeMediaGroup` sets a `MIMEType` field that `MediaGroupEntry` does not declare. `RequestContext` has no `UserInfo` field although `processUpdate` sets one. The `State` interface declares `Process(e Event)` while the states implement `Process(r RequestContext)`. The model follows the call sites.
- MediaView.ShowPage: the caption of a media group entry and the preparation of its media are one parameter, `prepare`.
- CentralState.Process: the handlers `doSearchRequest`, `doAddPhoto` and `doAddVideo` are stubs that only log and send a fixed text. The model returns which one runs.
- StateMachine.Statemachine.ProcessUpdate: the user id's decimal text uses `Itoa`. The messages the states send, apart from the error notice and the inline answer, are not returned. The model does not require different chats to hold different media view objects, so a view shared with the processed chat may change with it; each Go chat builds its own view.
- BotHelpers.SendError: what the chat is shown is modelled; the log lines are not.
- The command helpers `doRegister`, `doWhoami`, `doCreateBoard`, `doSubscribe`, `doUnsubscribe` and `help` send a message after one client call. Only the helpers with their own logic (`doLogin`, `doGetBoard`, `doSetBoard`, `doListBoards`, `sendError`, `unwrap`) are modelled.
