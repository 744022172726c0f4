/** Option and Result, the two wrappers the query model needs. */
module Wrappers {

  /** A value that may be absent: C#'s `null` and `Nullable<T>` (`bool?`, `int?`). */
  datatype Option<+T> = None | Some(value: T)

  /** The outcome of an operation that can fail with an error instead of returning. */
  datatype Result<+R, +E> = Success(value: R) | Failure(error: E)
}

/**
 * The Steamworks types the UGC query builder talks in: fixed-width integers,
 * the two enums it stores, the native calls it issues, the response it awaits
 * and the page it builds from that response.
 */
module SteamData {

  /** C# `int`. */
  newtype int32 = x: int | -0x8000_0000 <= x < 0x8000_0000
  /** C# `uint`. */
  newtype uint32 = x: int | 0 <= x < 0x1_0000_0000
  /** C# `ulong`. */
  newtype uint64 = x: int | 0 <= x < 0x1_0000_0000_0000_0000

  /** `AppId` wraps a `uint`; 0 means "not set". */
  type AppId = uint32

  /** `UGCQueryHandle_t`, an opaque 64-bit handle issued by the Steam client. */
  type QueryHandle = uint64

  /** `UgcType`: which kind of Workshop content a query matches. */
  datatype UgcType =
    | Items | Items_Mtx | Items_ReadyToUse | Collections | Artwork | Videos
    | Screenshots | AllGuides | WebGuides | IntegratedGuides | UsableInGame
    | ControllerBindings | GameManagedItems | All

  /** `UGCQuery`: the ranking a query asks the Steam client for. */
  datatype UGCQuery =
    | RankedByVote
    | RankedByPublicationDate
    | AcceptedForGameRankedByAcceptanceDate
    | RankedByTrend
    | FavoritedByFriendsRankedByPublicationDate
    | CreatedByFriendsRankedByPublicationDate
    | RankedByNumTimesReported
    | CreatedByFollowedUsersRankedByPublicationDate
    | NotYetRated
    | RankedByTotalVotesAsc
    | RankedByVotesUp
    | RankedByTextSearch
    | RankedByTotalUniqueSubscriptions
    | RankedByPlaytimeTrend
    | RankedByTotalPlaytime
    | RankedByAveragePlaytimeTrend
    | RankedByLifetimeAveragePlaytime
    | RankedByPlaytimeSessionsTrend
    | RankedByLifetimePlaytimeSessions

  /** The zero-initialised `UgcType` (enum value 0), the content type of `default(Query)`. */
  const DefaultUgcType: UgcType := Items

  /** The zero-initialised `UGCQuery` (enum value 0): the ranking of a query no `RankedBy*` call touched. */
  const DefaultRanking: UGCQuery := RankedByVote

  /** `Steamworks.Result`: only whether it is `OK` matters to the query builder. */
  datatype SteamResult = OK | NotOK(code: int)

  /**
   * One call into the native `SteamUGC` interface, in the order the query
   * builder issues them. A run of the builder is described by the sequence of
   * calls it makes.
   */
  datatype NativeCall =
    | CreateQueryAllUGCRequest(queryType: UGCQuery, matchingType: UgcType,
                               creatorApp: AppId, consumerApp: AppId, page: uint32)
    | AddRequiredTag(handle: QueryHandle, tag: string)
    | AddExcludedTag(handle: QueryHandle, tag: string)
    | AddRequiredKeyValueTag(handle: QueryHandle, key: string, value: string)
    | SetMatchAnyTag(handle: QueryHandle, matchAnyTag: bool)
    | SendQueryUGCRequest(handle: QueryHandle)

  /** The fields of the `SteamUGCQueryCompleted_t` callback that the builder reads. */
  datatype QueryCompleted = QueryCompleted(
    handle: QueryHandle,
    result: SteamResult,
    numResultsReturned: uint32,
    totalMatchingResults: uint32,
    cachedData: bool)

  /** `ResultPage`: what a successful page request hands back to the caller. */
  datatype ResultPage = ResultPage(
    handle: QueryHandle,
    resultCount: int32,
    totalCount: int32,
    cachedData: bool)

  /**
   * The unchecked C# cast `(int)u` of a `uint`: the same 32 bits read as a
   * two's-complement number.
   */
  function ToInt32(u: uint32): (r: int32)
    ensures (r as int - u as int) % 0x1_0000_0000 == 0
    ensures u < 0x8000_0000 ==> r as int == u as int
    ensures u >= 0x8000_0000 ==> r < 0
  {
    if u < 0x8000_0000 then u as int as int32 else (u as int - 0x1_0000_0000) as int32
  }
}
