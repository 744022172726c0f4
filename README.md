# Steam Workshop query builder

A model of `Steamworks.Ugc.Query` from Facepunch.Steamworks. This is the
fluent builder a game uses to search the Steam Workshop (user-generated
content, UGC).

A query is created for one content type (`UgcType`), either by `new Query(t)`
or by one of the presets such as `Query.Items`. It is then configured by
chained calls:

- a `RankedBy*` call picks the ranking;
- the `With*` flags, `AllowCachedResponse` and `InLanguage` shape what a
  result returns;
- `MatchAnyTag`/`MatchAllTags` pick the tag-matching mode;
- `WithTag`/`WithoutTag` add required and excluded tags.

`GetPageAsync(page)` runs the query. It refuses a page that is not positive,
fills in the app ids, creates a native query handle, pushes the stored
constraints onto it (`ApplyConstraints`), sends the query, and turns the
callback into a `ResultPage`.

The model has three files:

- `steam_data.dfy`: the Steamworks types. It holds the fixed-width integers,
  the two enums, the native calls as records, the query callback,
  `ResultPage` and the `(int)` cast of a `uint`.
- `ugc_spec.dfy`: the builder described on values.
  - `QueryState`, a snapshot of every field.
  - `Setter`, one configuration call.
  - `Apply`, what one call does, and `ApplyAll`, what a chain of calls does.
  - Lemmas on chains: last write wins, tag lists accumulate in call order,
    independent calls commute, no setter writes the app ids or the key/value
    requirements.
  - `ConstraintCalls`, the native calls `ApplyConstraints` makes, with their
    order and count.
  - app-id defaulting, and `PageOf`, the mapping from callback to page.
- `ugc_query.dfy`: the class `Query` with the source's fields.
  - Each configuration call is a method that updates its field in place.
    Its contract ties the new state to `Apply` of the old one.
  - `ApplyConstraints` and `GetPage` return the native calls they make as a
    sequence. A few client scenarios exercise the contracts.

## Model

| member | source | states |
|---|---|---|
| Ugc.Query.State | Facepunch.Steamworks/Structs/UgcQuery.cs:11-115 | the snapshot of all eighteen fields of the query, the state every method contract is stated on |
| Ugc.Query.constructor | Facepunch.Steamworks/Structs/UgcQuery.cs:18-21 | the new query holds the given content type and every other field is zero or null (`Initial(t)`), which is well-formed |
| Ugc.Query.All | Facepunch.Steamworks/Structs/UgcQuery.cs:23 | a fresh query equal to `new Query(UgcType.All)` |
| Ugc.Query.Items | Facepunch.Steamworks/Structs/UgcQuery.cs:24 | a fresh query equal to `new Query(UgcType.Items)` |
| Ugc.Query.ItemsMtx | Facepunch.Steamworks/Structs/UgcQuery.cs:25 | a fresh query equal to `new Query(UgcType.Items_Mtx)` |
| Ugc.Query.ItemsReadyToUse | Facepunch.Steamworks/Structs/UgcQuery.cs:26 | a fresh query equal to `new Query(UgcType.Items_ReadyToUse)` |
| Ugc.Query.Collections | Facepunch.Steamworks/Structs/UgcQuery.cs:27 | a fresh query equal to `new Query(UgcType.Collections)` |
| Ugc.Query.Artwork | Facepunch.Steamworks/Structs/UgcQuery.cs:28 | a fresh query equal to `new Query(UgcType.Artwork)` |
| Ugc.Query.Videos | Facepunch.Steamworks/Structs/UgcQuery.cs:29 | a fresh query equal to `new Query(UgcType.Videos)` |
| Ugc.Query.Screenshots | Facepunch.Steamworks/Structs/UgcQuery.cs:30 | a fresh query equal to `new Query(UgcType.Screenshots)` |
| Ugc.Query.AllGuides | Facepunch.Steamworks/Structs/UgcQuery.cs:31 | a fresh query equal to `new Query(UgcType.AllGuides)` |
| Ugc.Query.WebGuides | Facepunch.Steamworks/Structs/UgcQuery.cs:32 | a fresh query equal to `new Query(UgcType.WebGuides)` |
| Ugc.Query.IntegratedGuides | Facepunch.Steamworks/Structs/UgcQuery.cs:33 | a fresh query equal to `new Query(UgcType.IntegratedGuides)` |
| Ugc.Query.UsableInGame | Facepunch.Steamworks/Structs/UgcQuery.cs:34 | a fresh query equal to `new Query(UgcType.UsableInGame)` |
| Ugc.Query.ControllerBindings | Facepunch.Steamworks/Structs/UgcQuery.cs:35 | a fresh query equal to `new Query(UgcType.ControllerBindings)` |
| Ugc.Query.GameManagedItems | Facepunch.Steamworks/Structs/UgcQuery.cs:36 | a fresh query equal to `new Query(UgcType.GameManagedItems)` |
| Ugc.Query.RankedByVote | Facepunch.Steamworks/Structs/UgcQuery.cs:39 | the new state is the old one with `queryType` set to `UGCQuery.RankedByVote` |
| Ugc.Query.RankedByPublicationDate | Facepunch.Steamworks/Structs/UgcQuery.cs:40 | the new state is the old one with `queryType` set to `UGCQuery.RankedByPublicationDate` |
| Ugc.Query.RankedByAcceptanceDate | Facepunch.Steamworks/Structs/UgcQuery.cs:41 | the new state is the old one with `queryType` set to `UGCQuery.AcceptedForGameRankedByAcceptanceDate` |
| Ugc.Query.RankedByTrend | Facepunch.Steamworks/Structs/UgcQuery.cs:42 | the new state is the old one with `queryType` set to `UGCQuery.RankedByTrend` |
| Ugc.Query.FavoritedByFriends | Facepunch.Steamworks/Structs/UgcQuery.cs:43 | the new state is the old one with `queryType` set to `UGCQuery.FavoritedByFriendsRankedByPublicationDate` |
| Ugc.Query.CreatedByFriends | Facepunch.Steamworks/Structs/UgcQuery.cs:44 | the new state is the old one with `queryType` set to `UGCQuery.CreatedByFriendsRankedByPublicationDate` |
| Ugc.Query.RankedByNumTimesReported | Facepunch.Steamworks/Structs/UgcQuery.cs:45 | the new state is the old one with `queryType` set to `UGCQuery.RankedByNumTimesReported` |
| Ugc.Query.CreatedByFollowedUsers | Facepunch.Steamworks/Structs/UgcQuery.cs:46 | the new state is the old one with `queryType` set to `UGCQuery.CreatedByFollowedUsersRankedByPublicationDate` |
| Ugc.Query.NotYetRated | Facepunch.Steamworks/Structs/UgcQuery.cs:47 | the new state is the old one with `queryType` set to `UGCQuery.NotYetRated` |
| Ugc.Query.RankedByTotalVotesAsc | Facepunch.Steamworks/Structs/UgcQuery.cs:48 | the new state is the old one with `queryType` set to `UGCQuery.RankedByTotalVotesAsc` |
| Ugc.Query.RankedByVotesUp | Facepunch.Steamworks/Structs/UgcQuery.cs:49 | the new state is the old one with `queryType` set to `UGCQuery.RankedByVotesUp` |
| Ugc.Query.RankedByTextSearch | Facepunch.Steamworks/Structs/UgcQuery.cs:50 | the new state is the old one with `queryType` set to `UGCQuery.RankedByTextSearch` |
| Ugc.Query.RankedByTotalUniqueSubscriptions | Facepunch.Steamworks/Structs/UgcQuery.cs:51 | the new state is the old one with `queryType` set to `UGCQuery.RankedByTotalUniqueSubscriptions` |
| Ugc.Query.RankedByPlaytimeTrend | Facepunch.Steamworks/Structs/UgcQuery.cs:52 | the new state is the old one with `queryType` set to `UGCQuery.RankedByPlaytimeTrend` |
| Ugc.Query.RankedByTotalPlaytime | Facepunch.Steamworks/Structs/UgcQuery.cs:53 | the new state is the old one with `queryType` set to `UGCQuery.RankedByTotalPlaytime` |
| Ugc.Query.RankedByAveragePlaytimeTrend | Facepunch.Steamworks/Structs/UgcQuery.cs:54 | the new state is the old one with `queryType` set to `UGCQuery.RankedByAveragePlaytimeTrend` |
| Ugc.Query.RankedByLifetimeAveragePlaytime | Facepunch.Steamworks/Structs/UgcQuery.cs:55 | the new state is the old one with `queryType` set to `UGCQuery.RankedByLifetimeAveragePlaytime` |
| Ugc.Query.RankedByPlaytimeSessionsTrend | Facepunch.Steamworks/Structs/UgcQuery.cs:56 | the new state is the old one with `queryType` set to `UGCQuery.RankedByPlaytimeSessionsTrend` |
| Ugc.Query.RankedByLifetimePlaytimeSessions | Facepunch.Steamworks/Structs/UgcQuery.cs:57 | the new state is the old one with `queryType` set to `UGCQuery.RankedByLifetimePlaytimeSessions` |
| Ugc.Query.WithType | Facepunch.Steamworks/Structs/UgcQuery.cs:90 | the new state is the old one with `matchingType` set to `t` |
| Ugc.Query.WithOnlyIDs | Facepunch.Steamworks/Structs/UgcQuery.cs:92 | the new state is the old one with `wantsReturnOnlyIds` set to `Some(b)`; a flag set to false stays distinct from an unset one |
| Ugc.Query.WithKeyValueTag | Facepunch.Steamworks/Structs/UgcQuery.cs:94 | the new state is the old one with `wantsReturnKeyValueTags` set to `Some(b)`; a flag set to false stays distinct from an unset one |
| Ugc.Query.WithLongDescription | Facepunch.Steamworks/Structs/UgcQuery.cs:96 | the new state is the old one with `wantsReturnLongDescription` set to `Some(b)`; a flag set to false stays distinct from an unset one |
| Ugc.Query.WithMetadata | Facepunch.Steamworks/Structs/UgcQuery.cs:98 | the new state is the old one with `wantsReturnMetadata` set to `Some(b)`; a flag set to false stays distinct from an unset one |
| Ugc.Query.WithChildren | Facepunch.Steamworks/Structs/UgcQuery.cs:100 | the new state is the old one with `wantsReturnChildren` set to `Some(b)`; a flag set to false stays distinct from an unset one |
| Ugc.Query.WithAdditionalPreviews | Facepunch.Steamworks/Structs/UgcQuery.cs:102 | the new state is the old one with `wantsReturnAdditionalPreviews` set to `Some(b)`; a flag set to false stays distinct from an unset one |
| Ugc.Query.WithTotalOnly | Facepunch.Steamworks/Structs/UgcQuery.cs:104 | the new state is the old one with `wantsReturnTotalOnly` set to `Some(b)`; a flag set to false stays distinct from an unset one |
| Ugc.Query.WithPlaytimeStats | Facepunch.Steamworks/Structs/UgcQuery.cs:106 | the new state is the old one with `wantsReturnPlaytimeStats` set to `Some(b)`; a flag set to false stays distinct from an unset one |
| Ugc.Query.AllowCachedResponse | Facepunch.Steamworks/Structs/UgcQuery.cs:108 | the new state is the old one with `maxCacheAge` set to `Some(n)` |
| Ugc.Query.InLanguage | Facepunch.Steamworks/Structs/UgcQuery.cs:110 | the new state is the old one with `language` set to `Some(l)` |
| Ugc.Query.MatchAnyTag | Facepunch.Steamworks/Structs/UgcQuery.cs:120 | the new state is the old one with `matchAnyTag` set to `Some(true)` |
| Ugc.Query.MatchAllTags | Facepunch.Steamworks/Structs/UgcQuery.cs:125 | the new state is the old one with `matchAnyTag` set to `Some(false)` |
| Ugc.Query.WithTag | Facepunch.Steamworks/Structs/UgcQuery.cs:127-132 | the new state is the old one with `requiredTags` replaced by the old list (null read as empty) followed by the tag; `excludedTags` is untouched |
| Ugc.Query.WithoutTag | Facepunch.Steamworks/Structs/UgcQuery.cs:134-139 | the new state is the old one with `excludedTags` replaced by the old list (null read as empty) followed by the tag; `requiredTags` is untouched |
| Ugc.Query.ApplyConstraints | Facepunch.Steamworks/Structs/UgcQuery.cs:141-165 | the returned trace is exactly `ConstraintCalls` of the current state, built by one loop per list whose invariant is the trace of the prefix walked so far; the query is not changed |
| Ugc.Query.GetPage | Facepunch.Steamworks/Structs/UgcQuery.cs:60-86 | a page that is not positive fails with no native call; otherwise the outcome is `PageOf(response)` and the trace is the handle creation with the resolved creator and consumer ids and `(uint)page`, then the constraint calls, then the send; the stored app ids are not changed |
| UgcSpec.Initial | Facepunch.Steamworks/Structs/UgcQuery.cs:18-21 | the freshly constructed query is well-formed |
| UgcSpec.FieldsDetermineState | Facepunch.Steamworks/Structs/UgcQuery.cs:11-115 | two query values that agree on every field are equal: `Get` covers every field |
| UgcSpec.Apply | Facepunch.Steamworks/Structs/UgcQuery.cs:90-139 | every configuration call keeps a query well-formed: an allocated tag list is never empty and no key/value key repeats |
| UgcSpec.ApplyWritesTarget | Facepunch.Steamworks/Structs/UgcQuery.cs:90-139 | a call leaves in the one field it aims at the value `Update` gives from the field's old value |
| UgcSpec.ApplyKeepsOtherFields | Facepunch.Steamworks/Structs/UgcQuery.cs:90-139 | a call leaves every field except its target unchanged |
| UgcSpec.AppendsOnlyToLists | Facepunch.Steamworks/Structs/UgcQuery.cs:127-139 | a call appends if and only if it aims at one of the two tag lists |
| UgcSpec.ApplyAllConcat | Facepunch.Steamworks/Structs/UgcQuery.cs:90-139 | chaining composes: running one chain and then another is running their concatenation |
| UgcSpec.ApplyAll | Facepunch.Steamworks/Structs/UgcQuery.cs:90-139 | a chain of configuration calls made left to right; no chain breaks well-formedness, so every query a program builds from `new Query(t)` is well-formed |
| UgcSpec.UntouchedFieldKept | Facepunch.Steamworks/Structs/UgcQuery.cs:90-139 | a field that no call of a chain aims at keeps its value |
| UgcSpec.LastCallWins | Facepunch.Steamworks/Structs/UgcQuery.cs:39-125 | an overwritten field ends up holding what the last call aimed at it wrote, whatever came before or after it |
| UgcSpec.NoSetterTargetsAppsOrKeyValues | Facepunch.Steamworks/Structs/UgcQuery.cs:39-139 | no configuration call aims at either app id or at the key/value requirements |
| UgcSpec.NoSetterWritesAppsOrKeyValues | Facepunch.Steamworks/Structs/UgcQuery.cs:39-139 | after any chain of configuration calls both app ids and the key/value requirements are what they were |
| UgcSpec.LastRankingWins | Facepunch.Steamworks/Structs/UgcQuery.cs:39-57 | after a chain the ranking is the constant of the last `RankedBy*` call in it |
| UgcSpec.LastMatchModeWins | Facepunch.Steamworks/Structs/UgcQuery.cs:120-125 | after a chain `matchAnyTag` is `Some(true)` if the last of `MatchAnyTag`/`MatchAllTags` was `MatchAnyTag`, `Some(false)` otherwise |
| UgcSpec.CommuteAt | Facepunch.Steamworks/Structs/UgcQuery.cs:90-139 | two calls aimed at different fields give every field the same value in either order |
| UgcSpec.IndependentCallsCommute | Facepunch.Steamworks/Structs/UgcQuery.cs:90-139 | two calls aimed at different fields can be made in either order with the same resulting query |
| UgcSpec.RequiredTagsAccumulate | Facepunch.Steamworks/Structs/UgcQuery.cs:127-132 | after a chain the required-tag list is the old list followed by the chain's `WithTag` arguments in call order, and is left as it was (null included) when there are none |
| UgcSpec.ExcludedTagsAccumulate | Facepunch.Steamworks/Structs/UgcQuery.cs:134-139 | the same for the excluded-tag list and the `WithoutTag` arguments |
| UgcSpec.BuiltTagLists | Facepunch.Steamworks/Structs/UgcQuery.cs:127-139 | from a new query each tag list is exactly its arguments in call order, and is null if and only if there were none |
| UgcSpec.RequiredTagCalls | Facepunch.Steamworks/Structs/UgcQuery.cs:143-147 | one `AddRequiredTag` per tag: as many calls as tags, the i-th naming the i-th tag |
| UgcSpec.ExcludedTagCalls | Facepunch.Steamworks/Structs/UgcQuery.cs:149-153 | one `AddExcludedTag` per tag: as many calls as tags, the i-th naming the i-th tag |
| UgcSpec.KeyValueTagCalls | Facepunch.Steamworks/Structs/UgcQuery.cs:155-159 | one `AddRequiredKeyValueTag` per dictionary entry: the i-th carries the i-th key and value |
| UgcSpec.MatchModeCalls | Facepunch.Steamworks/Structs/UgcQuery.cs:161-164 | one `SetMatchAnyTag` call carrying the chosen mode when a mode was chosen, no call otherwise |
| UgcSpec.ConstraintCalls | Facepunch.Steamworks/Structs/UgcQuery.cs:141-165 | the number of constraint calls is the number of required tags plus excluded tags plus key/value entries, plus one when a matching mode is set |
| UgcSpec.ConstraintCallsLayout | Facepunch.Steamworks/Structs/UgcQuery.cs:141-165 | the constraint calls are, in order, the required-tag run, the excluded-tag run, the key/value run and the optional matching-mode call; null lists give empty runs |
| UgcSpec.WellformedConstraints | Facepunch.Steamworks/Structs/UgcQuery.cs:127-159 | on a well-formed query a tag list is allocated if and only if it yields at least one call, and no two key/value calls name the same key |
| UgcSpec.BuiltQueryConstraints | Facepunch.Steamworks/Structs/UgcQuery.cs:141-165 | for a query built by any chain from `new Query(t)` the constraint calls are the `WithTag` arguments, then the `WithoutTag` arguments, then the final matching mode; no key/value call is made |
| UgcSpec.OrFallback | Facepunch.Steamworks/Structs/UgcQuery.cs:64-65 | the resolved id is the stored one when that is set and the fallback otherwise; it is 0 only when both are |
| UgcSpec.ResolvedConsumer | Facepunch.Steamworks/Structs/UgcQuery.cs:64 | the consumer app a page request uses is the stored one when set, the ambient app id otherwise |
| UgcSpec.ResolvedCreator | Facepunch.Steamworks/Structs/UgcQuery.cs:65 | the creator app a page request uses is the stored one when set, the resolved consumer app otherwise |
| UgcSpec.AppResolution | Facepunch.Steamworks/Structs/UgcQuery.cs:64-65 | with nothing stored both ids are the ambient app id; an unset creator follows the resolved consumer; a stored id is used as it is; with an ambient id set neither resolved id is 0 |
| UgcSpec.PageOf | Facepunch.Steamworks/Structs/UgcQuery.cs:72-85 | no page if and only if there was no callback or its result is not `OK`; otherwise the page carries the callback's handle, both counts cast to `int`, and its cached flag |
| SteamData.ToInt32 | Facepunch.Steamworks/Structs/UgcQuery.cs:82-83 | the unchecked cast agrees with the count modulo 2^32, is the count itself below 2^31 and is negative from 2^31 up |

## Left out

- The `async`/`Task` machinery and the native `SteamUGC.Internal.*` calls are not modelled as I/O. Each call becomes a `NativeCall` record in a returned trace. The handle that `CreateQueryAllUGCRequest1` returns and the awaited `SendQueryUGCRequest` callback are parameters of `GetPage` (`handle`, and `response` as an option).
- `SteamClient.AppId`, global state of the running client, is the parameter `ambientAppId`.
- Ugc.Query.GetPage: does not write the defaulted app ids back into the query. In C#, an async method on a struct runs on a copy of `this`, so the assignments at lines 64-65 are not seen by the caller. The model resolves the ids into locals and leaves the query unchanged.
- The C# setters return a copy of the struct for chaining, and an already allocated `List<string>` is shared between such copies. The model has one object updated in place, so the methods return nothing. Aliasing between copies is not modelled.
- `requiredKv` is a `Dictionary<string, string>` that nothing in the file ever fills. It is modelled as an optional sequence of pairs in the dictionary's enumeration order, which .NET leaves unspecified. No setter for it is invented.
- The eight `WantsReturn*` flags, `maxCacheAge` and `language` are stored but never passed to any native call. They are modelled as stored state only.
- A `null` string argument to `InLanguage`, `WithTag` or `WithoutTag` is not modelled: strings are always present values.
- The exception thrown for a page that is not positive is modelled as the error result `Failure(PageNotPositive)`. Its type and message are not modelled.
- `default(Query)`, the zeroed struct, is not a separate entry point. It differs from `new Query(UgcType.Items)` in nothing, because `Items` is the zero `UgcType`.

Three behaviours of the code a caller may not expect:

- `queryType` is a non-nullable enum, so an untouched query ranks by `RankedByVote`, the zero `UGCQuery`, rather than by an unset ranking.
- `WithType` (line 90) overwrites the content type, so it can change after construction.
- Copies of a query share their tag lists once allocated, so a tag added through one copy is seen by the others.
