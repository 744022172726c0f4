/**
 * `Steamworks.Ugc.Query`, the Steam Workshop query builder, as an object
 * whose configuration calls update its fields in place. Each call's contract
 * ties the new field values to `UgcSpec.Apply`; `ApplyConstraints` and
 * `GetPage` return the native calls they make, as a sequence, and are proved
 * against `UgcSpec.ConstraintCalls` and `UgcSpec.PageOf`.
 */
module Ugc {
  import opened Wrappers
  import opened SteamData
  import opened UgcSpec

  /** Why a page request was refused. */
  datatype PageError = PageNotPositive

  class Query {
    var matchingType: UgcType
    var queryType: UGCQuery
    var consumerApp: AppId
    var creatorApp: AppId
    var wantsReturnOnlyIds: Option<bool>
    var wantsReturnKeyValueTags: Option<bool>
    var wantsReturnLongDescription: Option<bool>
    var wantsReturnMetadata: Option<bool>
    var wantsReturnChildren: Option<bool>
    var wantsReturnAdditionalPreviews: Option<bool>
    var wantsReturnTotalOnly: Option<bool>
    var wantsReturnPlaytimeStats: Option<bool>
    var maxCacheAge: Option<int32>
    var language: Option<string>
    var requiredTags: Option<seq<string>>
    var matchAnyTag: Option<bool>
    var excludedTags: Option<seq<string>>
    var requiredKv: Option<seq<(string, string)>>

    /** The current field values as a snapshot. */
    function State(): QueryState
      reads this
    {
      QueryState(matchingType, queryType, consumerApp, creatorApp,
                 wantsReturnOnlyIds, wantsReturnKeyValueTags, wantsReturnLongDescription,
                 wantsReturnMetadata, wantsReturnChildren, wantsReturnAdditionalPreviews,
                 wantsReturnTotalOnly, wantsReturnPlaytimeStats,
                 maxCacheAge, language, requiredTags, matchAnyTag, excludedTags, requiredKv)
    }

    /** `new Query(t)`: `this()` zeroes every field, then the content type is set. */
    constructor(t: UgcType)
      ensures State() == Initial(t)
    {
      matchingType := t;
      queryType := DefaultRanking;
      consumerApp, creatorApp := 0, 0;
      wantsReturnOnlyIds, wantsReturnKeyValueTags, wantsReturnLongDescription := None, None, None;
      wantsReturnMetadata, wantsReturnChildren, wantsReturnAdditionalPreviews := None, None, None;
      wantsReturnTotalOnly, wantsReturnPlaytimeStats := None, None;
      maxCacheAge, language := None, None;
      requiredTags, matchAnyTag, excludedTags, requiredKv := None, None, None, None;
    }

    // The preset queries, one per content type: each is `new Query(<type>)`.

    static method All() returns (q: Query)
      ensures fresh(q) && q.State() == Initial(UgcType.All)
    {
      q := new Query(UgcType.All);
    }

    static method Items() returns (q: Query)
      ensures fresh(q) && q.State() == Initial(UgcType.Items)
    {
      q := new Query(UgcType.Items);
    }

    static method ItemsMtx() returns (q: Query)
      ensures fresh(q) && q.State() == Initial(UgcType.Items_Mtx)
    {
      q := new Query(UgcType.Items_Mtx);
    }

    static method ItemsReadyToUse() returns (q: Query)
      ensures fresh(q) && q.State() == Initial(UgcType.Items_ReadyToUse)
    {
      q := new Query(UgcType.Items_ReadyToUse);
    }

    static method Collections() returns (q: Query)
      ensures fresh(q) && q.State() == Initial(UgcType.Collections)
    {
      q := new Query(UgcType.Collections);
    }

    static method Artwork() returns (q: Query)
      ensures fresh(q) && q.State() == Initial(UgcType.Artwork)
    {
      q := new Query(UgcType.Artwork);
    }

    static method Videos() returns (q: Query)
      ensures fresh(q) && q.State() == Initial(UgcType.Videos)
    {
      q := new Query(UgcType.Videos);
    }

    static method Screenshots() returns (q: Query)
      ensures fresh(q) && q.State() == Initial(UgcType.Screenshots)
    {
      q := new Query(UgcType.Screenshots);
    }

    static method AllGuides() returns (q: Query)
      ensures fresh(q) && q.State() == Initial(UgcType.AllGuides)
    {
      q := new Query(UgcType.AllGuides);
    }

    static method WebGuides() returns (q: Query)
      ensures fresh(q) && q.State() == Initial(UgcType.WebGuides)
    {
      q := new Query(UgcType.WebGuides);
    }

    static method IntegratedGuides() returns (q: Query)
      ensures fresh(q) && q.State() == Initial(UgcType.IntegratedGuides)
    {
      q := new Query(UgcType.IntegratedGuides);
    }

    static method UsableInGame() returns (q: Query)
      ensures fresh(q) && q.State() == Initial(UgcType.UsableInGame)
    {
      q := new Query(UgcType.UsableInGame);
    }

    static method ControllerBindings() returns (q: Query)
      ensures fresh(q) && q.State() == Initial(UgcType.ControllerBindings)
    {
      q := new Query(UgcType.ControllerBindings);
    }

    static method GameManagedItems() returns (q: Query)
      ensures fresh(q) && q.State() == Initial(UgcType.GameManagedItems)
    {
      q := new Query(UgcType.GameManagedItems);
    }

    // The ranking calls: each sets `queryType` to its own constant and nothing else.

    method RankedByVote()
      modifies this
      ensures State() == Apply(old(State()), SetRanking(UGCQuery.RankedByVote))
    {
      queryType := UGCQuery.RankedByVote;
    }

    method RankedByPublicationDate()
      modifies this
      ensures State() == Apply(old(State()), SetRanking(UGCQuery.RankedByPublicationDate))
    {
      queryType := UGCQuery.RankedByPublicationDate;
    }

    method RankedByAcceptanceDate()
      modifies this
      ensures State() == Apply(old(State()), SetRanking(UGCQuery.AcceptedForGameRankedByAcceptanceDate))
    {
      queryType := UGCQuery.AcceptedForGameRankedByAcceptanceDate;
    }

    method RankedByTrend()
      modifies this
      ensures State() == Apply(old(State()), SetRanking(UGCQuery.RankedByTrend))
    {
      queryType := UGCQuery.RankedByTrend;
    }

    method FavoritedByFriends()
      modifies this
      ensures State() == Apply(old(State()), SetRanking(UGCQuery.FavoritedByFriendsRankedByPublicationDate))
    {
      queryType := UGCQuery.FavoritedByFriendsRankedByPublicationDate;
    }

    method CreatedByFriends()
      modifies this
      ensures State() == Apply(old(State()), SetRanking(UGCQuery.CreatedByFriendsRankedByPublicationDate))
    {
      queryType := UGCQuery.CreatedByFriendsRankedByPublicationDate;
    }

    method RankedByNumTimesReported()
      modifies this
      ensures State() == Apply(old(State()), SetRanking(UGCQuery.RankedByNumTimesReported))
    {
      queryType := UGCQuery.RankedByNumTimesReported;
    }

    method CreatedByFollowedUsers()
      modifies this
      ensures State() == Apply(old(State()), SetRanking(UGCQuery.CreatedByFollowedUsersRankedByPublicationDate))
    {
      queryType := UGCQuery.CreatedByFollowedUsersRankedByPublicationDate;
    }

    method NotYetRated()
      modifies this
      ensures State() == Apply(old(State()), SetRanking(UGCQuery.NotYetRated))
    {
      queryType := UGCQuery.NotYetRated;
    }

    method RankedByTotalVotesAsc()
      modifies this
      ensures State() == Apply(old(State()), SetRanking(UGCQuery.RankedByTotalVotesAsc))
    {
      queryType := UGCQuery.RankedByTotalVotesAsc;
    }

    method RankedByVotesUp()
      modifies this
      ensures State() == Apply(old(State()), SetRanking(UGCQuery.RankedByVotesUp))
    {
      queryType := UGCQuery.RankedByVotesUp;
    }

    method RankedByTextSearch()
      modifies this
      ensures State() == Apply(old(State()), SetRanking(UGCQuery.RankedByTextSearch))
    {
      queryType := UGCQuery.RankedByTextSearch;
    }

    method RankedByTotalUniqueSubscriptions()
      modifies this
      ensures State() == Apply(old(State()), SetRanking(UGCQuery.RankedByTotalUniqueSubscriptions))
    {
      queryType := UGCQuery.RankedByTotalUniqueSubscriptions;
    }

    method RankedByPlaytimeTrend()
      modifies this
      ensures State() == Apply(old(State()), SetRanking(UGCQuery.RankedByPlaytimeTrend))
    {
      queryType := UGCQuery.RankedByPlaytimeTrend;
    }

    method RankedByTotalPlaytime()
      modifies this
      ensures State() == Apply(old(State()), SetRanking(UGCQuery.RankedByTotalPlaytime))
    {
      queryType := UGCQuery.RankedByTotalPlaytime;
    }

    method RankedByAveragePlaytimeTrend()
      modifies this
      ensures State() == Apply(old(State()), SetRanking(UGCQuery.RankedByAveragePlaytimeTrend))
    {
      queryType := UGCQuery.RankedByAveragePlaytimeTrend;
    }

    method RankedByLifetimeAveragePlaytime()
      modifies this
      ensures State() == Apply(old(State()), SetRanking(UGCQuery.RankedByLifetimeAveragePlaytime))
    {
      queryType := UGCQuery.RankedByLifetimeAveragePlaytime;
    }

    method RankedByPlaytimeSessionsTrend()
      modifies this
      ensures State() == Apply(old(State()), SetRanking(UGCQuery.RankedByPlaytimeSessionsTrend))
    {
      queryType := UGCQuery.RankedByPlaytimeSessionsTrend;
    }

    method RankedByLifetimePlaytimeSessions()
      modifies this
      ensures State() == Apply(old(State()), SetRanking(UGCQuery.RankedByLifetimePlaytimeSessions))
    {
      queryType := UGCQuery.RankedByLifetimePlaytimeSessions;
    }

    // The shared constraints: each overwrites its own field, or appends to its own list.

    method WithType(t: UgcType)
      modifies this
      ensures State() == Apply(old(State()), SetType(t))
    {
      matchingType := t;
    }

    method WithOnlyIDs(b: bool)
      modifies this
      ensures State() == Apply(old(State()), SetOnlyIds(b))
    {
      wantsReturnOnlyIds := Some(b);
    }

    method WithKeyValueTag(b: bool)
      modifies this
      ensures State() == Apply(old(State()), SetKeyValueTags(b))
    {
      wantsReturnKeyValueTags := Some(b);
    }

    method WithLongDescription(b: bool)
      modifies this
      ensures State() == Apply(old(State()), SetLongDescription(b))
    {
      wantsReturnLongDescription := Some(b);
    }

    method WithMetadata(b: bool)
      modifies this
      ensures State() == Apply(old(State()), SetMetadata(b))
    {
      wantsReturnMetadata := Some(b);
    }

    method WithChildren(b: bool)
      modifies this
      ensures State() == Apply(old(State()), SetChildren(b))
    {
      wantsReturnChildren := Some(b);
    }

    method WithAdditionalPreviews(b: bool)
      modifies this
      ensures State() == Apply(old(State()), SetAdditionalPreviews(b))
    {
      wantsReturnAdditionalPreviews := Some(b);
    }

    method WithTotalOnly(b: bool)
      modifies this
      ensures State() == Apply(old(State()), SetTotalOnly(b))
    {
      wantsReturnTotalOnly := Some(b);
    }

    method WithPlaytimeStats(b: bool)
      modifies this
      ensures State() == Apply(old(State()), SetPlaytimeStats(b))
    {
      wantsReturnPlaytimeStats := Some(b);
    }

    method AllowCachedResponse(maxSecondsAge: int32)
      modifies this
      ensures State() == Apply(old(State()), SetMaxCacheAge(maxSecondsAge))
    {
      maxCacheAge := Some(maxSecondsAge);
    }

    method InLanguage(lang: string)
      modifies this
      ensures State() == Apply(old(State()), SetLanguage(lang))
    {
      language := Some(lang);
    }

    /** Found items must carry at least one of the required tags. */
    method MatchAnyTag()
      modifies this
      ensures State() == Apply(old(State()), MatchAny)
    {
      matchAnyTag := Some(true);
    }

    /** Found items must carry all the required tags. */
    method MatchAllTags()
      modifies this
      ensures State() == Apply(old(State()), MatchAll)
    {
      matchAnyTag := Some(false);
    }

    /** Allocates the required-tag list on first use, then adds `tag` at its end. */
    method WithTag(tag: string)
      modifies this
      ensures State() == Apply(old(State()), AddRequired(tag))
    {
      if requiredTags == None {
        requiredTags := Some([]);
      }
      requiredTags := Some(requiredTags.value + [tag]);
    }

    /** Allocates the excluded-tag list on first use, then adds `tag` at its end. */
    method WithoutTag(tag: string)
      modifies this
      ensures State() == Apply(old(State()), AddExcluded(tag))
    {
      if excludedTags == None {
        excludedTags := Some([]);
      }
      excludedTags := Some(excludedTags.value + [tag]);
    }

    /**
     * Pushes the stored constraints onto the native query `handle`: one call
     * per required tag, then per excluded tag, then per key/value entry, then
     * the matching mode if one was chosen.
     */
    method ApplyConstraints(handle: QueryHandle) returns (calls: seq<NativeCall>)
      ensures calls == ConstraintCalls(State(), handle)
    {
      // The calls of each category, in the order they are issued.
      var required: seq<NativeCall> := [];
      if requiredTags != None {
        var tags := requiredTags.value;
        for i := 0 to |tags|
          invariant required == RequiredTagCalls(handle, tags[..i])
        {
          RequiredTagCallsSnoc(handle, tags, i);
          required := required + [AddRequiredTag(handle, tags[i])];
        }
        assert tags[..|tags|] == tags;
      }
      var excluded: seq<NativeCall> := [];
      if excludedTags != None {
        var tags := excludedTags.value;
        for i := 0 to |tags|
          invariant excluded == ExcludedTagCalls(handle, tags[..i])
        {
          ExcludedTagCallsSnoc(handle, tags, i);
          excluded := excluded + [AddExcludedTag(handle, tags[i])];
        }
        assert tags[..|tags|] == tags;
      }
      var keyValues: seq<NativeCall> := [];
      if requiredKv != None {
        var pairs := requiredKv.value;
        for i := 0 to |pairs|
          invariant keyValues == KeyValueTagCalls(handle, pairs[..i])
        {
          KeyValueTagCallsSnoc(handle, pairs, i);
          keyValues := keyValues + [AddRequiredKeyValueTag(handle, pairs[i].0, pairs[i].1)];
        }
        assert pairs[..|pairs|] == pairs;
      }
      var mode: seq<NativeCall> := [];
      if matchAnyTag != None {
        mode := [SetMatchAnyTag(handle, matchAnyTag.value)];
      }
      calls := required + excluded + keyValues + mode;
    }

    /**
     * `GetPageAsync(page)`. The native calls and the awaited callback are
     * modelled: `handle` is what `CreateQueryAllUGCRequest1` returns,
     * `response` is what `SendQueryUGCRequest` completes with (None: no
     * callback), `ambientAppId` is `SteamClient.AppId`. A page that is not
     * positive is refused before any native call. Otherwise the app ids are
     * defaulted, the request is created, the constraints applied, the query
     * sent, and the callback turned into a page. The defaulted app ids live in
     * the copy of the struct the async method runs on, so this query keeps
     * its own.
     */
    method GetPage(page: int32, ambientAppId: AppId, handle: QueryHandle, response: Option<QueryCompleted>)
      returns (outcome: Result<Option<ResultPage>, PageError>, calls: seq<NativeCall>)
      ensures page <= 0 ==> outcome == Failure(PageNotPositive) && calls == []
      ensures page > 0 ==> outcome == Success(PageOf(response))
      ensures page > 0 ==>
        calls == [CreateQueryAllUGCRequest(queryType, matchingType, ResolvedCreator(State(), ambientAppId),
                                           ResolvedConsumer(State(), ambientAppId), page as int as uint32)]
                 + ConstraintCalls(State(), handle)
                 + [SendQueryUGCRequest(handle)]
    {
      if page <= 0 {
        return Failure(PageNotPositive), [];
      }
      var consumer := consumerApp;
      var creator := creatorApp;
      if consumer == 0 {
        consumer := ambientAppId;
      }
      if creator == 0 {
        creator := consumer;
      }
      calls := [CreateQueryAllUGCRequest(queryType, matchingType, creator, consumer, page as int as uint32)];
      var constraints := ApplyConstraints(handle);
      calls := calls + constraints + [SendQueryUGCRequest(handle)];
      if response.None? {
        return Success(None), calls;
      }
      if response.value.result != OK {
        return Success(None), calls;
      }
      outcome := Success(Some(ResultPage(
        response.value.handle,
        ToInt32(response.value.numResultsReturned),
        ToInt32(response.value.totalMatchingResults),
        response.value.cachedData)));
    }
  }

  /** A caller's view of the first tag calls: each list is allocated on first use. */
  method FirstTagScenario()
  {
    var q := Query.Items();
    q.WithTag("maps");
    assert [] + ["maps"] == ["maps"];
    assert q.requiredTags == Some(["maps"]) && q.excludedTags == None;
  }

  /** A caller's view of later tag calls: a list grows in call order and the other list is untouched. */
  method MoreTagsScenario(q: Query)
    requires q.requiredTags == Some(["maps"]) && q.excludedTags == None
    modifies q
  {
    q.WithTag("co-op");
    assert ["maps"] + ["co-op"] == ["maps", "co-op"];
    q.WithoutTag("wip");
    assert [] + ["wip"] == ["wip"];
    assert q.requiredTags == Some(["maps", "co-op"]) && q.excludedTags == Some(["wip"]);
  }

  /** A caller's view of the constraint calls for a query holding two required tags and one excluded tag. */
  method TraceScenario(q: Query)
    requires q.requiredTags == Some(["maps", "co-op"]) && q.excludedTags == Some(["wip"])
    requires q.requiredKv == None && q.matchAnyTag == Some(false)
  {
    var calls := q.ApplyConstraints(7);
    var required := RequiredTagCalls(7, ["maps", "co-op"]);
    assert required == [AddRequiredTag(7, "maps"), AddRequiredTag(7, "co-op")] by {
      assert |required| == 2 && required[0] == AddRequiredTag(7, "maps") && required[1] == AddRequiredTag(7, "co-op");
    }
    var excluded := ExcludedTagCalls(7, ["wip"]);
    assert excluded == [AddExcludedTag(7, "wip")] by {
      assert |excluded| == 1 && excluded[0] == AddExcludedTag(7, "wip");
    }
    assert calls == [AddRequiredTag(7, "maps"), AddRequiredTag(7, "co-op"),
                     AddExcludedTag(7, "wip"), SetMatchAnyTag(7, false)];
  }

  /** A caller's view of overwriting calls: the last ranking and the last matching mode win. */
  method OverwriteScenario()
  {
    var q := Query.Items();
    q.MatchAnyTag();
    q.MatchAllTags();
    assert q.matchAnyTag == Some(false);
    q.RankedByTrend();
    q.RankedByVotesUp();
    assert q.queryType == RankedByVotesUp;
    q.WithOnlyIDs(false);
    assert q.wantsReturnOnlyIds == Some(false) && q.wantsReturnChildren == None;
    assert q.requiredTags == None && q.requiredKv == None;
  }

  /** A caller's view of the three ways a page request can end. */
  method PageRequestScenario(q: Query)
  {
    var outcome, trace := q.GetPage(1, 480, 7, Some(QueryCompleted(9, OK, 5, 42, true)));
    assert outcome == Success(Some(ResultPage(9, 5, 42, true)));
    assert q.consumerApp == 0 ==> trace[0].consumerApp == 480;
    var failed, _ := q.GetPage(1, 480, 7, Some(QueryCompleted(9, NotOK(2), 5, 42, true)));
    assert failed == Success(None);
    var missing, _ := q.GetPage(3, 480, 7, None);
    assert missing == Success(None);
    var refused, none := q.GetPage(0, 480, 7, Some(QueryCompleted(9, OK, 5, 42, true)));
    assert refused == Failure(PageNotPositive) && none == [];
  }
}
