/**
 * The like button: whether the signed-in user already likes a track
 * (a `findIndex` over the user's `likeSet`), the button's disabled rule and
 * the mutation a click dispatches.
 */
module LikeTrack {
  import opened Wrappers
  import opened GraphIds

  /** One entry of `currentUser.likeSet`: the liked track, of which only the id is read. */
  datatype LikeEntry = LikeEntry(trackId: GraphId)

  /** The signed-in user, as far as the like button reads it. */
  datatype CurrentUser = CurrentUser(id: GraphId, likeSet: seq<LikeEntry>)

  /** The variables `createLike` is dispatched with. */
  datatype LikeVariables = LikeVariables(trackId: GraphId)

  /** `Array.prototype.findIndex` for "entry likes `trackId`": the first match, or -1 if none. */
  function FindIndex(likes: seq<LikeEntry>, trackId: GraphId): (i: int)
    ensures -1 <= i < |likes|
    ensures i == -1 <==> forall k :: 0 <= k < |likes| ==> likes[k].trackId != trackId
    ensures 0 <= i ==> likes[i].trackId == trackId
    ensures 0 <= i ==> forall k :: 0 <= k < i ==> likes[k].trackId != trackId
    decreases |likes|
  {
    if |likes| == 0 then -1
    else if likes[0].trackId == trackId then 0
    else
      var j := FindIndex(likes[1..], trackId);
      if j == -1 then -1 else j + 1
  }

  /** `handleDisabledLikedTrack`: some entry of the user's likes is for `trackId`. */
  function IsTrackLiked(user: CurrentUser, trackId: GraphId): (liked: bool)
    ensures liked <==> exists k :: 0 <= k < |user.likeSet| && user.likeSet[k].trackId == trackId
    ensures user.likeSet == [] ==> !liked
  {
    FindIndex(user.likeSet, trackId) > -1
  }

  /** The ids of the tracks a like list covers, forgetting order and repetition. */
  function LikedIds(likes: seq<LikeEntry>): set<GraphId>
  {
    set k | 0 <= k < |likes| :: likes[k].trackId
  }

  /** Being liked is membership of the track's id in the liked ids. */
  lemma LikedIffInIds(user: CurrentUser, trackId: GraphId)
    ensures IsTrackLiked(user, trackId) <==> trackId in LikedIds(user.likeSet)
  {
  }

  /** Neither the position of a matching entry nor duplicates matter: only the set of liked ids. */
  lemma {:induction false} LikedDependsOnlyOnIds(u: CurrentUser, v: CurrentUser, trackId: GraphId)
    requires LikedIds(u.likeSet) == LikedIds(v.likeSet)
    ensures IsTrackLiked(u, trackId) == IsTrackLiked(v, trackId)
  {
    LikedIffInIds(u, trackId);
    LikedIffInIds(v, trackId);
  }

  /**
   * A click on the like button: the button is disabled exactly when the
   * track is already liked; otherwise `createLike` goes out with the
   * component's own `trackId`.
   */
  function ClickLike(user: CurrentUser, trackId: GraphId): (r: Option<LikeVariables>)
    ensures r.None? <==> exists k :: 0 <= k < |user.likeSet| && user.likeSet[k].trackId == trackId
    ensures r.Some? ==> r.value.trackId == trackId
  {
    if IsTrackLiked(user, trackId) then None else Some(LikeVariables(trackId))
  }
}
