/**
 * The GraphQL resolvers of the tracks app over the tables of TrackModels:
 * the `tracks` query with its optional case-insensitive search, and the
 * four mutations, each guarded by a login and, where the source has one, an
 * ownership check. A raised `GraphQLError`, a failed `Track.objects.get` and
 * a resolver called without one of its arguments all become a Failure that
 * leaves the tables untouched.
 */
module TrackSchema {
  import opened Wrappers
  import opened TrackModels

  /** `info.context.user`: the anonymous user or a signed-in one. */
  datatype Caller = Anonymous | Authenticated(id: UserId)

  /**
   * Why a resolver raised. `MissingArgument`: an argument had no value. The
   * executor rejects a missing non-null variable before any resolver runs;
   * a missing nullable one is left out of the call, and `mutate` raises a
   * `TypeError` for the absent parameter.
   */
  datatype StoreError =
    | GraphQLError(message: string)   // raised explicitly by the resolver
    | DoesNotExist                    // `Track.objects.get` found no row with that id
    | MissingArgument

  /** Lower-case folding for `icontains`, on ASCII letters. */
  function LowerChar(c: char): char {
    if 'A' <= c <= 'Z' then (c as int + 32) as char else c
  }

  /**
   * Folding keeps the length, leaves no ASCII capital behind, turns each
   * capital into its small letter and keeps every other character.
   */
  function Lower(s: string): (r: string)
    ensures |r| == |s|
    ensures forall i :: 0 <= i < |r| ==> !('A' <= r[i] <= 'Z')
    ensures forall i :: 0 <= i < |s| && 'A' <= s[i] <= 'Z' ==>
              r[i] as int - s[i] as int == 'a' as int - 'A' as int
    ensures forall i :: 0 <= i < |s| && !('A' <= s[i] <= 'Z') ==> r[i] == s[i]
  {
    seq(|s|, i requires 0 <= i < |s| => LowerChar(s[i]))
  }

  /** `needle` occurs in `hay` starting at position `i`. */
  predicate OccursAt(needle: string, hay: string, i: int) {
    0 <= i <= |hay| - |needle| && hay[i..i + |needle|] == needle
  }

  /** `needle` occurs somewhere in `hay`, as a contiguous run. */
  ghost predicate Occurs(needle: string, hay: string) {
    exists i :: OccursAt(needle, hay, i)
  }

  /** A left-to-right substring search: true exactly when `needle` occurs in `hay`. */
  function Contains(hay: string, needle: string): (r: bool)
    ensures r <==> Occurs(needle, hay)
    decreases |hay|
  {
    if needle <= hay then
      assert OccursAt(needle, hay, 0);
      true
    else if |hay| == 0 then
      false
    else
      var r := Contains(hay[1..], needle);
      ShiftOccurs(needle, hay);
      r
  }

  /** When `needle` is not a prefix of a non-empty `hay`, it occurs in `hay` iff it occurs in `hay[1..]`. */
  lemma ShiftOccurs(needle: string, hay: string)
    requires |hay| > 0 && !(needle <= hay)
    ensures Occurs(needle, hay) <==> Occurs(needle, hay[1..])
  {
    if Occurs(needle, hay) {
      var i :| OccursAt(needle, hay, i);
      assert i != 0;
      assert hay[1..][i - 1..i - 1 + |needle|] == needle;
      assert OccursAt(needle, hay[1..], i - 1);
    }
    if Occurs(needle, hay[1..]) {
      var i :| OccursAt(needle, hay[1..], i);
      assert hay[i + 1..i + 1 + |needle|] == needle;
      assert OccursAt(needle, hay, i + 1);
    }
  }

  /** Django's `field__icontains=search`. */
  function IContains(field: string, search: string): bool {
    Contains(Lower(field), Lower(search))
  }

  /** The username of the track's poster, when it has one. */
  function PosterName(db: Db, track: Track): Option<string> {
    if track.postedBy.Some? && track.postedBy.value in db.users
    then Some(db.users[track.postedBy.value].username)
    else None
  }

  /** The four `Q` objects of the search, or-ed together. */
  predicate MatchesSearch(db: Db, track: Track, search: string) {
    || IContains(track.title, search)
    || IContains(track.description, search)
    || IContains(track.url, search)
    || (PosterName(db, track).Some? && IContains(PosterName(db, track).value, search))
  }

  /** What the search means: the folded search text occurs in one of the four folded fields. */
  ghost predicate Mentions(db: Db, track: Track, search: string) {
    || Occurs(Lower(search), Lower(track.title))
    || Occurs(Lower(search), Lower(track.description))
    || Occurs(Lower(search), Lower(track.url))
    || (PosterName(db, track).Some? && Occurs(Lower(search), Lower(PosterName(db, track).value)))
  }

  /**
   * `resolve_tracks`: every track when there is no search text (absent or
   * empty), otherwise exactly the tracks that mention it, rows unchanged.
   */
  function ResolveTracks(db: Db, search: Option<string>): (r: map<TrackId, Track>)
    ensures r.Keys <= db.tracks.Keys
    ensures forall t :: t in r ==> r[t] == db.tracks[t]
    ensures search.None? || search.value == "" ==> r == db.tracks
    ensures search.Some? && search.value != "" ==>
              forall t :: t in db.tracks ==> (t in r <==> Mentions(db, db.tracks[t], search.value))
  {
    if search.None? || search.value == "" then db.tracks
    else map t | t in db.tracks && MatchesSearch(db, db.tracks[t], search.value) :: db.tracks[t]
  }

  /** Folding twice is folding once: no capital is left after the first pass. */
  lemma LowerIdempotent(s: string)
    ensures Lower(Lower(s)) == Lower(s)
  {
  }

  /** The search ignores the case of its own text: folding it first yields the same tracks. */
  lemma {:induction false} SearchIgnoresCase(db: Db, search: string)
    ensures ResolveTracks(db, Some(search)) == ResolveTracks(db, Some(Lower(search)))
  {
    LowerIdempotent(search);
    assert search == "" <==> Lower(search) == "";
  }

  /** The caller is the track's poster; an anonymous caller never is, nor is anyone for a track without one. */
  predicate IsPoster(db: Db, trackId: TrackId, caller: Caller) {
    caller.Authenticated? && trackId in db.tracks && db.tracks[trackId].postedBy == Some(caller.id)
  }

  /** The tables behind the resolvers, with the next primary key of each auto-increment column. */
  class TrackStore {
    var users: map<UserId, User>
    var tracks: map<TrackId, Track>
    var likes: map<LikeId, Like>
    var nextTrackId: TrackId
    var nextLikeId: LikeId

    function Snapshot(): Db
      reads this
    {
      Db(users, tracks, likes)
    }

    /** Integrity holds and every key in use lies below the next one handed out. */
    ghost predicate Valid()
      reads this
    {
      && Consistent(Snapshot())
      && (forall t :: t in tracks ==> t < nextTrackId)
      && (forall l :: l in likes ==> l < nextLikeId)
    }

    /** Django hands a resolver only users that exist in the user table. */
    predicate Known(caller: Caller)
      reads this
    {
      caller.Authenticated? ==> caller.id in users
    }

    /** Empty track and like tables next to the given users. */
    constructor (users: map<UserId, User>)
      ensures Valid()
      ensures Snapshot() == Db(users, map[], map[])
    {
      this.users := users;
      tracks, likes := map[], map[];
      nextTrackId, nextLikeId := 1, 1;
    }

    /**
     * `CreateTrack.mutate`: a signed-in caller adds exactly one new track
     * posted by them, stamped with `now`; an anonymous one is refused.
     */
    method CreateTrack(caller: Caller, title: Option<string>, description: Option<string>,
                       url: Option<string>, now: int)
      returns (r: Result<TrackId, StoreError>)
      requires Valid() && Known(caller)
      modifies this
      ensures Valid()
      ensures title.None? || description.None? || url.None? ==> r == Failure(MissingArgument)
      ensures title.Some? && description.Some? && url.Some? && caller.Anonymous? ==>
                r == Failure(GraphQLError("Log in to add a track!"))
      ensures r.Success? <==> title.Some? && description.Some? && url.Some? && caller.Authenticated?
      ensures r.Failure? ==> Snapshot() == old(Snapshot())
      ensures r.Success? ==>
                && r.value !in old(tracks)
                && tracks == old(tracks)[r.value := Track(title.value, description.value, url.value,
                                                          now, Some(caller.id))]
      ensures users == old(users) && likes == old(likes)
    {
      if title.None? || description.None? || url.None? {
        return Failure(MissingArgument);
      }
      if caller.Anonymous? {
        return Failure(GraphQLError("Log in to add a track!"));
      }
      var id := nextTrackId;
      tracks := tracks[id := Track(title.value, description.value, url.value, now, Some(caller.id))];
      nextTrackId := nextTrackId + 1;
      r := Success(id);
    }

    /**
     * `UpdateTrack.mutate`: the poster of an existing track overwrites its
     * title, description and url; its poster, its creation time and every
     * other row stay as they were.
     */
    method UpdateTrack(caller: Caller, trackId: TrackId, title: Option<string>,
                       description: Option<string>, url: Option<string>)
      returns (r: Result<TrackId, StoreError>)
      requires Valid()
      modifies this
      ensures Valid()
      ensures title.None? || description.None? || url.None? ==> r == Failure(MissingArgument)
      ensures title.Some? && description.Some? && url.Some? ==>
                && (caller.Anonymous? ==> r == Failure(GraphQLError("Log in to edit a track!")))
                && (caller.Authenticated? && trackId !in old(tracks) ==> r == Failure(DoesNotExist))
                && (caller.Authenticated? && trackId in old(tracks) &&
                    !IsPoster(old(Snapshot()), trackId, caller) ==>
                      r == Failure(GraphQLError("Not permited to update this track")))
      ensures r.Success? <==>
                title.Some? && description.Some? && url.Some? && IsPoster(old(Snapshot()), trackId, caller)
      ensures r.Failure? ==> Snapshot() == old(Snapshot())
      ensures r.Success? ==>
                && r.value == trackId
                && tracks == old(tracks)[trackId := old(tracks)[trackId].(title := title.value,
                                                     description := description.value, url := url.value)]
                && tracks[trackId].postedBy == old(tracks)[trackId].postedBy
                && tracks[trackId].createdAt == old(tracks)[trackId].createdAt
      ensures users == old(users) && likes == old(likes)
    {
      if title.None? || description.None? || url.None? {
        return Failure(MissingArgument);
      }
      if caller.Anonymous? {
        return Failure(GraphQLError("Log in to edit a track!"));
      }
      if trackId !in tracks {
        return Failure(DoesNotExist);
      }
      var track := tracks[trackId];
      if track.postedBy != Some(caller.id) {
        return Failure(GraphQLError("Not permited to update this track"));
      }
      track := track.(title := title.value);
      track := track.(description := description.value);
      track := track.(url := url.value);
      tracks := tracks[trackId := track];
      r := Success(trackId);
    }

    /**
     * `DeleteTrack.mutate`: there is no login check, but only the poster of
     * an existing track passes the ownership check; the track and its likes
     * are deleted and its id returned.
     */
    method DeleteTrack(caller: Caller, trackId: TrackId) returns (r: Result<TrackId, StoreError>)
      requires Valid()
      modifies this
      ensures Valid()
      ensures trackId !in old(tracks) ==> r == Failure(DoesNotExist)
      ensures trackId in old(tracks) && !IsPoster(old(Snapshot()), trackId, caller) ==>
                r == Failure(GraphQLError("Not permited to update this track"))
      ensures r.Success? <==> IsPoster(old(Snapshot()), trackId, caller)
      ensures r.Failure? ==> Snapshot() == old(Snapshot())
      ensures r.Success? ==> r.value == trackId && Snapshot() == CascadeDeleteTrack(old(Snapshot()), trackId)
    {
      if trackId !in tracks {
        return Failure(DoesNotExist);
      }
      if !(caller.Authenticated? && tracks[trackId].postedBy == Some(caller.id)) {
        return Failure(GraphQLError("Not permited to update this track"));
      }
      var after := CascadeDeleteTrack(Snapshot(), trackId);
      tracks, likes := after.tracks, after.likes;
      r := Success(trackId);
    }

    /**
     * `CreateLike.mutate`: a signed-in caller always adds one new like of an
     * existing track, even one they already like, so the track's like count
     * grows by exactly one.
     */
    method CreateLike(caller: Caller, trackId: TrackId) returns (r: Result<(UserId, TrackId), StoreError>)
      requires Valid() && Known(caller)
      modifies this
      ensures Valid()
      ensures caller.Anonymous? ==> r == Failure(GraphQLError("Login to like"))
      ensures caller.Authenticated? && trackId !in old(tracks) ==> r == Failure(DoesNotExist)
      ensures r.Success? <==> caller.Authenticated? && trackId in old(tracks)
      ensures r.Failure? ==> Snapshot() == old(Snapshot())
      ensures r.Success? ==>
                && r.value == (caller.id, trackId)
                && old(nextLikeId) !in old(likes)
                && likes == old(likes)[old(nextLikeId) := Like(Some(caller.id), Some(trackId))]
                && LikesOf(Snapshot(), trackId) == LikesOf(old(Snapshot()), trackId) + {old(nextLikeId)}
                && |LikesOf(Snapshot(), trackId)| == |LikesOf(old(Snapshot()), trackId)| + 1
      ensures users == old(users) && tracks == old(tracks)
    {
      if caller.Anonymous? {
        return Failure(GraphQLError("Login to like"));
      }
      if trackId !in tracks {
        return Failure(DoesNotExist);
      }
      ghost var before := Snapshot();
      var id := nextLikeId;
      likes := likes[id := Like(Some(caller.id), Some(trackId))];
      nextLikeId := nextLikeId + 1;
      assert id !in LikesOf(before, trackId);
      assert LikesOf(Snapshot(), trackId) == LikesOf(before, trackId) + {id};
      r := Success((caller.id, trackId));
    }
  }
}
