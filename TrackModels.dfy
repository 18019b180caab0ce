/**
 * The two Django models of the tracks app and the rule their foreign keys
 * declare: deleting a row deletes every row that refers to it (CASCADE).
 * The database is a value: one map from primary key to row per table.
 */
module TrackModels {
  import opened Wrappers

  type UserId = int
  type TrackId = int
  type LikeId = int

  /** The part of Django's auth user this app reads. */
  datatype User = User(username: string)

  /** A `Track` row; `createdAt` is the clock reading taken when the row was first saved. */
  datatype Track = Track(
    title: string,
    description: string,
    url: string,
    createdAt: int,
    postedBy: Option<UserId>)

  /** A `Like` row: both foreign keys are nullable. */
  datatype Like = Like(user: Option<UserId>, track: Option<TrackId>)

  /** The three tables the app touches, keyed by primary key. */
  datatype Db = Db(users: map<UserId, User>, tracks: map<TrackId, Track>, likes: map<LikeId, Like>)

  /** A nullable foreign key is null or names an existing row. */
  predicate RefersTo(fk: Option<int>, keys: set<int>) {
    fk.None? || fk.value in keys
  }

  /** Referential integrity: every non-null foreign key names an existing row. */
  predicate Consistent(db: Db) {
    && (forall t :: t in db.tracks ==> RefersTo(db.tracks[t].postedBy, db.users.Keys))
    && (forall l :: l in db.likes ==>
          RefersTo(db.likes[l].user, db.users.Keys) && RefersTo(db.likes[l].track, db.tracks.Keys))
  }

  /** The reverse relation `track.likes` (`related_name="likes"`): the likes whose track is `t`. */
  function LikesOf(db: Db, t: TrackId): set<LikeId> {
    set l | l in db.likes && db.likes[l].track == Some(t)
  }

  /** The tracks whose `posted_by` is `u`. */
  function TracksPostedBy(db: Db, u: UserId): set<TrackId> {
    set t | t in db.tracks && db.tracks[t].postedBy == Some(u)
  }

  /**
   * Deleting track `t`: the row goes, and with it exactly the likes in
   * `t.likes`; every other row, and every other track's likes, stay as they
   * were, and integrity is kept.
   */
  function CascadeDeleteTrack(db: Db, t: TrackId): (r: Db)
    ensures r.users == db.users
    ensures r.tracks == db.tracks - {t}
    ensures r.likes.Keys == db.likes.Keys - LikesOf(db, t)
    ensures forall l :: l in r.likes ==> r.likes[l] == db.likes[l]
    ensures LikesOf(r, t) == {}
    ensures forall t' :: t' != t ==> LikesOf(r, t') == LikesOf(db, t')
    ensures Consistent(db) ==> Consistent(r)
  {
    Db(db.users,
       db.tracks - {t},
       map l | l in db.likes && db.likes[l].track != Some(t) :: db.likes[l])
  }

  /** The like `lk` is on one of the tracks that user `u` posted. */
  predicate OnTrackPostedBy(db: Db, lk: Like, u: UserId) {
    lk.track.Some? && lk.track.value in TracksPostedBy(db, u)
  }

  /**
   * Deleting user `u`: the user, the tracks they posted, the likes they made
   * and every like on one of their tracks all go (the cascade runs through
   * both foreign keys of Like); nothing else changes, and integrity is kept.
   */
  function CascadeDeleteUser(db: Db, u: UserId): (r: Db)
    ensures r.users == db.users - {u}
    ensures r.tracks.Keys == db.tracks.Keys - TracksPostedBy(db, u)
    ensures forall t :: t in r.tracks ==> r.tracks[t] == db.tracks[t]
    ensures r.likes.Keys <= db.likes.Keys
    ensures forall l :: l in r.likes ==> r.likes[l] == db.likes[l]
    ensures forall l :: l in r.likes ==> r.likes[l].user != Some(u)
    ensures forall t :: t in TracksPostedBy(db, u) ==> LikesOf(r, t) == {}
    ensures forall l :: l in db.likes && db.likes[l].user != Some(u) && !OnTrackPostedBy(db, db.likes[l], u)
              ==> l in r.likes
    ensures Consistent(db) ==> Consistent(r)
  {
    var gone := TracksPostedBy(db, u);
    Db(db.users - {u},
       map t | t in db.tracks && t !in gone :: db.tracks[t],
       map l | l in db.likes && db.likes[l].user != Some(u) && !OnTrackPostedBy(db, db.likes[l], u)
             :: db.likes[l])
  }
}
