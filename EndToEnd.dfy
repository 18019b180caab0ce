/**
 * The client dialogs and the server resolvers composed: what the store
 * does with the variables a dialog dispatches.
 */
module EndToEnd {
  import opened Wrappers
  import opened TrackForm
  import opened CreateTrack
  import opened TrackModels
  import opened TrackSchema

  /**
   * A filled-in create dialog whose upload fails: the flag drops, the `open`
   * flag stays true and the drafts and file are kept, yet the one dispatch it
   * makes goes out with no url.
   */
  method SubmitWithFailedUpload() returns (v: CreateVariables)
    ensures v == CreateVariables("Song A", "Desc", None)
  {
    var form := new CreateTrackForm();
    form.OpenDialog();
    form.SetTitle("Song A");
    form.SetDescription("Desc");
    form.HandleFile(Some(AudioFile("a.mp3", 4000000)));
    assert !IsJsWhitespace('S') && !IsJsWhitespace('D');
    var submitted := form.ClickSave(None);
    assert submitted && !form.submitting && form.open;
    assert form.title == "Song A" && form.description == "Desc";
    assert form.file == Some(AudioFile("a.mp3", 4000000));
    assert |form.dispatched| == 1;
    v := form.dispatched[0];
  }

  /**
   * A failed upload still dispatches `createTrack`; the variables carry no
   * url, the resolver is never entered and the tables stay as they were.
   */
  method FailedUploadReachesServer(store: TrackStore, caller: Caller, now: int)
    requires store.Valid() && store.Known(caller)
    modifies store
  {
    var v := SubmitWithFailedUpload();
    ghost var before := store.Snapshot();
    var r := store.CreateTrack(caller, Some(v.title), Some(v.description), v.url, now);
    assert r == Failure(MissingArgument) && store.Snapshot() == before;
  }

  /** Liking the same track twice stores two likes: the store does not deduplicate. */
  method LikeTwice(users: map<UserId, User>, u: UserId, now: int)
    requires u in users
  {
    var store := new TrackStore(users);
    var created := store.CreateTrack(Authenticated(u), Some("Song A"), Some("Desc"), Some("https://host/a.mp3"), now);
    var t := created.value;
    var first := store.CreateLike(Authenticated(u), t);
    var second := store.CreateLike(Authenticated(u), t);
    assert first.Success? && second.Success?;
    assert |LikesOf(store.Snapshot(), t)| == 2;
  }
}
