/**
 * The update-track dialog: the same draft state machine as the create
 * dialog, seeded from the track being edited, shown only to the track's
 * poster, and dispatching `updateTrack` with the track's id.
 */
module UpdateTrack {
  import opened Wrappers
  import opened TrackForm
  import opened GraphIds

  /**
   * The `track` prop: what the component reads of it. The component
   * dereferences `track.postedBy.id` unguarded, so the view always has a poster.
   */
  datatype TrackView = TrackView(id: GraphId, title: string, description: string, postedById: GraphId)

  /** The variables `updateTrack` is dispatched with; `url` is None where the source passes `undefined`. */
  datatype UpdateVariables = UpdateVariables(trackId: GraphId, title: string, description: string, url: Option<string>)

  /** `isCurrentUser`: the signed-in user is the track's poster. */
  predicate IsCurrentUser(currentUserId: GraphId, track: TrackView) {
    currentUserId == track.postedById
  }

  /**
   * The component renders nothing unless `isCurrentUser`, and the dialog's
   * controls exist only while `<Dialog open={open}>` is shown: every handler
   * of a control inside it requires `open`, and `Valid` records that a
   * viewer who is not the poster never opens the dialog or dispatches.
   */
  class UpdateTrackForm {
    const track: TrackView
    /** `currentUser.id`, read once from `UserContext`. */
    const currentUserId: GraphId
    var open: bool
    var title: string
    var description: string
    var file: Option<AudioFile>
    var submitting: bool
    var fileError: string
    /** Every `updateTrack` mutation dispatched so far, oldest first. */
    var dispatched: seq<UpdateVariables>
    /**
     * Whether the `required` file input currently holds a selection. The
     * closed dialog unmounts its contents, so a reopened dialog starts with
     * an empty input while the `file` state keeps the earlier choice.
     */
    var inputHasFile: bool

    function State(): FormState
      reads this
    {
      FormState(open, title, description, file, submitting, fileError)
    }

    /**
     * Only the track's poster ever sees the dialog or sends `updateTrack`,
     * and a closed dialog has no mounted file input holding a selection.
     */
    predicate Valid()
      reads this
    {
      && (open ==> IsCurrentUser(currentUserId, track))
      && (|dispatched| > 0 ==> IsCurrentUser(currentUserId, track))
      && (!open ==> !inputHasFile)
    }

    /** The initial `useState` values: closed, drafts copied from the track, no file, no error. */
    constructor (track: TrackView, currentUserId: GraphId)
      ensures Valid()
      ensures this.track == track && this.currentUserId == currentUserId
      ensures State() == FormState(false, track.title, track.description, None, false, "")
      ensures dispatched == [] && !inputHasFile
    {
      inputHasFile := false;
      this.track := track;
      this.currentUserId := currentUserId;
      open, title, description, file := false, track.title, track.description, None;
      submitting, fileError := false, "";
      dispatched := [];
    }

    /**
     * The edit button. The component renders nothing (no button, no dialog)
     * unless the signed-in user posted the track, so only then can it open.
     */
    method ClickEdit() returns (shown: bool)
      requires Valid()
      modifies this
      ensures Valid()
      ensures shown <==> currentUserId == track.postedById
      ensures State() == if shown then old(State()).(open := true) else old(State())
      ensures dispatched == old(dispatched) && inputHasFile == old(inputHasFile)
    {
      shown := IsCurrentUser(currentUserId, track);
      if shown {
        open := true;
      }
    }

    /** The title field's `onChange`. */
    method SetTitle(value: string)
      requires Valid() && open
      modifies this
      ensures Valid()
      ensures State() == old(State()).(title := value)
      ensures dispatched == old(dispatched) && inputHasFile == old(inputHasFile)
    {
      title := value;
    }

    /** The description field's `onChange`. */
    method SetDescription(value: string)
      requires Valid() && open
      modifies this
      ensures Valid()
      ensures State() == old(State()).(description := value)
      ensures dispatched == old(dispatched) && inputHasFile == old(inputHasFile)
    {
      description := value;
    }

    /** `handleFile`, with the same ceiling and message as the create dialog. */
    method HandleFile(selected: Option<AudioFile>)
      requires Valid() && open
      modifies this
      ensures Valid()
      ensures State() == SelectFile(old(State()), selected)
      ensures dispatched == old(dispatched)
      ensures inputHasFile == selected.Some?
    {
      inputHasFile := selected.Some?;
      if selected.Some? && selected.value.size > FileSizeLimit {
        fileError := TooLargeMessage(selected.value.name);
      } else {
        file := selected;
        fileError := "";
      }
    }

    /** The Cancel button; it does nothing while a submission is in flight. */
    method ClickCancel()
      requires Valid() && open
      modifies this
      ensures Valid()
      ensures State() == Cancel(old(State()))
      ensures dispatched == old(dispatched)
      ensures inputHasFile == (old(inputHasFile) && open)
    {
      if !submitting {
        open := false;
        inputHasFile := false;
      }
    }

    /** `handleAudioUpload`: passes the media host's URL through, or clears the flag on a failure. */
    method HandleAudioUpload(upload: Option<string>) returns (url: Option<string>)
      requires Valid() && open
      modifies this
      ensures Valid()
      ensures url == upload
      ensures State() == AfterUpload(old(State()), upload)
      ensures dispatched == old(dispatched) && inputHasFile == old(inputHasFile)
    {
      if upload.None? {
        submitting := false;
      }
      url := upload;
    }

    /**
     * `handleSubmit`: sets the flag, awaits the upload, then dispatches
     * `updateTrack` with the track's id, the drafts and the upload's result,
     * even when the upload failed.
     */
    method HandleSubmit(upload: Option<string>)
      requires Valid() && open
      modifies this
      ensures Valid()
      ensures State() == AfterUpload(old(State()).(submitting := true), upload)
      ensures submitting == upload.Some? && inputHasFile == old(inputHasFile)
      ensures dispatched ==
                old(dispatched) + [UpdateVariables(track.id, old(title), old(description), upload)]
    {
      submitting := true;
      var trackId := track.id;
      var url := HandleAudioUpload(upload);
      dispatched := dispatched + [UpdateVariables(trackId, title, description, url)];
    }

    /** The Update button: enabled under the create dialog's condition, so a new file is required. */
    method ClickSave(upload: Option<string>) returns (submitted: bool)
      requires Valid() && open
      modifies this
      ensures Valid()
      ensures submitted == (!SaveDisabled(old(State())) && old(inputHasFile))
      ensures !submitted ==> State() == old(State()) && dispatched == old(dispatched)
      ensures inputHasFile == old(inputHasFile)
      ensures submitted ==> State() == AfterUpload(old(State()).(submitting := true), upload)
      ensures submitted ==>
                dispatched == old(dispatched) + [UpdateVariables(track.id, old(title), old(description), upload)]
    {
      submitted := !SaveDisabled(State()) && inputHasFile;
      if submitted {
        HandleSubmit(upload);
      }
    }

    /**
     * The mutation's `onCompleted`, run once the last dispatch, which carried
     * a url, succeeded: the drafts become empty, not the track's values again.
     */
    method OnCompleted()
      requires Valid() && |dispatched| > 0 && dispatched[|dispatched| - 1].url.Some?
      modifies this
      ensures Valid()
      ensures State() == Completed(old(State()))
      ensures dispatched == old(dispatched) && !inputHasFile
    {
      inputHasFile := false;
      submitting := false;
      open := false;
      title := "";
      description := "";
      file := None;
    }
  }

  /** An edit without choosing a new file cannot be submitted, even with the seeded drafts intact. */
  method EditNeedsNewFile(track: TrackView)
  {
    var form := new UpdateTrackForm(track, track.postedById);
    var shown := form.ClickEdit();
    assert shown && form.open;
    var submitted := form.ClickSave(Some("https://host/b.mp3"));
    assert !submitted && form.dispatched == [];
  }

  /**
   * For someone other than the poster the edit control opens nothing, and
   * the form they hold can have sent nothing, whatever it went through.
   */
  method OtherUserSeesNothing(form: UpdateTrackForm) returns (shown: bool)
    requires form.Valid() && form.currentUserId != form.track.postedById
    modifies form
    ensures !shown && !form.open && form.dispatched == []
  {
    shown := form.ClickEdit();
  }
}
