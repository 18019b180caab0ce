/**
 * The create-track dialog: its draft fields, the file handler, the
 * upload-then-mutate submit sequence and the reset on completion. The
 * upload to the media host is a foreign call; each method that performs it
 * takes the service's answer as a parameter (Some(url) or None for a
 * failure). Dispatching the mutation is recorded as an event in
 * `dispatched`.
 */
module CreateTrack {
  import opened Wrappers
  import opened TrackForm

  /** The variables `createTrack` is dispatched with; `url` is None where the source passes `undefined`. */
  datatype CreateVariables = CreateVariables(title: string, description: string, url: Option<string>)

  /**
   * The dialog's controls exist only while `<Dialog open={open}>` is shown,
   * so every handler of a control inside it requires `open`, and `Valid`
   * records that a closed dialog has no file input holding a selection.
   */
  class CreateTrackForm {
    var open: bool
    var title: string
    var description: string
    var file: Option<AudioFile>
    var submitting: bool
    var fileError: string
    /** Every `createTrack` mutation dispatched so far, oldest first. */
    var dispatched: seq<CreateVariables>
    /**
     * Whether the `required` file input currently holds a selection. The
     * closed dialog unmounts its contents, so a reopened dialog starts with
     * an empty input while the `file` state keeps the earlier choice.
     */
    var inputHasFile: bool

    function State(): FormState
      reads this
    {
      FormState(open, title, description, file, submitting, fileError)
    }

    /** A closed dialog has no mounted file input, so none holds a selection. */
    predicate Valid()
      reads this
    {
      !open ==> !inputHasFile
    }

    /** The initial `useState` values: closed, empty drafts, no file, not submitting, no error. */
    constructor ()
      ensures Valid()
      ensures State() == FormState(false, "", "", None, false, "")
      ensures dispatched == [] && !inputHasFile
    {
      inputHasFile := false;
      open, title, description, file := false, "", "", None;
      submitting, fileError := false, "";
      dispatched := [];
    }

    /** The floating button: opens the dialog. */
    method OpenDialog()
      requires Valid()
      modifies this
      ensures Valid()
      ensures State() == old(State()).(open := true)
      ensures dispatched == old(dispatched) && inputHasFile == old(inputHasFile)
    {
      open := true;
    }

    /** The title field's `onChange`. */
    method SetTitle(value: string)
      requires Valid() && open
      modifies this
      ensures Valid()
      ensures State() == old(State()).(title := value)
      ensures dispatched == old(dispatched) && inputHasFile == old(inputHasFile)
    {
      title := value;
    }

    /** The description field's `onChange`. */
    method SetDescription(value: string)
      requires Valid() && open
      modifies this
      ensures Valid()
      ensures State() == old(State()).(description := value)
      ensures dispatched == old(dispatched) && inputHasFile == old(inputHasFile)
    {
      description := value;
    }

    /** `handleFile`: rejects a file over the limit with an error, otherwise stores the selection. */
    method HandleFile(selected: Option<AudioFile>)
      requires Valid() && open
      modifies this
      ensures Valid()
      ensures State() == SelectFile(old(State()), selected)
      ensures dispatched == old(dispatched)
      ensures inputHasFile == selected.Some?
    {
      inputHasFile := selected.Some?;
      if selected.Some? && selected.value.size > FileSizeLimit {
        fileError := TooLargeMessage(selected.value.name);
      } else {
        file := selected;
        fileError := "";
      }
    }

    /** The Cancel button; it does nothing while a submission is in flight. */
    method ClickCancel()
      requires Valid() && open
      modifies this
      ensures Valid()
      ensures State() == Cancel(old(State()))
      ensures dispatched == old(dispatched)
      ensures inputHasFile == (old(inputHasFile) && open)
    {
      if !submitting {
        open := false;
        inputHasFile := false;
      }
    }

    /**
     * `handleAudioUpload`: `upload` is the media host's answer. The URL is
     * passed through; on a failure the flag is cleared and nothing is returned.
     */
    method HandleAudioUpload(upload: Option<string>) returns (url: Option<string>)
      requires Valid() && open
      modifies this
      ensures Valid()
      ensures url == upload
      ensures State() == AfterUpload(old(State()), upload)
      ensures dispatched == old(dispatched) && inputHasFile == old(inputHasFile)
    {
      if upload.None? {
        submitting := false;
      }
      url := upload;
    }

    /**
     * `handleSubmit`: sets the flag, awaits the upload, then dispatches
     * `createTrack` with the drafts and whatever the upload produced, even
     * when the upload failed.
     */
    method HandleSubmit(upload: Option<string>)
      requires Valid() && open
      modifies this
      ensures Valid()
      ensures State() == AfterUpload(old(State()).(submitting := true), upload)
      ensures submitting == upload.Some? && inputHasFile == old(inputHasFile)
      ensures dispatched == old(dispatched) + [CreateVariables(old(title), old(description), upload)]
    {
      submitting := true;
      var url := HandleAudioUpload(upload);
      dispatched := dispatched + [CreateVariables(title, description, url)];
    }

    /** The Save button: a click reaches `handleSubmit` only while it is enabled. */
    method ClickSave(upload: Option<string>) returns (submitted: bool)
      requires Valid() && open
      modifies this
      ensures Valid()
      ensures submitted == (!SaveDisabled(old(State())) && old(inputHasFile))
      ensures !submitted ==> State() == old(State()) && dispatched == old(dispatched)
      ensures inputHasFile == old(inputHasFile)
      ensures submitted ==> State() == AfterUpload(old(State()).(submitting := true), upload)
      ensures submitted ==>
                dispatched == old(dispatched) + [CreateVariables(old(title), old(description), upload)]
    {
      submitted := !SaveDisabled(State()) && inputHasFile;
      if submitted {
        HandleSubmit(upload);
      }
    }

    /** The mutation's `onCompleted`: runs once the last dispatch, which carried a url, succeeded. */
    method OnCompleted()
      requires Valid() && |dispatched| > 0 && dispatched[|dispatched| - 1].url.Some?
      modifies this
      ensures Valid()
      ensures State() == Completed(old(State()))
      ensures dispatched == old(dispatched) && !inputHasFile
    {
      inputHasFile := false;
      submitting := false;
      open := false;
      title := "";
      description := "";
      file := None;
    }
  }

  /** A complete submission: fill in, choose a 4 MB file, upload, complete. */
  method SuccessfulCreation()
  {
    var form := new CreateTrackForm();
    form.OpenDialog();
    form.SetTitle("Song A");
    form.SetDescription("Desc");
    form.HandleFile(Some(AudioFile("a.mp3", 4000000)));
    assert form.file == Some(AudioFile("a.mp3", 4000000));
    assert !IsJsWhitespace('S') && !IsJsWhitespace('D');
    var submitted := form.ClickSave(Some("https://host/a.mp3"));
    assert submitted && form.submitting;
    assert form.dispatched == [CreateVariables("Song A", "Desc", Some("https://host/a.mp3"))];
    form.OnCompleted();
    assert form.State() == FormState(false, "", "", None, false, "");
  }

  /**
   * Cancel keeps the chosen file in state, so Save is enabled again on
   * reopening; but the remounted `required` input is empty and the browser
   * blocks the submit until a file is chosen again.
   */
  method CancelReopenNeedsFileAgain() returns (enabled: bool, submitted: bool)
    ensures enabled && !submitted
  {
    var form := new CreateTrackForm();
    form.OpenDialog();
    form.SetTitle("Song A");
    form.SetDescription("Desc");
    form.HandleFile(Some(AudioFile("a.mp3", 4000000)));
    form.ClickCancel();
    form.OpenDialog();
    assert !IsJsWhitespace('S') && !IsJsWhitespace('D');
    enabled := !SaveDisabled(form.State());
    submitted := form.ClickSave(Some("https://host/a.mp3"));
    assert form.dispatched == [];
  }

  /** A 12 MB file is refused with its name in the message, and Save stays disabled. */
  method OversizedSelection()
  {
    var form := new CreateTrackForm();
    form.OpenDialog();
    form.SetTitle("Song A");
    form.SetDescription("Desc");
    form.HandleFile(Some(AudioFile("big.wav", 12000000)));
    assert form.fileError == "big.wav: is to large";
    assert form.file == None && SaveDisabled(form.State());
  }
}
