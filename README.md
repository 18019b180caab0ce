# Track submission, ownership gates and the track store

This project models the logic of a small audio-track sharing application:
a React client whose dialogs create and edit tracks and whose like button
records likes, and a Django/graphene server that stores tracks and likes.

- **Client dialogs** (`CreateTrack.js`, `UpdateTrack.js`). Each dialog holds
  six pieces of `useState`: `open`, `title`, `description`, `file`,
  `submitting` and `fileError`. The file handler refuses files over
  10,000,000 bytes with the message `"<name>: is to large"`. The submit
  button is disabled while a submission is in flight, when the trimmed title
  or trimmed description is empty, or when no file is chosen. Submitting sets
  the flag, awaits the upload to the media host and then dispatches the
  mutation with `{title, description, url}` (plus `trackId` when updating).
  Completion closes the dialog and empties the drafts. Both classes
  (`CreateTrack.CreateTrackForm`, `UpdateTrack.UpdateTrackForm`) keep these
  fields and state each new value through shared functions of
  `TrackForm`, because the two components share this code line for line.
  Every dispatched mutation is appended to the `dispatched` field, which
  stands for the Apollo call.
- **Gates** (`UpdateTrack.js`, `LikeTrack.js`). The dialog's controls exist
  only while it is open, so every handler of a control inside it requires
  `open`. The edit component renders nothing unless the signed-in user posted
  the track: `UpdateTrack.UpdateTrackForm.Valid`, which every method keeps,
  says that a form held by anyone else is never open and has dispatched
  nothing. The like button is disabled when the user's
  `likeSet` already holds the track: `LikeTrack.FindIndex` models
  `findIndex`, and `LikeTrack.IsTrackLiked` is proved equal to "some entry is
  for this track".
- **Server** (`app/tracks/models.py`, `app/tracks/schema.py`). The tables are
  maps from primary key to row (`TrackModels.Db`). CASCADE deletion is a pure
  function proved to keep referential integrity. The `tracks` query's search
  is proved to select exactly the tracks in which the lower-cased search text
  occurs in the title, description, url or poster's username. The four
  mutations are methods of `TrackSchema.TrackStore`. Each one states its
  error cases, and each error leaves every table unchanged.

One behaviour follows the code rather than intuition. When the upload fails,
`handleAudioUpload` clears `submitting` and returns `undefined`, but
`handleSubmit` still dispatches the mutation, with no url (`HandleSubmit`,
`ClickSave` in both dialogs). `JSON.stringify` drops the `url: undefined`
entry (CreateTrack.js:66, UpdateTrack.js:67-74), so the request carries no
value for the variable `$url`. The two mutations then fail in different
places, with the same outcome:
- `createTrack` declares `$url: String!` (CreateTrack.js:182). The server's
  GraphQL executor rejects the operation while coercing its variables,
  before any resolver runs.
- `updateTrack` declares `$url: String`, which is nullable
  (UpdateTrack.js:188), and so is the graphene argument (schema.py:67).
  The executor accepts the operation and graphene leaves `url` out of the
  keyword arguments. The call `mutate(self, info, track_id, title,
  description, url)` (schema.py:69) then raises a `TypeError` before its
  body runs.

The model writes both as `MissingArgument` with the tables unchanged.
`EndToEnd.FailedUploadReachesServer` composes the two halves.

In these places the model follows the code:
- A failed upload still dispatches the mutation; it does not return to editing without one.
- Cancel keeps the drafts and the chosen file; it does not discard them. The closed dialog unmounts its form, though, so on reopening the `required` file input is empty. Save then looks enabled, but the browser blocks the submit until a file is chosen again (`CreateTrack.CancelReopenNeedsFileAgain`).
- `updateTrack` needs all of title, description and url; it is not a partial update.
- The server accepts empty titles and descriptions.
- Tracks can be deleted, by `deleteTrack`.

The upload is a foreign call. Every method that performs it takes the media
host's answer as a parameter `upload: Option<string>`: `Some(url)` for
success, `None` for a failure. The server's clock reading for `created_at`
is the parameter `now`. The session user is the parameter `caller` or
`currentUserId`.

## Model

| member | source | states |
|---|---|---|
| `TrackForm.TooLargeMessage` | client/src/components/Track/CreateTrack.js:34 | the rejection message begins with the file's display name |
| `TrackForm.SelectFile` | client/src/components/Track/CreateTrack.js:30-39 | a file strictly over 10,000,000 bytes sets the name-embedding error and keeps the stored file; any other selection, including none, is stored and clears the error; nothing else changes |
| `TrackForm.TrimStart` | client/src/components/Track/CreateTrack.js:160-161 | the result is a suffix of the input whose dropped prefix is all whitespace and that does not start with whitespace |
| `TrackForm.TrimEnd` | client/src/components/Track/CreateTrack.js:160-161 | the result is a prefix of the input whose dropped suffix is all whitespace and that does not end with whitespace |
| `TrackForm.Trim` | client/src/components/Track/CreateTrack.js:160-161 | `trim()` yields a slice `s[i..j]` of its input with a blank prefix and a blank suffix; it is empty exactly when every character is JavaScript whitespace, and otherwise neither starts nor ends with whitespace |
| `TrackForm.SaveDisabled` | client/src/components/Track/CreateTrack.js:158-163 | the submit button is disabled iff submitting, or the title is blank, or the description is blank, or there is no file |
| `TrackForm.Cancel` | client/src/components/Track/CreateTrack.js:148-151 | while submitting Cancel changes nothing; otherwise it closes the dialog and keeps every draft field |
| `TrackForm.Completed` | client/src/components/Track/CreateTrack.js:84-91 | completion closes the dialog, clears the flag, empties title, description and file, keeps `fileError`, and leaves submit disabled |
| `TrackForm.AfterUpload` | client/src/components/Track/CreateTrack.js:54-57 | only a failed upload changes the draft, and only by clearing `submitting` |
| `CreateTrack.CreateTrackForm.constructor` | client/src/components/Track/CreateTrack.js:23-28 | starts closed with empty title, description, file and error, not submitting, nothing dispatched |
| `CreateTrack.CreateTrackForm.OpenDialog` | client/src/components/Track/CreateTrack.js:73-77 | opens the dialog and changes nothing else |
| `CreateTrack.CreateTrackForm.SetTitle` | client/src/components/Track/CreateTrack.js:109 | sets the title draft only |
| `CreateTrack.CreateTrackForm.SetDescription` | client/src/components/Track/CreateTrack.js:120 | sets the description draft only |
| `CreateTrack.CreateTrackForm.HandleFile` | client/src/components/Track/CreateTrack.js:30-39 | the new state is `SelectFile` of the old one, and the file input holds a selection iff one was made, even an oversized one |
| `CreateTrack.CreateTrackForm.ClickCancel` | client/src/components/Track/CreateTrack.js:148-151 | the new state is `Cancel` of the old one; closing unmounts the file input, so its selection is gone while `file` is kept |
| `CreateTrack.CreateTrackForm.HandleAudioUpload` | client/src/components/Track/CreateTrack.js:41-58 | returns the service's url, or nothing and clears `submitting` on a failure |
| `CreateTrack.CreateTrackForm.HandleSubmit` | client/src/components/Track/CreateTrack.js:60-68 | sets the flag, then appends exactly one `createTrack` dispatch with the current title, description and the upload's result, also when the upload failed; afterwards `submitting` holds iff the upload succeeded |
| `CreateTrack.CreateTrackForm.ClickSave` | client/src/components/Track/CreateTrack.js:155-164 | only an open `<Dialog open={open}>` (CreateTrack.js:97) has the button; a click submits iff Save is enabled and the `required` file input (CreateTrack.js:125-132) holds a selection; a blocked click changes nothing and dispatches nothing |
| `CreateTrack.CreateTrackForm.OnCompleted` | client/src/components/Track/CreateTrack.js:84-91 | runs only after a dispatch that carried a url; the new state is `Completed` of the old one and the closed dialog's input is empty |
| `CreateTrack.CancelReopenNeedsFileAgain` | client/src/components/Track/CreateTrack.js:125-132 | after choosing a file, Cancel and reopening, Save is enabled yet the click submits nothing |
| `UpdateTrack.UpdateTrackForm.constructor` | client/src/components/Track/UpdateTrack.js:22-29 | the context user is fixed; drafts start as the track's title and description, no file, not submitting, no error, closed; the ownership invariant `Valid` holds |
| `UpdateTrack.UpdateTrackForm.ClickEdit` | client/src/components/Track/UpdateTrack.js:77-85 | the edit control exists, and opens the dialog, iff the context user's id equals the track poster's id; `Valid` is kept |
| `UpdateTrack.UpdateTrackForm.SetTitle` | client/src/components/Track/UpdateTrack.js:113 | sets the title draft only |
| `UpdateTrack.UpdateTrackForm.SetDescription` | client/src/components/Track/UpdateTrack.js:124 | sets the description draft only |
| `UpdateTrack.UpdateTrackForm.HandleFile` | client/src/components/Track/UpdateTrack.js:31-40 | the same size rule as the create dialog (`SelectFile`), and the file input holds a selection iff one was made |
| `UpdateTrack.UpdateTrackForm.ClickCancel` | client/src/components/Track/UpdateTrack.js:153-157 | the new state is `Cancel` of the old one; closing empties the file input while `file` is kept |
| `UpdateTrack.UpdateTrackForm.HandleAudioUpload` | client/src/components/Track/UpdateTrack.js:42-59 | returns the service's url, or nothing and clears `submitting` on a failure |
| `UpdateTrack.UpdateTrackForm.HandleSubmit` | client/src/components/Track/UpdateTrack.js:61-75 | appends exactly one dispatch `{trackId: track.id, title, description, url}` with the upload's result, also when the upload failed |
| `UpdateTrack.UpdateTrackForm.ClickSave` | client/src/components/Track/UpdateTrack.js:160-168 | only an open `<Dialog open={open}>` (UpdateTrack.js:101), hence only the poster, has the button; it submits iff the four-way condition does not hold and the `required` file input (UpdateTrack.js:129-136) holds a selection, so an edit without a new file cannot be submitted; `Valid` is kept |
| `UpdateTrack.OtherUserSeesNothing` | client/src/components/Track/UpdateTrack.js:77-80 | for a viewer who is not the poster the edit control opens nothing, and their form has dispatched nothing |
| `UpdateTrack.UpdateTrackForm.OnCompleted` | client/src/components/Track/UpdateTrack.js:89-95 | runs only after a dispatch that carried a url; resets title and description to the empty string, not to the track's values, clears the file, closes, stops submitting |
| `EndToEnd.SubmitWithFailedUpload` | client/src/components/Track/CreateTrack.js:54-67 | a filled-in create dialog whose upload fails dispatches `createTrack` with the drafts and no url |
| `LikeTrack.FindIndex` | client/src/components/Track/LikeTrack.js:16 | -1 iff no entry is for the track; otherwise the index of the first entry for it |
| `LikeTrack.IsTrackLiked` | client/src/components/Track/LikeTrack.js:13-18 | liked iff some entry of `likeSet` is for the track; an empty `likeSet` is never liked |
| `LikeTrack.LikedDependsOnlyOnIds` | client/src/components/Track/LikeTrack.js:16 | two like lists with the same set of track ids give the same answer, whatever their order or duplicates |
| `LikeTrack.ClickLike` | client/src/components/Track/LikeTrack.js:21-38 | the button is disabled iff the track is liked; an enabled click dispatches `createLike` with the component's own `trackId` |
| `TrackModels.CascadeDeleteTrack` | app/tracks/models.py:18-19 | deleting a track removes exactly it and the likes in `track.likes`, leaves other rows and other tracks' likes as they were, and keeps integrity |
| `TrackModels.CascadeDeleteUser` | app/tracks/models.py:10-19 | deleting a user removes them, their tracks, their likes and the likes on their tracks, keeps every other row, and keeps integrity |
| `TrackSchema.Lower` | app/tracks/schema.py:26-29 | case folding keeps the length, leaves no ASCII capital, turns each capital into its small letter and keeps every other character |
| `TrackSchema.Contains` | app/tracks/schema.py:26-29 | the substring search is true iff the needle occurs as a contiguous run of the haystack |
| `TrackSchema.ResolveTracks` | app/tracks/schema.py:23-32 | no search text or an empty one returns every track; otherwise exactly the tracks whose folded title, description, url or poster username contains the folded text, a subset with rows unchanged |
| `TrackSchema.SearchIgnoresCase` | app/tracks/schema.py:25-31 | folding the search text first gives the same result |
| `TrackSchema.TrackStore.CreateTrack` | app/tracks/schema.py:48-55 | an anonymous caller gets "Log in to add a track!" and nothing changes; otherwise exactly one new track with the given fields, posted by the caller, is added |
| `TrackSchema.TrackStore.UpdateTrack` | app/tracks/schema.py:69-80 | anonymous, a missing track and a non-poster each fail, in that order, leaving the store unchanged; the poster's update overwrites title, description and url and keeps the poster, the creation time and all other rows |
| `TrackSchema.TrackStore.DeleteTrack` | app/tracks/schema.py:90-96 | a missing track fails first; anyone but the poster, anonymous included, fails; the poster's delete is the cascade delete and returns the id |
| `TrackSchema.TrackStore.CreateLike` | app/tracks/schema.py:108-119 | anonymous fails with "Login to like", a missing track fails; otherwise one new like is always added, even a duplicate, and the track's like count grows by exactly one |

## Left out

- Rendering (JSX, Material-UI components, `styles`): presentational only.
- The HTTP POST to the media host and its fixed form fields (`CreateTrack.js:43-52`, `UpdateTrack.js:44-53`): a foreign network call. Its answer is the parameter `upload`.
- Apollo's `Mutation` wiring, `refetchQueries` and the error render path: a dispatch is recorded in `dispatched`. A mutation that fails makes the component render its `Error` element instead of the dialog. `OnCompleted` requires that the last dispatch carried a url, since one without a url always fails on the server; whether an answer with a url came back is not modelled.
- Async timing and React's batched state updates: the awaits are sequential steps, and each setter takes effect at once. The handler reads `title` and `description` before any setter it runs changes them, so the dispatched values are the same.
- The GraphQL executor's variable coercion and Python's argument binding are not modelled on their own. For `createTrack` a non-null variable with no value is rejected before any resolver runs. For `updateTrack` the nullable argument is left out and the `mutate` call raises a `TypeError`. The resolver methods return `MissingArgument` for a missing parameter to stand for either failure, and nothing is stored.
- `CascadeDeleteUser`: no operation in this core deletes a user. The function states what the CASCADE declarations on `posted_by` and `Like.user` would do.
- `TrackSchema.Lower`: folds ASCII letters only, as SQLite's `LIKE` does. Unicode case folding, as PostgreSQL's `UPPER` does it, is not modelled.
- The 50-character limit on `title` and the `URLField`/`blank` validators (`models.py:6-8`): `save()` runs no validators, and whether the column length is enforced depends on the database backend, which is not part of this model. The store accepts any title.
- The `if not Track` guard (`schema.py:113`) tests the model class, which is always truthy. The branch cannot be taken and is not modelled.
- Primary keys are counters that are never reused. The 32-bit range of graphene's `Int` is not modelled.
- `UpdateTrack.IsCurrentUser`: a track whose `postedBy` is null makes `track.postedBy.id` throw during rendering. The client's track view always has a poster.
- `client/src/Root.js` (routing, query loading) is not part of this model. Its `ME_QUERY` selects only `id` and `username`, while `LikeTrack.js` reads `currentUser.likeSet`. The model takes the user's `likeSet` as given.
- `app/users/schema.py` is not part of this model; it wraps Django's auth user and password hasher.
- The file picker's `accept` filter for audio types is enforced by the browser and is not modelled. The `required` attribute is modelled by `inputHasFile`.
