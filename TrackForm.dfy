/**
 * The draft state and the transitions that the create-track and the
 * update-track dialogs share word for word: the file-selection handler with
 * its 10,000,000-byte ceiling, the condition that disables the submit button,
 * the reset done when the mutation completes, and the Cancel button.
 */
module TrackForm {
  import opened Wrappers

  /** A file chosen in the browser's file input: its display name and its size in bytes. */
  datatype AudioFile = AudioFile(name: string, size: nat)

  /**
   * The six `useState` fields of a track dialog. `file` is None both for the
   * initial `""` and for the `undefined` an empty selection stores: the
   * components only ever test it for truthiness.
   */
  datatype FormState = FormState(
    open: bool,
    title: string,
    description: string,
    file: Option<AudioFile>,
    submitting: bool,
    fileError: string)

  /** The largest accepted file, in bytes (the comparison is strictly greater-than). */
  const FileSizeLimit: nat := 10000000

  /** The inline error shown for a file over the limit; the spelling is the component's. */
  function TooLargeMessage(name: string): (m: string)
    ensures |m| > |name| && m[..|name|] == name
  {
    name + ": is to large"
  }

  /** `handleFile`: the effect of choosing `selected` (None when the picker returned nothing). */
  function SelectFile(s: FormState, selected: Option<AudioFile>): (r: FormState)
    ensures r.open == s.open && r.title == s.title && r.description == s.description
    ensures r.submitting == s.submitting
    ensures selected.Some? && selected.value.size > FileSizeLimit ==>
              r.file == s.file && r.fileError == TooLargeMessage(selected.value.name)
    ensures selected.None? || selected.value.size <= FileSizeLimit ==>
              r.file == selected && r.fileError == ""
  {
    if selected.Some? && selected.value.size > FileSizeLimit then
      s.(fileError := TooLargeMessage(selected.value.name))
    else
      s.(file := selected, fileError := "")
  }

  /** The characters JavaScript's `String.prototype.trim` removes: WhiteSpace and LineTerminator. */
  predicate IsJsWhitespace(c: char) {
    || c == '\t' || c == '\n' || c == '\U{000B}' || c == '\U{000C}' || c == '\r'
    || c == ' ' || c == '\U{00A0}' || c == '\U{1680}'
    || ('\U{2000}' <= c <= '\U{200A}')
    || c == '\U{2028}' || c == '\U{2029}' || c == '\U{202F}' || c == '\U{205F}'
    || c == '\U{3000}' || c == '\U{FEFF}'
  }

  /** Every character of `s` is whitespace (vacuously so for the empty string). */
  predicate Blank(s: string) {
    forall i :: 0 <= i < |s| ==> IsJsWhitespace(s[i])
  }

  /** `s` without its leading whitespace: a suffix of `s` whose dropped prefix is blank. */
  function TrimStart(s: string): (r: string)
    ensures |r| <= |s| && r == s[|s| - |r|..]
    ensures Blank(s[..|s| - |r|])
    ensures r == "" || !IsJsWhitespace(r[0])
    decreases |s|
  {
    if |s| > 0 && IsJsWhitespace(s[0]) then
      var r := TrimStart(s[1..]);
      assert s[..|s| - |r|] == [s[0]] + s[1..][..|s| - 1 - |r|];
      r
    else
      s
  }

  /** `s` without its trailing whitespace: a prefix of `s` whose dropped suffix is blank. */
  function TrimEnd(s: string): (r: string)
    ensures |r| <= |s| && r == s[..|r|]
    ensures Blank(s[|r|..])
    ensures r == "" || !IsJsWhitespace(r[|r| - 1])
    decreases |s|
  {
    if |s| > 0 && IsJsWhitespace(s[|s| - 1]) then
      var r := TrimEnd(s[..|s| - 1]);
      assert s[|r|..] == s[..|s| - 1][|r|..] + [s[|s| - 1]];
      r
    else
      s
  }

  /** `r` is `s[i..j]`, and what lies before `i` and from `j` on is blank. */
  predicate TrimmedAt(s: string, r: string, i: int, j: int) {
    0 <= i <= j <= |s| && r == s[i..j] && Blank(s[..i]) && Blank(s[j..])
  }

  /**
   * `s.trim()`: the middle of `s` between a blank prefix and a blank suffix,
   * empty exactly for a blank string, and otherwise bounded by non-whitespace.
   */
  function Trim(s: string): (r: string)
    ensures exists i, j :: TrimmedAt(s, r, i, j)
    ensures r == "" <==> Blank(s)
    ensures r != "" ==> !IsJsWhitespace(r[0]) && !IsJsWhitespace(r[|r| - 1])
  {
    var t := TrimStart(s);
    var r := TrimEnd(t);
    TrimSlices(s, |s| - |t|, r);
    assert t == "" ==> s[..|s|] == s;
    assert r != "" ==> s[|s| - |t|] == r[0];
    r
  }

  /** Composing a blank-prefix cut with a blank-suffix cut places the middle at `i..i + |r|`. */
  lemma TrimSlices(s: string, i: nat, r: string)
    requires i <= |s| && Blank(s[..i])
    requires |r| <= |s| - i && r == s[i..][..|r|] && Blank(s[i..][|r|..])
    ensures TrimmedAt(s, r, i, i + |r|)
  {
  }

  /**
   * The submit button's `disabled` expression: a submission in flight, a
   * title or description that trims to nothing, or no file.
   */
  function SaveDisabled(s: FormState): (disabled: bool)
    ensures disabled <==> s.submitting || Blank(s.title) || Blank(s.description) || s.file.None?
  {
    s.submitting || Trim(s.title) == "" || Trim(s.description) == "" || s.file.None?
  }

  /** The Cancel button: disabled while submitting, otherwise it only closes the dialog. */
  function Cancel(s: FormState): (r: FormState)
    ensures s.submitting ==> r == s
    ensures !s.submitting ==> !r.open && r.(open := s.open) == s
  {
    if s.submitting then s else s.(open := false)
  }

  /**
   * `onCompleted` of the mutation: the dialog closes, the flag drops and the
   * drafts are emptied, which leaves the submit button disabled until a new
   * file is chosen; the file error is left as it was.
   */
  function Completed(s: FormState): (r: FormState)
    ensures !r.open && !r.submitting
    ensures r.title == "" && r.description == "" && r.file == None
    ensures r.fileError == s.fileError
    ensures SaveDisabled(r)
  {
    s.(submitting := false, open := false, title := "", description := "", file := None)
  }

  /** The effect of `handleAudioUpload` on the draft: only a failed upload (None) clears the flag. */
  function AfterUpload(s: FormState, upload: Option<string>): (r: FormState)
    ensures r.(submitting := s.submitting) == s
    ensures r.submitting == (s.submitting && upload.Some?)
  {
    if upload.None? then s.(submitting := false) else s
  }
}
