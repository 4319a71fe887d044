/** The customer profile screen as a state machine. The screen keeps a
    committed snapshot (`saved`, standing in for a backend record) and the
    form's draft; it switches between viewing and editing, validates the
    draft, saves it through a simulated request, and manages an optional
    avatar image. Each handler is a pure transition; controls that the
    screen disables or hides are modelled by `Enabled`. */
module ProfilePage {
  import opened Options
  import opened Text
  import opened ProfileSchema

  datatype PageState = PageState(
    saved: Profile,
    draft: Profile,
    isEditing: bool,
    isLoading: bool,
    saveSuccess: bool,
    imageFile: Option<ImageFile>,
    imagePreview: Option<string>,
    /** the draft a pending save request carries */
    inFlight: Option<Profile>)

  const InitialProfile := Profile(
    "John Doe", "john@example.com", Day(Date(1998, 1, 1)), "Delhi, India",
    "https://maps.google.com", "9876543210", "", "Home Cleaning",
    "Morning (9 AM - 12 PM)", "Please call before arriving.")

  /** The form starts out as a copy of the snapshot, in viewing mode. */
  const InitialState := PageState(InitialProfile, InitialProfile, false, false, false, None, None, None)

  datatype Event =
    | EditClicked
    | FieldsEdited(newDraft: Profile)
    | CancelClicked
    /** the file input changed; it may hold no file */
    | ImageChosen(file: Option<ImageFile>)
    /** the file reader finished and produced a data URL */
    | PreviewRead(dataUrl: string)
    | ImageRemoved
    | SubmitClicked
    | SaveSucceeded
    | SaveFailed
    /** the success banner's three-second timer fired */
    | BannerExpired

  /** Whether the screen lets the event happen in state `s`: inputs are
      disabled outside editing, the edit button is shown only while
      viewing, cancel is disabled while saving, the remove button is shown
      only when there is an image, and submission needs an error-free
      draft and no save in progress. */
  predicate Enabled(s: PageState, e: Event, today: Date, fmt: Formats) {
    match e
    case EditClicked => !s.isEditing
    case FieldsEdited(_) => s.isEditing
    case CancelClicked => s.isEditing && !s.isLoading
    case ImageChosen(_) => s.isEditing
    case PreviewRead(_) => true
    case ImageRemoved => s.isEditing && (s.imageFile.Some? || s.imagePreview.Some?)
    case SubmitClicked => s.isEditing && !s.isLoading && Errors(s.draft, today, fmt) == map[]
    case SaveSucceeded => s.inFlight.Some?
    case SaveFailed => s.inFlight.Some?
    case BannerExpired => s.saveSuccess
  }

  /** The handlers. */
  function Apply(s: PageState, e: Event): PageState {
    match e
    case EditClicked => s.(isEditing := true)
    case FieldsEdited(d) => s.(draft := d)
    case CancelClicked =>
      s.(draft := s.saved, imageFile := None, imagePreview := None, isEditing := false)
    case ImageChosen(file) =>
      if file.Some? && CheckImage(file.value) == Accepted then s.(imageFile := file) else s
    case PreviewRead(url) => s.(imagePreview := Some(url))
    case ImageRemoved => s.(imageFile := None, imagePreview := None)
    case SubmitClicked => s.(isLoading := true, inFlight := Some(s.draft))
    case SaveSucceeded =>
      if s.inFlight.None? then s
      else
        // the snapshot changes, so the form is reset to it
        var d := s.inFlight.value;
        s.(saved := d, draft := d, saveSuccess := true, isEditing := false,
           imageFile := None, imagePreview := None, isLoading := false, inFlight := None)
    case SaveFailed => s.(isLoading := false, inFlight := None)
    case BannerExpired => s.(saveSuccess := false)
  }

  function Step(s: PageState, e: Event, today: Date, fmt: Formats): PageState {
    if Enabled(s, e, today, fmt) then Apply(s, e) else s
  }

  function Run(s: PageState, es: seq<Event>, today: Date, fmt: Formats): PageState
    decreases |es|
  {
    if es == [] then s else Run(Step(s, es[0], today, fmt), es[1..], today, fmt)
  }

  /** Outside editing the form shows the snapshot; a save is in flight
      exactly while loading, and only while editing. */
  predicate Invariant(s: PageState) {
    && (!s.isEditing ==> s.draft == s.saved)
    && (s.isLoading <==> s.inFlight.Some?)
    && (s.isLoading ==> s.isEditing)
  }

  /** The avatar fallback: the name's first character in upper case, or
      "U" when the name is empty. */
  function Initials(name: string): (r: string)
    ensures |r| == 1
    ensures name == "" ==> r == "U"
    ensures name != "" ==> LowerChar(r[0]) == LowerChar(name[0]) && !IsLowerAscii(r[0])
  {
    if name == "" then "U" else [UpperChar(name[0])]
  }

  // ---------------------------------------------------------------------
  // Properties

  lemma InitialStateSatisfiesInvariant()
    ensures Invariant(InitialState)
  {
  }

  lemma StepPreservesInvariant(s: PageState, e: Event, today: Date, fmt: Formats)
    requires Invariant(s)
    ensures Invariant(Step(s, e, today, fmt))
  {
  }

  /** Every state the screen can reach from its start satisfies the invariant. */
  lemma {:induction false} RunPreservesInvariant(s: PageState, es: seq<Event>, today: Date, fmt: Formats)
    requires Invariant(s)
    ensures Invariant(Run(s, es, today, fmt))
    decreases |es|
  {
    if es != [] {
      StepPreservesInvariant(s, es[0], today, fmt);
      RunPreservesInvariant(Step(s, es[0], today, fmt), es[1..], today, fmt);
    }
  }

  /** The snapshot is replaced only whole, and only by the draft a
      successful save carried. */
  lemma SnapshotReplacedWhole(s: PageState, e: Event, today: Date, fmt: Formats)
    ensures var t := Step(s, e, today, fmt);
            t.saved == s.saved || (e == SaveSucceeded && s.inFlight == Some(t.saved))
  {
  }

  /** Cancel discards the draft in favour of the snapshot, drops the
      image, leaves editing, and keeps the snapshot. */
  lemma CancelRestoresSnapshot(s: PageState, today: Date, fmt: Formats)
    requires s.isEditing && !s.isLoading
    ensures var t := Step(s, CancelClicked, today, fmt);
            && t.draft == s.saved && t.saved == s.saved && !t.isEditing
            && t.imageFile == None && t.imagePreview == None
  {
  }

  /** Editing, changing the draft and cancelling gives back the state's
      draft and snapshot unchanged. */
  lemma CancelRoundTrip(s: PageState, d: Profile, today: Date, fmt: Formats)
    requires Invariant(s) && !s.isEditing
    ensures var t := Run(s, [EditClicked, FieldsEdited(d), CancelClicked], today, fmt);
            t.draft == s.draft && t.saved == s.saved && !t.isEditing
  {
    var s1 := Step(s, EditClicked, today, fmt);
    var s2 := Step(s1, FieldsEdited(d), today, fmt);
    var s3 := Step(s2, CancelClicked, today, fmt);
    assert s2.isEditing && !s2.isLoading;
    var es := [EditClicked, FieldsEdited(d), CancelClicked];
    assert Run(s2, es[2..], today, fmt) == Run(s3, [], today, fmt) == s3;
    assert Run(s1, es[1..], today, fmt) == Run(s2, es[2..], today, fmt);
    assert Run(s, es, today, fmt) == Run(s1, es[1..], today, fmt);
  }

  /** Removing the image clears both the file and its preview and touches
      nothing else. */
  lemma RemoveImageClears(s: PageState, today: Date, fmt: Formats)
    requires s.isEditing && (s.imageFile.Some? || s.imagePreview.Some?)
    ensures Step(s, ImageRemoved, today, fmt) == s.(imageFile := None, imagePreview := None)
  {
  }

  /** A chosen file is kept iff the image gate accepts it; a rejected file
      changes nothing, so the previous file and preview stay. */
  lemma ImageChoice(s: PageState, f: ImageFile, today: Date, fmt: Formats)
    requires s.isEditing
    ensures CheckImage(f) == Accepted ==> Step(s, ImageChosen(Some(f)), today, fmt) == s.(imageFile := Some(f))
    ensures CheckImage(f) != Accepted ==> Step(s, ImageChosen(Some(f)), today, fmt) == s
  {
  }

  /** A save starts exactly when the screen is editing, not already saving,
      and the draft meets every field rule. */
  lemma SubmitGate(s: PageState, today: Date, fmt: Formats)
    requires !s.isLoading
    ensures Step(s, SubmitClicked, today, fmt).isLoading <==> s.isEditing && Conforms(s.draft, today, fmt)
    ensures Step(s, SubmitClicked, today, fmt).isLoading ==>
              Step(s, SubmitClicked, today, fmt).inFlight == Some(s.draft)
  {
    NoErrorsIffConforms(s.draft, today, fmt);
  }

  /** A successful save replaces the snapshot with the whole submitted
      draft, resets the form to it, leaves editing, shows the banner,
      clears the image and ends loading. */
  lemma SuccessfulSave(s: PageState, today: Date, fmt: Formats)
    requires Enabled(s, SubmitClicked, today, fmt)
    ensures var t := Step(Step(s, SubmitClicked, today, fmt), SaveSucceeded, today, fmt);
            && t.saved == s.draft && t.draft == s.draft
            && !t.isEditing && t.saveSuccess && !t.isLoading
            && t.imageFile == None && t.imagePreview == None
  {
  }

  /** A failed save only ends loading. */
  lemma SaveFailureOnlyStopsLoading(s: PageState, today: Date, fmt: Formats)
    requires s.inFlight.Some?
    ensures Step(s, SaveFailed, today, fmt) == s.(isLoading := false, inFlight := None)
  {
  }

  /** Submitting and then failing leaves the screen exactly as it was:
      same snapshot, same draft, still editing, not loading. */
  lemma FailedSaveIsNoOp(s: PageState, today: Date, fmt: Formats)
    requires Invariant(s) && Enabled(s, SubmitClicked, today, fmt)
    ensures Step(Step(s, SubmitClicked, today, fmt), SaveFailed, today, fmt) == s
  {
  }

  /** An empty name falls back to "U"; a lower-case initial is capitalised. */
  lemma InitialsExamples()
    ensures Initials("") == "U"
    ensures Initials("john") == "J"
    ensures Initials("John Doe") == "J"
  {
  }
}
