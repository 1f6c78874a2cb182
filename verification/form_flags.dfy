/**
 * The four booleans an `ActivityListItem` keeps in its React state for the
 * Trakt URL correction form, and the state updates its handlers make.
 * Each update is a partial `setState`: the fields it does not name keep
 * their values.
 */
module FormFlags {
  import opened Wrappers

  datatype Flags = Flags(isUpdating: bool, showTraktURLForm: bool, traktClick: bool, traktError: bool)

  /** The object passed to `setState`: a new value for each field it names. */
  datatype Patch = Patch(
    isUpdating: Option<bool>,
    showTraktURLForm: Option<bool>,
    traktClick: Option<bool>,
    traktError: Option<bool>)

  /** The empty object: `setState({})`. */
  const NoChange := Patch(None, None, None, None)

  /** Merges a patch into the state, as `setState` does. */
  function SetState(f: Flags, p: Patch): (r: Flags)
    ensures p.isUpdating.Some? ==> r.isUpdating == p.isUpdating.value
    ensures p.isUpdating.None? ==> r.isUpdating == f.isUpdating
    ensures p.showTraktURLForm.Some? ==> r.showTraktURLForm == p.showTraktURLForm.value
    ensures p.showTraktURLForm.None? ==> r.showTraktURLForm == f.showTraktURLForm
    ensures p.traktClick.Some? ==> r.traktClick == p.traktClick.value
    ensures p.traktClick.None? ==> r.traktClick == f.traktClick
    ensures p.traktError.Some? ==> r.traktError == p.traktError.value
    ensures p.traktError.None? ==> r.traktError == f.traktError
  {
    Flags(
      if p.isUpdating.Some? then p.isUpdating.value else f.isUpdating,
      if p.showTraktURLForm.Some? then p.showTraktURLForm.value else f.showTraktURLForm,
      if p.traktClick.Some? then p.traktClick.value else f.traktClick,
      if p.traktError.Some? then p.traktError.value else f.traktError)
  }

  /** The state the constructor sets. */
  const Initial := Flags(false, false, false, false)

  /** `_onShowTraktURLForm`: open the form with every other flag cleared. */
  function OpenForm(f: Flags): (r: Flags)
    ensures r.showTraktURLForm
    ensures r.(showTraktURLForm := false) == Initial
  {
    SetState(f, Patch(Some(false), Some(true), Some(false), Some(false)))
  }

  /** The first `setState` of `_onUseSuggestion`: show the form, marked as opened by a click. */
  function MarkSuggestionClick(f: Flags): (r: Flags)
    ensures r.showTraktURLForm && r.traktClick
    ensures r.isUpdating == f.isUpdating && r.traktError == f.traktError
  {
    SetState(f, NoChange.(showTraktURLForm := Some(true), traktClick := Some(true)))
  }

  /** The first `setState` of `_onSubmitTraktURL`: a submission is under way. */
  function BeginUpdate(f: Flags): (r: Flags)
    ensures r.isUpdating
    ensures r.(isUpdating := f.isUpdating) == f
  {
    SetState(f, NoChange.(isUpdating := Some(true)))
  }

  /** The `setState` after the URL resolved: only the form is hidden. */
  function HideForm(f: Flags): (r: Flags)
    ensures !r.showTraktURLForm
    ensures r.(showTraktURLForm := f.showTraktURLForm) == f
  {
    SetState(f, NoChange.(showTraktURLForm := Some(false)))
  }

  /** The `setState` in the `catch` block: the update stopped, with an error. */
  function CatchError(f: Flags): (r: Flags)
    ensures !r.isUpdating && r.traktError
    ensures r.showTraktURLForm == f.showTraktURLForm && r.traktClick == f.traktClick
  {
    SetState(f, NoChange.(isUpdating := Some(false), traktError := Some(true)))
  }

  /**
   * The state every handler leaves behind once it has finished: the
   * updating flag is not left set while the form is displayed. (While a
   * resolution is awaited, both are set.)
   */
  predicate AtRest(f: Flags) {
    f.isUpdating ==> !f.showTraktURLForm
  }

  /** Opening the form forgets everything the flags held before, and is idempotent. */
  lemma OpenFormForgetsHistory(f: Flags, g: Flags)
    ensures OpenForm(f) == OpenForm(g)
    ensures OpenForm(OpenForm(f)) == OpenForm(f)
    ensures AtRest(OpenForm(f))
  {
  }
}
