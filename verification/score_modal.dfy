/**
 * The save guard of the Tetris score dialog: a name is handed to `onSave`
 * only when it is not blank and no save is in progress, and it is handed over
 * trimmed.
 */
module ScoreModal {
  import opened Js
  import opened JsText

  /**
   * `handleSubmit`: the argument `onSave` is called with, or `None` when the
   * guard returns early.
   */
  function HandleSubmit(name: string, loading: bool): (saved: Option<string>)
    ensures saved.Some? <==> !loading && !AllWhitespace(name)
    ensures saved.Some? ==> saved.value == Trim(name)
    ensures saved.Some? ==> saved.value != "" && NoEdgeWhitespace(saved.value)
  {
    TrimEmptyIff(name);
    if Trim(name) == "" || loading then None else Some(Trim(name))
  }

  /** A name made only of spaces, tabs or line breaks, or an empty one, never reaches `onSave`. */
  lemma BlankNameNeverSaved(name: string, loading: bool)
    requires AllWhitespace(name)
    ensures HandleSubmit(name, loading).None?
  {
  }

  /** While a save is in progress nothing reaches `onSave`. */
  lemma LoadingNeverSaves(name: string)
    ensures HandleSubmit(name, true).None?
  {
  }

  /** Surrounding a name with any whitespace, on either side, does not change what is saved. */
  lemma PaddingIsIgnored(before: string, name: string, after: string, loading: bool)
    requires AllWhitespace(before) && AllWhitespace(after)
    ensures HandleSubmit(before + name + after, loading) == HandleSubmit(name, loading)
  {
    var padded := before + name + after;
    assert padded == before + (name + after);
    TrimAppendAll(name, after);
    TrimPrependAll(before, name + after);
    assert Trim(padded) == Trim(name);
    TrimEmptyIff(padded);
    TrimEmptyIff(name);
  }
}
