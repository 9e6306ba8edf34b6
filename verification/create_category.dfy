/**
 * `CreateCategoryViewController`: the name form used both to create a
 * category and to rename one.
 */
module CategoryForm {
  import opened Common
  import opened Trackers

  /** `TrackerCategory`: a category name and its trackers. */
  datatype TrackerCategory = TrackerCategory(category: string, trackers: seq<Tracker>)

  /**
   * The form: the category being edited (`None` when creating), the text
   * field's content, the Done button's `isEnabled` and the clear button's
   * `isHidden`.
   */
  datatype Form = Form(category: Option<TrackerCategory>, text: Option<string>, buttonEnabled: bool, clearHidden: bool)

  /** The delegate call a Done tap makes. */
  datatype Action = NoAction | Update(original: TrackerCategory, newName: string) | Create(created: TrackerCategory)

  predicate HasText(f: Form) {
    f.text.Some? && |f.text.value| > 0
  }

  /**
   * The form as shown: the title and the prefilled text follow from whether
   * a category is being edited; Done starts disabled either way.
   */
  function Open(category: Option<TrackerCategory>): (r: Form)
    ensures r.category == category
    ensures r.text == (if category.Some? then Some(category.value.category) else None)
    ensures !r.buttonEnabled && r.clearHidden
  {
    Form(category, if category.Some? then Some(category.value.category) else None, false, true)
  }

  function Title(f: Form): string {
    if f.category.Some? then "Редактировать категорию" else "Новая категория"
  }

  /** `didEditTextField`: Done and the clear button follow whether there is text. */
  function DidEditTextField(f: Form, text: Option<string>): (r: Form)
    ensures r.text == text && r.category == f.category
    ensures r.buttonEnabled <==> HasText(r)
    ensures r.clearHidden <==> !HasText(r)
  {
    var edited := f.(text := text);
    edited.(buttonEnabled := HasText(edited), clearHidden := !HasText(edited))
  }

  /** `clearTextField`: empty text, Done disabled. */
  function ClearTextField(f: Form): (r: Form)
    ensures r.text == Some("") && !r.buttonEnabled && r.clearHidden
    ensures r.category == f.category
  {
    f.(text := Some(""), clearHidden := true, buttonEnabled := false)
  }

  /**
   * `didTapCreateButton`: with no text nothing happens and the form stays;
   * otherwise an edited category is renamed, or a new empty category is
   * created, and the form is dismissed (`true`).
   */
  function DidTapDone(f: Form): (r: (Action, bool))
    ensures !HasText(f) ==> r == (NoAction, false)
    ensures HasText(f) && f.category.Some? ==> r == (Update(f.category.value, f.text.value), true)
    ensures HasText(f) && f.category.None? ==> r == (Create(TrackerCategory(f.text.value, [])), true)
  {
    if !HasText(f) then (NoAction, false)
    else if f.category.Some? then (Update(f.category.value, f.text.value), true)
    else (Create(TrackerCategory(f.text.value, [])), true)
  }

  /** Once the text has been edited, Done is enabled exactly when tapping it would act. */
  lemma {:induction false} EnabledIffDoneActs(f: Form, text: Option<string>)
    ensures var r := DidEditTextField(f, text);
            r.buttonEnabled <==> DidTapDone(r).0 != NoAction
  {
  }

  /** The title and the prefill depend only on whether a category is edited. */
  lemma {:induction false} OpenDependsOnlyOnMode(a: TrackerCategory, b: TrackerCategory)
    ensures Title(Open(Some(a))) == Title(Open(Some(b))) == "Редактировать категорию"
    ensures Title(Open(None)) == "Новая категория"
    ensures Open(Some(a)).text == Some(a.category) && Open(None).text.None?
  {
  }

  /** Editing a category and typing a new name renames that category; creating yields an empty category. */
  lemma {:induction false} EditFlow(c: Option<TrackerCategory>, name: string)
    requires |name| > 0
    ensures var f := DidEditTextField(Open(c), Some(name));
            && f.buttonEnabled
            && (c.Some? ==> DidTapDone(f) == (Update(c.value, name), true))
            && (c.None? ==> DidTapDone(f) == (Create(TrackerCategory(name, [])), true))
  {
  }

  /** After clearing, Done does nothing. */
  lemma {:induction false} ClearedDoneDoesNothing(f: Form)
    ensures DidTapDone(ClearTextField(f)) == (NoAction, false)
  {
  }
}
