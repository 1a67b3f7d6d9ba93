/** The add/edit dialog (components/JobApplicationForm.tsx): the form data it
    starts from, how a field edit changes it, what a submit hands back to the
    page, and the texts each mode shows. */
module ApplicationForm {
  import opened Collections
  import opened Types

  /** JavaScript's `value || fallback` on an optional string: an absent value
      and the empty string are both falsy and give `fallback`. */
  function OrElse(value: Option<string>, fallback: string): string {
    if value.Some? && value.value != "" then value.value else fallback
  }

  /** The `useState` initializer of `formData`: each field is taken from
      `initialData` when that is present and non-empty, else from its fallback; `today` stands for the date part of the clock's ISO
      timestamp. A status is never the empty string, so it is copied whenever
      there is initial data. */
  function InitialFormData(initialData: Option<JobApplication>, today: string): (d: ApplicationData)
    ensures d.location.Some? && d.salary.Some? && d.notes.Some?
    ensures initialData.None? ==> d == ApplicationData("", "", today, Applied, Some(""), Some(""), Some(""))
    ensures initialData.Some? ==>
      var a := initialData.value;
      && d.company == a.company && d.title == a.title && d.status == a.status
      && d.dateApplied == (if a.dateApplied == "" then today else a.dateApplied)
      && d.location == Some(a.location.GetOr(""))
      && d.salary == Some(a.salary.GetOr(""))
      && d.notes == Some(a.notes.GetOr(""))
  {
    var a := initialData;
    ApplicationData(
      OrElse(if a.Some? then Some(a.value.company) else None, ""),
      OrElse(if a.Some? then Some(a.value.title) else None, ""),
      OrElse(if a.Some? then Some(a.value.dateApplied) else None, today),
      if a.Some? then a.value.status else Applied,
      Some(OrElse(if a.Some? then a.value.location else None, "")),
      Some(OrElse(if a.Some? then a.value.salary else None, "")),
      Some(OrElse(if a.Some? then a.value.notes else None, "")))
  }

  /** A record the form can show without loss: its optional fields are
      present and it has a date. */
  predicate FormShaped(a: JobApplication) {
    a.location.Some? && a.salary.Some? && a.notes.Some? && a.dateApplied != ""
  }

  /** Opening the form on a form-shaped record starts it from exactly that
      record's fields; on any other record it does not. */
  lemma InitialFormDataRoundTrip(a: JobApplication, today: string)
    requires today != ""
    ensures InitialFormData(Some(a), today) == Fields(a) <==> FormShaped(a)
  {
  }

  datatype FormField =
    CompanyField | TitleField | DateAppliedField | StatusField | LocationField | SalaryField | NotesField

  /** What field `f` of `d` holds, the status by its name. */
  function Slot(d: ApplicationData, f: FormField): Option<string> {
    match f
    case CompanyField => Some(d.company)
    case TitleField => Some(d.title)
    case DateAppliedField => Some(d.dateApplied)
    case StatusField => Some(StatusName(d.status))
    case LocationField => d.location
    case SalaryField => d.salary
    case NotesField => d.notes
  }

  /** The form data is nothing but its seven fields. */
  lemma SlotsDetermineData(d: ApplicationData, e: ApplicationData)
    requires forall f :: Slot(d, f) == Slot(e, f)
    ensures d == e
  {
    assert Slot(d, StatusField) == Slot(e, StatusField);
    StatusNameRoundTrip(d.status);
    StatusNameRoundTrip(e.status);
    assert Slot(d, CompanyField) == Slot(e, CompanyField);
    assert Slot(d, TitleField) == Slot(e, TitleField);
    assert Slot(d, DateAppliedField) == Slot(e, DateAppliedField);
    assert Slot(d, LocationField) == Slot(e, LocationField);
    assert Slot(d, SalaryField) == Slot(e, SalaryField);
    assert Slot(d, NotesField) == Slot(e, NotesField);
  }

  /** The status select only offers status names; every text field takes any string. */
  predicate AcceptsValue(f: FormField, value: string) {
    f == StatusField ==> ParseStatus(value).Some?
  }

  /** The update `handleChange` makes: `field` now holds `value`, every
      other field is as it was. */
  function WithField(d: ApplicationData, f: FormField, value: string): (r: ApplicationData)
    requires AcceptsValue(f, value)
    ensures Slot(r, f) == Some(value)
    ensures forall g :: g != f ==> Slot(r, g) == Slot(d, g)
  {
    match f
    case CompanyField => d.(company := value)
    case TitleField => d.(title := value)
    case DateAppliedField => d.(dateApplied := value)
    case StatusField => d.(status := ParseStatus(value).value)
    case LocationField => d.(location := Some(value))
    case SalaryField => d.(salary := Some(value))
    case NotesField => d.(notes := Some(value))
  }

  /** A field edit is the one change that sets `f` to `value` and leaves the
      rest alone: any form data that does so is `WithField`'s. */
  lemma WithFieldIsTheOnlyChange(d: ApplicationData, f: FormField, value: string, e: ApplicationData)
    requires AcceptsValue(f, value)
    requires Slot(e, f) == Some(value)
    requires forall g :: g != f ==> Slot(e, g) == Slot(d, g)
    ensures e == WithField(d, f, value)
  {
    var r := WithField(d, f, value);
    forall g ensures Slot(e, g) == Slot(r, g) {
    }
    SlotsDetermineData(e, r);
  }

  /** The `mode` prop. */
  datatype Mode = Add | Edit

  /** The dialog's title. */
  function DialogTitle(m: Mode): (r: string)
    ensures m == Add ==> r == "Add New Job Application"
    ensures m == Edit ==> r == "Edit Job Application"
  {
    if m == Add then "Add New Job Application" else "Edit Job Application"
  }

  /** The line under the title. */
  function DialogDescription(m: Mode): (r: string)
    ensures m == Add ==> r == "Fill in the details of your new job application."
    ensures m == Edit ==> r == "Update the details of your job application."
  {
    if m == Add then "Fill in the details of your new job application."
    else "Update the details of your job application."
  }

  /** The submit button's label. */
  function SubmitLabel(m: Mode): (r: string)
    ensures m == Add ==> r == "Add Application"
    ensures m == Edit ==> r == "Update Application"
  {
    if m == Add then "Add Application" else "Update Application"
  }

  /** The dialog's title and its description each tell the two modes apart. */
  lemma TextsIdentifyMode(m: Mode, n: Mode)
    ensures DialogTitle(m) == DialogTitle(n) <==> m == n
    ensures DialogDescription(m) == DialogDescription(n) <==> m == n
  {
  }

  /** The submit button's label tells the two modes apart. */
  lemma SubmitLabelIdentifiesMode(m: Mode, n: Mode)
    ensures SubmitLabel(m) == SubmitLabel(n) <==> m == n
  {
  }

  /** A call the form makes on the page: `onSubmit(data)` or `onClose()`. */
  datatype Callback = OnSubmit(application: ApplicationData) | OnClose

  /** The form component's state. It is created once, when the component
      mounts, and nothing in the component resets it afterwards. */
  class JobApplicationForm {
    var formData: ApplicationData

    /** Mounting runs the `useState` initializer, once. */
    constructor (initialData: Option<JobApplication>, today: string)
      ensures formData == InitialFormData(initialData, today)
    {
      formData := InitialFormData(initialData, today);
    }

    /** `handleChange(field, value)`. */
    method HandleChange(field: FormField, value: string)
      requires AcceptsValue(field, value)
      modifies this
      ensures formData == WithField(old(formData), field, value)
      ensures Slot(formData, field) == Some(value)
      ensures forall g :: g != field ==> Slot(formData, g) == Slot(old(formData), g)
    {
      formData := WithField(formData, field, value);
    }

    /** `handleSubmit`: calls `onSubmit` with the current form data, then
      `onClose`. The form data itself is left as it is. */
    method HandleSubmit() returns (calls: seq<Callback>)
      ensures calls == [OnSubmit(formData), OnClose]
    {
      calls := [OnSubmit(formData), OnClose];
    }

    /** Not in the component: runs the initializer again, as remounting the
        component (a `key` that changes with the record) would. */
    method Reset(initialData: Option<JobApplication>, today: string)
      modifies this
      ensures formData == InitialFormData(initialData, today)
    {
      formData := InitialFormData(initialData, today);
    }
  }
}
