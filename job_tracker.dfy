/** The page component (app/page.tsx): the application list, the dialog's
    open/edit state and the search and status filters, the handlers that
    change them, and the way the dialog's submit is wired to those handlers. */
module JobTrackerPage {
  import opened Collections
  import opened Types
  import opened RecordStore
  import opened DerivedViews
  import opened ApplicationForm

  /** The state of `JobTrackerContent`, one field per `useState`
      (the grid/list view mode only picks a style and is not kept). */
  class JobTracker {
    var applications: seq<JobApplication>
    var isFormOpen: bool
    var editingApplication: Option<JobApplication>
    var searchQuery: string
    var statusFilter: string
    /** The dialog, rendered on every render of the page without a `key`,
        so the same component instance (and form state) lives as long as the page. */
    const form: JobApplicationForm

    /** Ids are unique, and a record is only ever edited while the dialog is
        open: the dialog is closed, adding, or editing a record. */
    ghost predicate Valid()
      reads this
    {
      UniqueIds(applications) && (editingApplication.Some? ==> isFormOpen)
    }

    /** The first render: every `useState` at its initial value, and the
        dialog mounted with `initialData` undefined, because nothing is
        being edited yet. */
    constructor (today: string)
      ensures Valid()
      ensures applications == [] && !isFormOpen && editingApplication.None?
      ensures searchQuery == "" && statusFilter == "all"
      ensures fresh(form) && form.formData == InitialFormData(None, today)
    {
      applications := [];
      isFormOpen := false;
      editingApplication := None;
      searchQuery := "";
      statusFilter := "all";
      form := new JobApplicationForm(None, today);
    }

    /** The `mode` prop: "edit" exactly while a record is being edited, and
        so, on a valid page, only while the dialog is open. */
    function FormMode(): (m: Mode)
      reads this
      ensures m == Edit <==> editingApplication.Some?
      ensures Valid() && m == Edit ==> isFormOpen
    {
      if editingApplication.Some? then Edit else Add
    }

    /** The cards shown under the current search and status filter: the
        matching records in list order, and the whole list when the search
        is empty and the status is "all". */
    function Visible(): (r: seq<JobApplication>)
      reads this
      ensures IsSubsequence(r, applications)
      ensures forall i :: 0 <= i < |r| ==> Matches(r[i], searchQuery, statusFilter)
      ensures forall i ::
                0 <= i < |applications| && Matches(applications[i], searchQuery, statusFilter) ==> applications[i] in r
      ensures searchQuery == "" && statusFilter == "all" ==> r == applications
    {
      EmptySearchShowsAll(applications);
      FilteredApplications(applications, searchQuery, statusFilter)
    }

    /** The four counters: the list's length and the number of cards each of
        the status filters would show under an empty search, with "offers"
        counting both offered and accepted records. */
    function CurrentStats(): (r: Stats)
      reads this
      ensures r.total == |applications|
      ensures r.interviewing == |FilteredApplications(applications, "", "interviewing")|
      ensures r.offers == |FilteredApplications(applications, "", "offer")|
                        + |FilteredApplications(applications, "", "accepted")|
      ensures r.rejected == |FilteredApplications(applications, "", "rejected")|
    {
      CountersMatchStatusFilters(applications);
      OffersCountsOfferAndAccepted(applications);
      ComputeStats(applications)
    }

    /** `handleAddApplication`: the new record, with the id the generator
        supplies, goes in front of the list. A fresh id keeps the ids unique. */
    method HandleAddApplication(application: ApplicationData, freshId: string)
      modifies this
      ensures applications == Prepend(old(applications), application, freshId)
      ensures isFormOpen == old(isFormOpen) && editingApplication == old(editingApplication)
      ensures searchQuery == old(searchQuery) && statusFilter == old(statusFilter)
      ensures old(Valid()) && !HasId(old(applications), freshId) ==> Valid()
      ensures CurrentStats() == Stats(
        old(CurrentStats()).total + 1,
        old(CurrentStats()).interviewing + (if application.status == Interviewing then 1 else 0),
        old(CurrentStats()).offers + (if application.status in {Offer, Accepted} then 1 else 0),
        old(CurrentStats()).rejected + (if application.status == Rejected then 1 else 0))
    {
      var prev := applications;
      applications := Prepend(applications, application, freshId);
      StatsAfterPrepend(WithId(application, freshId), prev);
      assert UniqueIds(prev) && !HasId(prev, freshId) ==> UniqueIds(applications) by {
        if UniqueIds(prev) && !HasId(prev, freshId) {
          PrependKeepsUnique(prev, application, freshId);
        }
      }
    }

    /** `handleEditApplication`: while a record is being edited, every record
        with its id takes the submitted fields and keeps its id, and the edit
        ends; otherwise nothing happens. The dialog stays as it is. */
    method HandleEditApplication(application: ApplicationData)
      modifies this
      ensures old(editingApplication).None? ==> applications == old(applications)
      ensures old(editingApplication).Some? ==>
        applications == Replace(old(applications), old(editingApplication).value.id, application)
      ensures editingApplication.None?
      ensures isFormOpen == old(isFormOpen)
      ensures searchQuery == old(searchQuery) && statusFilter == old(statusFilter)
      ensures old(Valid()) ==> Valid()
    {
      if editingApplication.Some? {
        var prev := applications;
        applications := Replace(applications, editingApplication.value.id, application);
        assert UniqueIds(prev) ==> UniqueIds(applications) by {
          if UniqueIds(prev) {
            ReplaceKeepsUnique(prev, editingApplication.value.id, application);
          }
        }
        editingApplication := None;
      }
    }

    /** `handleDeleteApplication`: when the user confirms, every record with
        the id is removed; when they decline, nothing changes. */
    method HandleDeleteApplication(id: string, confirmed: bool)
      modifies this
      ensures applications == if confirmed then Without(old(applications), id) else old(applications)
      ensures isFormOpen == old(isFormOpen) && editingApplication == old(editingApplication)
      ensures searchQuery == old(searchQuery) && statusFilter == old(statusFilter)
      ensures old(Valid()) ==> Valid()
      ensures old(Valid()) && confirmed && HasId(old(applications), id) ==>
        |applications| == |old(applications)| - 1
    {
      if confirmed {
        var prev := applications;
        applications := Without(applications, id);
        if UniqueIds(prev) && HasId(prev, id) {
          WithoutRemovesOne(prev, id);
        }
        assert UniqueIds(prev) ==> UniqueIds(applications) by {
          if UniqueIds(prev) {
            WithoutKeepsUnique(prev, id);
          }
        }
      }
    }

    /** `openEditForm`: the dialog opens on the record. */
    method OpenEditForm(application: JobApplication)
      modifies this
      ensures editingApplication == Some(application) && isFormOpen
      ensures applications == old(applications)
      ensures searchQuery == old(searchQuery) && statusFilter == old(statusFilter)
      ensures old(Valid()) ==> Valid()
      ensures DialogTitle(FormMode()) == "Edit Job Application"
      ensures SubmitLabel(FormMode()) == "Update Application"
    {
      editingApplication := Some(application);
      isFormOpen := true;
    }

    /** The "Add Application" buttons: the dialog opens, the edit state is
        left as it is. */
    method OpenAddForm()
      modifies this
      ensures isFormOpen
      ensures editingApplication == old(editingApplication) && applications == old(applications)
      ensures searchQuery == old(searchQuery) && statusFilter == old(statusFilter)
      ensures old(Valid()) ==> Valid()
    {
      isFormOpen := true;
    }

    /** `closeForm`: the dialog closes and the edit ends. */
    method CloseForm()
      modifies this
      ensures !isFormOpen && editingApplication.None?
      ensures applications == old(applications)
      ensures searchQuery == old(searchQuery) && statusFilter == old(statusFilter)
      ensures old(Valid()) ==> Valid()
      ensures DialogTitle(FormMode()) == "Add New Job Application"
    {
      isFormOpen := false;
      editingApplication := None;
    }

    /** The search box's `onChange`. */
    method SetSearchQuery(query: string)
      modifies this
      ensures searchQuery == query && statusFilter == old(statusFilter)
      ensures applications == old(applications)
      ensures isFormOpen == old(isFormOpen) && editingApplication == old(editingApplication)
    {
      searchQuery := query;
    }

    /** The status select's `onValueChange`. */
    method SetStatusFilter(filter: string)
      modifies this
      ensures statusFilter == filter && searchQuery == old(searchQuery)
      ensures applications == old(applications)
      ensures isFormOpen == old(isFormOpen) && editingApplication == old(editingApplication)
    {
      statusFilter := filter;
    }

    /** One call from the dialog, as the page wires it: `onSubmit` is the
        edit handler while a record is being edited and the add handler
        otherwise; `onClose` is `closeForm`. */
    method Deliver(call: Callback, freshId: string)
      modifies this
      ensures call.OnSubmit? && old(editingApplication).Some? ==>
        && applications == Replace(old(applications), old(editingApplication).value.id, call.application)
        && editingApplication.None? && isFormOpen == old(isFormOpen)
      ensures call.OnSubmit? && old(editingApplication).None? ==>
        && applications == Prepend(old(applications), call.application, freshId)
        && editingApplication.None? && isFormOpen == old(isFormOpen)
      ensures call.OnClose? ==>
        applications == old(applications) && editingApplication.None? && !isFormOpen
      ensures searchQuery == old(searchQuery) && statusFilter == old(statusFilter)
      ensures old(Valid()) && (call.OnSubmit? && old(editingApplication).None? ==> !HasId(old(applications), freshId))
        ==> Valid()
    {
      match call
      case OnSubmit(application) =>
        if editingApplication.Some? {
          HandleEditApplication(application);
        } else {
          HandleAddApplication(application, freshId);
        }
      case OnClose =>
        CloseForm();
    }

    /** Submitting the dialog: the form hands its data to the edit handler in
        edit mode and to the add handler in add mode, then closes. The form
        data is not reset. */
    method SubmitForm(freshId: string)
      modifies this
      ensures old(editingApplication).Some? ==>
        applications == Replace(old(applications), old(editingApplication).value.id, old(form.formData))
      ensures old(editingApplication).None? ==>
        applications == Prepend(old(applications), old(form.formData), freshId)
      ensures !isFormOpen && editingApplication.None?
      ensures searchQuery == old(searchQuery) && statusFilter == old(statusFilter)
      ensures form.formData == old(form.formData)
      ensures old(Valid()) && (old(editingApplication).None? ==> !HasId(old(applications), freshId)) ==> Valid()
    {
      var calls := form.HandleSubmit();
      Deliver(calls[0], freshId);
      Deliver(calls[1], freshId);
    }

    /** Not in the page: `openEditForm` that also starts the form from the
        record, as remounting the dialog per record would. */
    method OpenEditFormReset(application: JobApplication, today: string)
      modifies this, form
      ensures editingApplication == Some(application) && isFormOpen
      ensures form.formData == InitialFormData(Some(application), today)
      ensures applications == old(applications)
      ensures searchQuery == old(searchQuery) && statusFilter == old(statusFilter)
      ensures old(Valid()) ==> Valid()
    {
      OpenEditForm(application);
      form.Reset(Some(application), today);
    }

    /** Not in the page: opening the add dialog on an empty form. */
    method OpenAddFormReset(today: string)
      modifies this, form
      ensures isFormOpen && editingApplication == old(editingApplication)
      ensures form.formData == InitialFormData(None, today)
      ensures applications == old(applications)
      ensures searchQuery == old(searchQuery) && statusFilter == old(statusFilter)
      ensures old(Valid()) ==> Valid()
    {
      OpenAddForm();
      form.Reset(None, today);
    }
  }

  /** Opening a form-shaped record with the form started from it and
      submitting without touching a field leaves the list as it was. */
  lemma UntouchedEditKeepsList(rs: seq<JobApplication>, k: nat, today: string)
    requires UniqueIds(rs) && k < |rs| && FormShaped(rs[k]) && today != ""
    ensures Replace(rs, rs[k].id, InitialFormData(Some(rs[k]), today)) == rs
  {
    InitialFormDataRoundTrip(rs[k], today);
    ReplaceWithOwnFields(rs, k);
  }

  /** As written: two records are added through the dialog, then the first
      is opened for editing and submitted untouched. The dialog still shows
      the second record's data, and the submit writes it over the first. */
  method StaleFormOverwritesEditedRecord() returns (shown: ApplicationData, before: JobApplication, after: JobApplication)
    ensures before.company == "Acme" && shown.company == "Globex"
    ensures after.id == before.id && after.company == "Globex"
  {
    var page := new JobTracker("2024-05-01");
    page.OpenAddForm();
    page.form.HandleChange(CompanyField, "Acme");
    page.form.HandleChange(TitleField, "Engineer");
    page.SubmitForm("id-1");
    page.OpenAddForm();
    page.form.HandleChange(CompanyField, "Globex");
    page.SubmitForm("id-2");
    before := page.applications[1];
    page.OpenEditForm(before);
    shown := page.form.formData;
    page.SubmitForm("id-3");
    after := page.applications[1];
  }

  /** Corrected: the same steps with the dialog started from the record it
      opens on. The dialog shows the record, and the untouched submit leaves
      it as it was. */
  method ResetFormKeepsEditedRecord() returns (shown: ApplicationData, before: JobApplication, after: JobApplication)
    ensures before.company == "Acme" && shown == Fields(before)
    ensures after == before
  {
    var page := new JobTracker("2024-05-01");
    page.OpenAddFormReset("2024-05-01");
    page.form.HandleChange(CompanyField, "Acme");
    page.form.HandleChange(TitleField, "Engineer");
    page.SubmitForm("id-1");
    page.OpenAddFormReset("2024-05-01");
    page.form.HandleChange(CompanyField, "Globex");
    page.SubmitForm("id-2");
    before := page.applications[1];
    page.OpenEditFormReset(before, "2024-05-01");
    shown := page.form.formData;
    InitialFormDataRoundTrip(before, "2024-05-01");
    UntouchedEditKeepsList(page.applications, 1, "2024-05-01");
    page.SubmitForm("id-3");
    after := page.applications[1];
  }
}
