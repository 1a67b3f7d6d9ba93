/** The record the tracker stores (lib/types.ts): one job application, with
    its five-valued status and three optional free-text fields. */
module Types {
  import opened Collections

  datatype Status = Applied | Interviewing | Offer | Rejected | Accepted

  /** The string a status is written as, in records and in the status filter. */
  function StatusName(s: Status): string {
    match s
    case Applied => "applied"
    case Interviewing => "interviewing"
    case Offer => "offer"
    case Rejected => "rejected"
    case Accepted => "accepted"
  }

  /** The status a string names, if any: the inverse of `StatusName`. */
  function ParseStatus(name: string): (r: Option<Status>)
    ensures r.Some? ==> StatusName(r.value) == name
    ensures r.None? ==> forall s :: StatusName(s) != name
  {
    if name == "applied" then Some(Applied)
    else if name == "interviewing" then Some(Interviewing)
    else if name == "offer" then Some(Offer)
    else if name == "rejected" then Some(Rejected)
    else if name == "accepted" then Some(Accepted)
    else None
  }

  /** Every status name parses back to its status, so distinct statuses
      have distinct names. */
  lemma StatusNameRoundTrip(s: Status)
    ensures ParseStatus(StatusName(s)) == Some(s)
  {
  }

  /** `JobApplication`: `location`, `salary` and `notes` may be absent. */
  datatype JobApplication = JobApplication(
    id: string,
    company: string,
    title: string,
    dateApplied: string,
    status: Status,
    location: Option<string>,
    salary: Option<string>,
    notes: Option<string>)

  /** `Omit<JobApplication, "id">`: what the form submits. */
  datatype ApplicationData = ApplicationData(
    company: string,
    title: string,
    dateApplied: string,
    status: Status,
    location: Option<string>,
    salary: Option<string>,
    notes: Option<string>)

  /** The record with the given fields and id (the spread the add and edit
      handlers build): it carries `id` and exactly the fields `d`. */
  function WithId(d: ApplicationData, id: string): (r: JobApplication)
    ensures r.id == id
    ensures Fields(r) == d
  {
    JobApplication(id, d.company, d.title, d.dateApplied, d.status, d.location, d.salary, d.notes)
  }

  /** A record's fields without its id. */
  function Fields(a: JobApplication): ApplicationData {
    ApplicationData(a.company, a.title, a.dateApplied, a.status, a.location, a.salary, a.notes)
  }

  /** Dropping a record's id and attaching it again gives the record back. */
  lemma WithIdOfFields(a: JobApplication)
    ensures WithId(Fields(a), a.id) == a
  {
  }
}
