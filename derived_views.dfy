/** What the page computes from the application list on every render
    (app/page.tsx): the list filtered by the search box and the status
    select, and the four counters shown above it. */
module DerivedViews {
  import opened Collections
  import opened Types
  import opened TextSearch

  /** The search box matches when the lower-cased query occurs in the
      lower-cased company, title or location; an absent location never
      matches (`app.location?.…` is undefined). */
  function MatchesSearch(a: JobApplication, query: string): (r: bool)
    ensures r <==>
      || (exists k :: OccursAt(Lower(a.company), Lower(query), k))
      || (exists k :: OccursAt(Lower(a.title), Lower(query), k))
      || (a.location.Some? && exists k :: OccursAt(Lower(a.location.value), Lower(query), k))
    ensures query == "" ==> r
  {
    var q := Lower(query);
    IncludesIffOccurs(Lower(a.company), q);
    IncludesIffOccurs(Lower(a.title), q);
    IncludesIffOccurs(Lower(a.location.GetOr("")), q);
    IncludesEmpty(Lower(a.company));
    || Includes(Lower(a.company), q)
    || Includes(Lower(a.title), q)
    || (a.location.Some? && Includes(Lower(a.location.value), q))
  }

  /** The status select matches on "all" or on the record's exact status
      name: any other string matches no record. */
  function MatchesStatus(a: JobApplication, statusFilter: string): (r: bool)
    ensures r <==> statusFilter == "all" || ParseStatus(statusFilter) == Some(a.status)
  {
    StatusNameRoundTrip(a.status);
    statusFilter == "all" || StatusName(a.status) == statusFilter
  }

  predicate Matches(a: JobApplication, query: string, statusFilter: string) {
    MatchesSearch(a, query) && MatchesStatus(a, statusFilter)
  }

  /** `filteredApplications`: the records matching both the search and the
      status select, in list order. */
  function FilteredApplications(rs: seq<JobApplication>, query: string, statusFilter: string): (r: seq<JobApplication>)
    ensures IsSubsequence(r, rs)
    ensures forall i :: 0 <= i < |r| ==> MatchesSearch(r[i], query) && MatchesStatus(r[i], statusFilter)
    ensures forall i :: 0 <= i < |rs| && Matches(rs[i], query, statusFilter) ==> rs[i] in r
  {
    FilterIsSubsequence(rs, (a: JobApplication) => Matches(a, query, statusFilter));
    FilterSeq(rs, (a: JobApplication) => Matches(a, query, statusFilter))
  }

  /** An empty search with status "all" shows the whole list, in order. */
  lemma EmptySearchShowsAll(rs: seq<JobApplication>)
    ensures FilteredApplications(rs, "", "all") == rs
  {
    assert Lower("") == "";
    forall i | 0 <= i < |rs| ensures Matches(rs[i], "", "all") {
      IncludesEmpty(Lower(rs[i].company));
    }
    FilterKeepsAll(rs, (a: JobApplication) => Matches(a, "", "all"));
  }

  /** The search ignores the case of the query. */
  lemma SearchIgnoresQueryCase(rs: seq<JobApplication>, query: string, statusFilter: string)
    ensures FilteredApplications(rs, query, statusFilter) == FilteredApplications(rs, Lower(query), statusFilter)
  {
    LowerIdempotent(query);
    FilterCongruent(rs, (a: JobApplication) => Matches(a, query, statusFilter),
                        (a: JobApplication) => Matches(a, Lower(query), statusFilter));
  }

  /** The search ignores the case of the record's fields: two records whose
      company, title and location agree up to case match the same queries. */
  lemma SearchIgnoresFieldCase(a: JobApplication, b: JobApplication, query: string)
    requires Lower(a.company) == Lower(b.company) && Lower(a.title) == Lower(b.title)
    requires a.location.Some? <==> b.location.Some?
    requires a.location.Some? ==> Lower(a.location.value) == Lower(b.location.value)
    ensures MatchesSearch(a, query) <==> MatchesSearch(b, query)
  {
  }

  /** A company written "Google" is found by the query "google". */
  lemma CapitalisedCompanyMatchesLowerQuery(a: JobApplication)
    requires a.company == "Google"
    ensures MatchesSearch(a, "google")
  {
    assert Lower("Google") == "google" by {
      assert LowerChar('G') == 'g';
    }
    assert Lower("google") == "google";
    assert StartsWith("google", "google");
  }

  /** A record without a location is found only through its company or title. */
  lemma NoLocationMatchesByCompanyOrTitle(a: JobApplication, query: string)
    requires a.location.None?
    ensures MatchesSearch(a, query) <==>
      Includes(Lower(a.company), Lower(query)) || Includes(Lower(a.title), Lower(query))
  {
  }

  /** Filtering by a status name keeps only records with exactly that status. */
  lemma StatusFilterIsExact(rs: seq<JobApplication>, query: string, s: Status)
    ensures forall a :: a in FilteredApplications(rs, query, StatusName(s)) ==> a.status == s
  {
    forall a | a in FilteredApplications(rs, query, StatusName(s)) ensures a.status == s {
      StatusNameRoundTrip(a.status);
      StatusNameRoundTrip(s);
    }
  }

  /** In particular the "offer" filter does not show accepted records. */
  lemma OfferFilterExcludesAccepted(rs: seq<JobApplication>, query: string)
    ensures forall a :: a in FilteredApplications(rs, query, "offer") ==> a.status == Offer
  {
    StatusFilterIsExact(rs, query, Offer);
  }

  /** A status filter that is neither "all" nor a status name shows nothing. */
  lemma UnknownStatusFilterShowsNothing(rs: seq<JobApplication>, query: string, statusFilter: string)
    requires statusFilter != "all" && ParseStatus(statusFilter).None?
    ensures FilteredApplications(rs, query, statusFilter) == []
  {
    var r := FilteredApplications(rs, query, statusFilter);
    assert forall i :: 0 <= i < |r| ==> !MatchesStatus(r[i], statusFilter);
  }

  /** With an empty query, filtering by a status keeps exactly the records
      that have it. */
  lemma EmptySearchByStatus(rs: seq<JobApplication>, s: Status)
    ensures FilteredApplications(rs, "", StatusName(s)) == FilterSeq(rs, (a: JobApplication) => a.status == s)
  {
    assert Lower("") == "";
    forall i | 0 <= i < |rs|
      ensures Matches(rs[i], "", StatusName(s)) <==> rs[i].status == s
    {
      IncludesEmpty(Lower(rs[i].company));
      StatusNameRoundTrip(rs[i].status);
      StatusNameRoundTrip(s);
    }
    FilterCongruent(rs, (a: JobApplication) => Matches(a, "", StatusName(s)),
                        (a: JobApplication) => a.status == s);
  }

  datatype Stats = Stats(total: nat, interviewing: nat, offers: nat, rejected: nat)

  predicate IsApplied(a: JobApplication) { a.status == Applied }
  predicate IsInterviewing(a: JobApplication) { a.status == Interviewing }
  predicate IsOfferOrAccepted(a: JobApplication) { a.status == Offer || a.status == Accepted }
  predicate IsRejected(a: JobApplication) { a.status == Rejected }

  /** `stats`: the length of the list and of three of its filters. */
  function ComputeStats(rs: seq<JobApplication>): (s: Stats)
    ensures s.total == |rs|
    ensures s.interviewing + s.offers + s.rejected + |FilterSeq(rs, IsApplied)| == s.total
    ensures s.interviewing + s.offers + s.rejected <= s.total
  {
    StatsPartition(rs);
    Stats(|rs|,
          |FilterSeq(rs, IsInterviewing)|,
          |FilterSeq(rs, IsOfferOrAccepted)|,
          |FilterSeq(rs, IsRejected)|)
  }

  /** Every record is counted by exactly one of the three counters or is
      "applied": interviewing + offers + rejected + applied == total. */
  lemma {:induction false} StatsPartition(rs: seq<JobApplication>)
    ensures |FilterSeq(rs, IsInterviewing)| + |FilterSeq(rs, IsOfferOrAccepted)|
          + |FilterSeq(rs, IsRejected)| + |FilterSeq(rs, IsApplied)| == |rs|
  {
    if rs != [] {
      StatsPartition(rs[1..]);
    }
  }

  /** The offers counter counts both offered and accepted records: it is the
      sum of the sizes of the "offer" and "accepted" filters. */
  lemma OffersCountsOfferAndAccepted(rs: seq<JobApplication>)
    ensures ComputeStats(rs).offers
         == |FilteredApplications(rs, "", "offer")| + |FilteredApplications(rs, "", "accepted")|
  {
    EmptySearchByStatus(rs, Offer);
    EmptySearchByStatus(rs, Accepted);
    FilterDisjointUnionLength(rs, (a: JobApplication) => a.status == Offer,
                                  (a: JobApplication) => a.status == Accepted, IsOfferOrAccepted);
  }

  /** The interviewing and rejected counters agree with the size of the
      matching status filter under an empty search. */
  lemma CountersMatchStatusFilters(rs: seq<JobApplication>)
    ensures ComputeStats(rs).interviewing == |FilteredApplications(rs, "", "interviewing")|
    ensures ComputeStats(rs).rejected == |FilteredApplications(rs, "", "rejected")|
  {
    EmptySearchByStatus(rs, Interviewing);
    EmptySearchByStatus(rs, Rejected);
    FilterCongruent(rs, IsInterviewing, (a: JobApplication) => a.status == Interviewing);
    FilterCongruent(rs, IsRejected, (a: JobApplication) => a.status == Rejected);
  }

  /** Adding a record raises the total by one and the counter of its status by one. */
  lemma StatsAfterPrepend(a: JobApplication, rs: seq<JobApplication>)
    ensures ComputeStats([a] + rs) == Stats(
      ComputeStats(rs).total + 1,
      ComputeStats(rs).interviewing + (if IsInterviewing(a) then 1 else 0),
      ComputeStats(rs).offers + (if IsOfferOrAccepted(a) then 1 else 0),
      ComputeStats(rs).rejected + (if IsRejected(a) then 1 else 0))
  {
    FilterAppend([a], rs, IsInterviewing);
    FilterAppend([a], rs, IsOfferOrAccepted);
    FilterAppend([a], rs, IsRejected);
  }
}
