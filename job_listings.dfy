/**
  The job board of the editor area: a list of postings narrowed by a free-text
  search and three selectors, a reset button, and the short requirements list
  shown on each posting card.
*/
module JobListings {
  import opened Wrappers
  import opened Seqs
  import opened Text
  import opened Categories

  datatype JobType = FullTime | PartTime | Contract | Freelance

  /** The string the source stores for an employment type. */
  function TypeName(t: JobType): string
  {
    match t
    case FullTime => "full-time"
    case PartTime => "part-time"
    case Contract => "contract"
    case Freelance => "freelance"
  }

  /** Reads a selector string as an employment type; any other string is none. */
  function ParseType(s: string): (r: Option<JobType>)
    ensures r.Some? ==> TypeName(r.value) == s
    ensures r.None? ==> forall t: JobType :: TypeName(t) != s
  {
    if s == "full-time" then Some(FullTime)
    else if s == "part-time" then Some(PartTime)
    else if s == "contract" then Some(Contract)
    else if s == "freelance" then Some(Freelance)
    else None
  }

  datatype Job = Job(
    id: int,
    title: string,
    company: string,
    location: string,
    jobType: JobType,
    category: Category,
    salary: string,
    postedAt: string,
    description: string,
    requirements: seq<string>,
    isRemote: bool)

  /** The selector value that places no constraint. */
  const All := "all"
  /** The location selector value that also accepts every remote posting. */
  const Remote := "remote"

  /** The four state cells that drive the filter. */
  datatype Criteria = Criteria(search: string, category: string, jobType: string, location: string)

  /** The state the page starts in and that the reset button restores. */
  const InitialCriteria := Criteria("", All, All, All)

  /** Case-insensitive search in the title, the company or the description. */
  function SearchMatch(job: Job, term: string): (b: bool)
    ensures b <==> (|| Occurs(Lower(term), Lower(job.title))
                    || Occurs(Lower(term), Lower(job.company))
                    || Occurs(Lower(term), Lower(job.description)))
    ensures term == "" ==> b
  {
    assert term == "" ==> Occurs(Lower(term), Lower(job.title)) by {
      if term == "" {
        assert Lower(term) == [] && Lower(term) <= Lower(job.title)[0..];
      }
    }
    IncludesIgnoringCase(job.title, term)
    || IncludesIgnoringCase(job.company, term)
    || IncludesIgnoringCase(job.description, term)
  }

  /** The category selector accepts everything, or the one category it names. */
  function CategoryMatch(job: Job, selector: string): (b: bool)
    ensures b <==> selector == All || Parse(selector) == Some(job.category)
  {
    selector == All || Name(job.category) == selector
  }

  /** The type selector accepts everything, or the one employment type it names. */
  function TypeMatch(job: Job, selector: string): (b: bool)
    ensures b <==> selector == All || ParseType(selector) == Some(job.jobType)
  {
    selector == All || TypeName(job.jobType) == selector
  }

  /**
    The location selector accepts everything, every remote posting when it is
    `remote`, and any posting whose location contains it, ignoring case.
  */
  function LocationMatch(job: Job, selector: string): (b: bool)
    ensures b <==> (|| selector == All
                    || (selector == Remote && job.isRemote)
                    || Occurs(Lower(selector), Lower(job.location)))
  {
    selector == All
    || (selector == Remote && job.isRemote)
    || IncludesIgnoringCase(job.location, selector)
  }

  /** The four tests joined with AND, each read through its own characterisation. */
  predicate Matches(job: Job, c: Criteria)
    ensures Matches(job, c) <==>
      && (|| Occurs(Lower(c.search), Lower(job.title))
          || Occurs(Lower(c.search), Lower(job.company))
          || Occurs(Lower(c.search), Lower(job.description)))
      && (c.category == All || Parse(c.category) == Some(job.category))
      && (c.jobType == All || ParseType(c.jobType) == Some(job.jobType))
      && (|| c.location == All
          || (c.location == Remote && job.isRemote)
          || Occurs(Lower(c.location), Lower(job.location)))
  {
    SearchMatch(job, c.search)
    && CategoryMatch(job, c.category)
    && TypeMatch(job, c.jobType)
    && LocationMatch(job, c.location)
  }

  /** `filteredJobs`: the postings that pass all four tests, in list order. */
  function FilterJobs(jobs: seq<Job>, c: Criteria): (r: seq<Job>)
    ensures IsSubsequence(r, jobs) && |r| <= |jobs|
    ensures forall j | j in r :: j in jobs && Matches(j, c)
    ensures forall j | j in jobs && Matches(j, c) :: j in r
  {
    Filter(jobs, j => Matches(j, c))
  }

  /**
    The listing keeps every occurrence of a matching posting and nothing else;
    with the subsequence property this fixes it completely (see Seqs.FilterUnique).
  */
  lemma FilterJobsCount(jobs: seq<Job>, c: Criteria, job: Job)
    ensures multiset(FilterJobs(jobs, c))[job] == if Matches(job, c) then multiset(jobs)[job] else 0
  {
    FilterCount(jobs, j => Matches(j, c), job);
  }

  /** With the initial (or reset) criteria every posting is shown, in list order. */
  lemma InitialShowsAll(jobs: seq<Job>)
    ensures FilterJobs(jobs, InitialCriteria) == jobs
  {
    FilterAllPass(jobs, j => Matches(j, InitialCriteria));
  }

  /**
    Choosing only a category (everything else as initially) shows exactly the
    postings of that category, in list order.
  */
  lemma CategoryOnly(jobs: seq<Job>, cat: Category)
    ensures FilterJobs(jobs, InitialCriteria.(category := Name(cat)))
         == Filter(jobs, (j: Job) => j.category == cat)
  {
    var c := InitialCriteria.(category := Name(cat));
    forall j | j in jobs ensures Matches(j, c) == (j.category == cat) {
      assert SearchMatch(j, "");
    }
    FilterCongruent(jobs, j => Matches(j, c), (j: Job) => j.category == cat);
  }

  /** A category selector that is neither `all` nor a category name shows nothing. */
  lemma UnknownCategoryShowsNothing(jobs: seq<Job>, c: Criteria)
    requires c.category != All && Parse(c.category) == None
    ensures FilterJobs(jobs, c) == []
  {
    FilterNonePass(jobs, j => Matches(j, c));
  }

  /** Likewise for a type selector that names no employment type. */
  lemma UnknownTypeShowsNothing(jobs: seq<Job>, c: Criteria)
    requires c.jobType != All && ParseType(c.jobType) == None
    ensures FilterJobs(jobs, c) == []
  {
    FilterNonePass(jobs, j => Matches(j, c));
  }

  /**
    The `remote` selector keeps the remote postings and, because the substring
    test also applies, any posting whose location mentions "remote".
  */
  lemma RemoteSelector(job: Job)
    ensures LocationMatch(job, Remote) <==> job.isRemote || Occurs("remote", Lower(job.location))
  {
    assert Lower(Remote) == "remote";
  }

  /** The number of requirements a posting card lists before summarising the rest. */
  const PreviewLength := 3

  /** What a card shows of the requirements: the first few, and "And n more" if any are left. */
  datatype RequirementsView = RequirementsView(shown: seq<string>, moreLine: Option<nat>)

  function PreviewRequirements(reqs: seq<string>): (v: RequirementsView)
    ensures |v.shown| == (if |reqs| < PreviewLength then |reqs| else PreviewLength)
    ensures v.shown <= reqs
    ensures v.moreLine.Some? <==> |reqs| > PreviewLength
    ensures |v.shown| + (if v.moreLine.Some? then v.moreLine.value else 0) == |reqs|
  {
    var n := if |reqs| < PreviewLength then |reqs| else PreviewLength;
    RequirementsView(reqs[..n], if |reqs| > PreviewLength then Some(|reqs| - PreviewLength) else None)
  }

  /** The job board page: the posting list and the four filter cells. */
  class JobBoard {
    const jobs: seq<Job>
    var searchTerm: string
    var categoryFilter: string
    var typeFilter: string
    var locationFilter: string

    function CurrentCriteria(): Criteria
      reads this
    {
      Criteria(searchTerm, categoryFilter, typeFilter, locationFilter)
    }

    /** The postings currently listed. */
    function Shown(): seq<Job>
      reads this
    {
      FilterJobs(jobs, CurrentCriteria())
    }

    constructor (jobs: seq<Job>)
      ensures this.jobs == jobs
      ensures CurrentCriteria() == InitialCriteria
      ensures Shown() == jobs
    {
      this.jobs := jobs;
      searchTerm, categoryFilter, typeFilter, locationFilter := "", All, All, All;
      new;
      InitialShowsAll(jobs);
    }

    method SetSearchTerm(term: string)
      modifies this
      ensures CurrentCriteria() == old(CurrentCriteria()).(search := term)
    {
      searchTerm := term;
    }

    method SetCategoryFilter(selector: string)
      modifies this
      ensures CurrentCriteria() == old(CurrentCriteria()).(category := selector)
    {
      categoryFilter := selector;
    }

    method SetTypeFilter(selector: string)
      modifies this
      ensures CurrentCriteria() == old(CurrentCriteria()).(jobType := selector)
    {
      typeFilter := selector;
    }

    method SetLocationFilter(selector: string)
      modifies this
      ensures CurrentCriteria() == old(CurrentCriteria()).(location := selector)
    {
      locationFilter := selector;
    }

    /** `resetFilters`: all four cells back to their initial values, so every posting is listed. */
    method ResetFilters()
      modifies this
      ensures CurrentCriteria() == InitialCriteria
      ensures Shown() == jobs
    {
      searchTerm := "";
      categoryFilter := All;
      typeFilter := All;
      locationFilter := All;
      InitialShowsAll(jobs);
    }
  }
}
