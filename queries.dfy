/** The read operations of the store, as functions of the collections they read. Each
    collection is a `Table`: the entries of a `Map` from id to record, in insertion order. */
module Queries {
  import opened Wrappers
  import opened Records
  import Sequences
  import OrderedMaps
  import PasswordHash

  type Table<V> = seq<(Id, V)>

  /** Every stored job names a company that is stored: the `!` on `companies.get` holds. */
  ghost predicate CompaniesResolve(companies: Table<Company>, jobs: Table<Job>) {
    forall i :: 0 <= i < |jobs| ==> jobs[i].1.companyId in OrderedMaps.Keys(companies)
  }

  /** Setting a company, and a job that names it, keeps every job's company stored. */
  lemma SetKeepsCompaniesResolved(companies: Table<Company>, jobs: Table<Job>, companyId: Id, company: Company, jobId: Id, job: Job)
    requires CompaniesResolve(companies, jobs)
    requires job.companyId == companyId
    ensures CompaniesResolve(OrderedMaps.Set(companies, companyId, company), OrderedMaps.Set(jobs, jobId, job))
  {
  }

  function HasEmail(email: string): User -> bool {
    (u: User) => u.email == email
  }

  function HasLevel(level: string): Job -> bool {
    (j: Job) => j.experienceLevel == level
  }

  function HasUser(userId: Id): Application -> bool {
    (a: Application) => a.userId == userId
  }

  function InCategory(category: string): Course -> bool {
    (c: Course) => c.category == category
  }

  /** `getUserByEmail`: the earliest-inserted user whose email is exactly `email`. */
  function GetUserByEmail(users: Table<User>, email: string): (r: Option<User>)
    ensures r.None? <==> forall i :: 0 <= i < |users| ==> users[i].1.email != email
    ensures r.Some? ==> exists i :: 0 <= i < |users| && users[i].1 == r.value && r.value.email == email
                                    && forall j :: 0 <= j < i ==> users[j].1.email != email
  {
    var r := Sequences.Find(HasEmail(email), OrderedMaps.Values(users));
    assert forall i :: 0 <= i < |users| ==> OrderedMaps.Values(users)[i] == users[i].1;
    r
  }

  /** `validateUser`: the user `getUserByEmail` finds, when `compare` accepts the password
      against that user's stored hash; `None` for an unknown email and for a wrong password alike. */
  function ValidateUser(hasher: PasswordHash.Hasher, users: Table<User>, email: string, password: string): (r: Option<User>)
    ensures r.Some? ==> r == GetUserByEmail(users, email)
    ensures r.Some? ==> r.value.email == email && r.value in OrderedMaps.Values(users)
                        && hasher.compare(password, r.value.password)
    ensures (forall i :: 0 <= i < |users| ==> users[i].1.email != email) ==> r.None?
    ensures r.None? && GetUserByEmail(users, email).Some? ==>
              !hasher.compare(password, GetUserByEmail(users, email).value.password)
  {
    match GetUserByEmail(users, email)
    case None => None
    case Some(user) => if hasher.compare(password, user.password) then Some(user) else None
  }

  /** `getCompanies`: every stored company, in insertion order. */
  function GetCompanies(companies: Table<Company>): (r: seq<Company>)
    ensures |r| == |companies| && forall i :: 0 <= i < |companies| ==> r[i] == companies[i].1
  {
    OrderedMaps.Values(companies)
  }

  /** `getCompany`: the company stored under `id`, and `None` for an id never inserted. */
  function GetCompany(companies: Table<Company>, id: Id): (r: Option<Company>)
    ensures r.None? <==> id !in OrderedMaps.Keys(companies)
    ensures OrderedMaps.KeyedBy(companies, CompanyKey) && r.Some? ==> r.value.id == id && r.value in GetCompanies(companies)
  {
    var r := OrderedMaps.Get(companies, id);
    assert OrderedMaps.KeyedBy(companies, CompanyKey) && r.Some? ==> r.value.id == id && r.value in GetCompanies(companies) by {
      if r.Some? && OrderedMaps.KeyedBy(companies, CompanyKey) {
        OrderedMaps.GetKeyedBy(companies, CompanyKey, id);
        var i :| 0 <= i < |companies| && companies[i] == (id, r.value);
        assert OrderedMaps.Values(companies)[i] == r.value;
      }
    }
    r
  }

  /** `{ ...job, company }` with the company `companies.get(job.companyId)!`. */
  function JoinCompany(companies: Table<Company>, job: Job): (r: JobWithCompany)
    requires job.companyId in OrderedMaps.Keys(companies)
    ensures r.job == job && OrderedMaps.Get(companies, job.companyId) == Some(r.company)
  {
    JobWithCompany(job, OrderedMaps.Get(companies, job.companyId).value)
  }

  /** `jobs.map(...)` of `getJobs`: each job, in order, with its company. */
  function JoinCompanies(companies: Table<Company>, jobs: seq<Job>): (r: seq<JobWithCompany>)
    requires forall i :: 0 <= i < |jobs| ==> jobs[i].companyId in OrderedMaps.Keys(companies)
    ensures |r| == |jobs|
    ensures forall i :: 0 <= i < |jobs| ==>
              r[i].job == jobs[i] && OrderedMaps.Get(companies, jobs[i].companyId) == Some(r[i].company)
  {
    if jobs == [] then []
    else [JoinCompany(companies, jobs[0])] + JoinCompanies(companies, jobs[1..])
  }

  /** The jobs of a list of joined views. */
  ghost function JobsOf(views: seq<JobWithCompany>): seq<Job> {
    seq(|views|, i requires 0 <= i < |views| => views[i].job)
  }

  /** The `experienceLevel` filter that `getJobs` applies: only a truthy one counts. */
  function LevelFilter(filters: Option<JobFilters>): Option<string> {
    if filters.Some? && Truthy(filters.value.experienceLevel) then filters.value.experienceLevel else None
  }

  /** `getJobs`: the stored jobs, narrowed to the requested experience level when one is given,
      each joined with its company. `location` and `search` are accepted and not applied. */
  function GetJobs(companies: Table<Company>, jobs: Table<Job>, filters: Option<JobFilters>): (r: seq<JobWithCompany>)
    requires CompaniesResolve(companies, jobs)
    ensures JobsOf(r) == match LevelFilter(filters)
                         case Some(level) => Sequences.Filter(HasLevel(level), OrderedMaps.Values(jobs))
                         case None => OrderedMaps.Values(jobs)
    ensures forall i :: 0 <= i < |r| ==> OrderedMaps.Get(companies, r[i].job.companyId) == Some(r[i].company)
  {
    var all := OrderedMaps.Values(jobs);
    assert forall j :: j in all ==> j.companyId in OrderedMaps.Keys(companies);
    var selected := match LevelFilter(filters)
                    case Some(level) => Sequences.Filter(HasLevel(level), all)
                    case None => all;
    var r := JoinCompanies(companies, selected);
    assert JobsOf(r) == selected;
    r
  }

  /** `getJob`: the job stored under `id` joined with its company, and `None` for an id never
      inserted. */
  function GetJob(companies: Table<Company>, jobs: Table<Job>, id: Id): (r: Option<JobWithCompany>)
    requires CompaniesResolve(companies, jobs)
    ensures r.None? <==> id !in OrderedMaps.Keys(jobs)
    ensures r.Some? ==> OrderedMaps.Get(jobs, id) == Some(r.value.job)
                        && OrderedMaps.Get(companies, r.value.job.companyId) == Some(r.value.company)
  {
    match OrderedMaps.Get(jobs, id)
    case None => None
    case Some(job) => Some(JoinCompany(companies, job))
  }

  /** One application joined with its job and company; reading `companyId` of a missing job throws. */
  function JoinJob(companies: Table<Company>, jobs: Table<Job>, app: Application): (r: Result<ApplicationWithJob, JoinError>)
    requires CompaniesResolve(companies, jobs)
    ensures r.Failure? <==> app.jobId !in OrderedMaps.Keys(jobs)
    ensures r.Failure? ==> r.error == JobNotFound(app.jobId)
    ensures r.Success? ==> r.value.application == app && OrderedMaps.Get(jobs, app.jobId) == Some(r.value.job.job)
                           && OrderedMaps.Get(companies, r.value.job.job.companyId) == Some(r.value.job.company)
  {
    match OrderedMaps.Get(jobs, app.jobId)
    case None => Failure(JobNotFound(app.jobId))
    case Some(job) => Success(ApplicationWithJob(app, JoinCompany(companies, job)))
  }

  /** `userApps.map(...)`: the applications joined in order, or the error of the first one whose
      job is missing. */
  function JoinJobs(companies: Table<Company>, jobs: Table<Job>, apps: seq<Application>): (r: Result<seq<ApplicationWithJob>, JoinError>)
    requires CompaniesResolve(companies, jobs)
    ensures r.Success? <==> forall i :: 0 <= i < |apps| ==> apps[i].jobId in OrderedMaps.Keys(jobs)
    ensures r.Success? ==> |r.value| == |apps| && forall i :: 0 <= i < |apps| ==>
              && r.value[i].application == apps[i]
              && OrderedMaps.Get(jobs, apps[i].jobId) == Some(r.value[i].job.job)
              && OrderedMaps.Get(companies, r.value[i].job.job.companyId) == Some(r.value[i].job.company)
  {
    if apps == [] then Success([])
    else
      match JoinJob(companies, jobs, apps[0])
      case Failure(e) => Failure(e)
      case Success(v) =>
        match JoinJobs(companies, jobs, apps[1..])
        case Failure(e) => Failure(e)
        case Success(vs) => Success([v] + vs)
  }

  /** A failed join names the job of the first application whose job is missing. */
  lemma {:induction false} JoinJobsFailsAtFirstMissing(companies: Table<Company>, jobs: Table<Job>, apps: seq<Application>)
    requires CompaniesResolve(companies, jobs)
    ensures var r := JoinJobs(companies, jobs, apps);
            r.Failure? ==> exists i :: 0 <= i < |apps| && r.error == JobNotFound(apps[i].jobId)
                                       && apps[i].jobId !in OrderedMaps.Keys(jobs)
                                       && forall j :: 0 <= j < i ==> apps[j].jobId in OrderedMaps.Keys(jobs)
  {
    var r := JoinJobs(companies, jobs, apps);
    if r.Failure? && JoinJob(companies, jobs, apps[0]).Success? {
      JoinJobsFailsAtFirstMissing(companies, jobs, apps[1..]);
      var rest := JoinJobs(companies, jobs, apps[1..]);
      var i :| 0 <= i < |apps[1..]| && rest.error == JobNotFound(apps[1..][i].jobId)
               && apps[1..][i].jobId !in OrderedMaps.Keys(jobs)
               && forall j :: 0 <= j < i ==> apps[1..][j].jobId in OrderedMaps.Keys(jobs);
      assert apps[i + 1] == apps[1..][i];
      forall j | 1 <= j < i + 1 ensures apps[j].jobId in OrderedMaps.Keys(jobs) {
        assert apps[j] == apps[1..][j - 1];
      }
    }
  }

  /** The applications of a list of joined views. */
  ghost function ApplicationsOf(views: seq<ApplicationWithJob>): seq<Application> {
    seq(|views|, i requires 0 <= i < |views| => views[i].application)
  }

  /** `getUserApplications`: the applications of `userId`, in insertion order, each joined with
      its job and that job's company; it throws when one of them names a job that is not stored. */
  function GetUserApplications(companies: Table<Company>, jobs: Table<Job>, apps: Table<Application>, userId: Id): (r: Result<seq<ApplicationWithJob>, JoinError>)
    requires CompaniesResolve(companies, jobs)
    ensures r.Success? ==> ApplicationsOf(r.value) == Sequences.Filter(HasUser(userId), OrderedMaps.Values(apps))
  {
    var mine := Sequences.Filter(HasUser(userId), OrderedMaps.Values(apps));
    var r := JoinJobs(companies, jobs, mine);
    assert r.Success? ==> ApplicationsOf(r.value) == mine;
    r
  }

  /** `getUserApplications` throws exactly when one of the user's applications names a job
      that is not stored. */
  lemma UserApplicationsFailure(companies: Table<Company>, jobs: Table<Job>, apps: Table<Application>, userId: Id)
    requires CompaniesResolve(companies, jobs)
    ensures GetUserApplications(companies, jobs, apps, userId).Success? <==>
              forall i :: 0 <= i < |apps| && apps[i].1.userId == userId ==> apps[i].1.jobId in OrderedMaps.Keys(jobs)
  {
    var all := OrderedMaps.Values(apps);
    var mine := Sequences.Filter(HasUser(userId), all);
    assert forall i :: 0 <= i < |apps| ==> all[i] == apps[i].1;
    assert JoinJobs(companies, jobs, mine).Success? <==> forall a :: a in mine ==> a.jobId in OrderedMaps.Keys(jobs);
  }

  /** When it throws, the error names the job of one of the user's applications, and that job
      is not stored. */
  lemma UserApplicationsFailureNamesJob(companies: Table<Company>, jobs: Table<Job>, apps: Table<Application>, userId: Id)
    requires CompaniesResolve(companies, jobs)
    ensures var r := GetUserApplications(companies, jobs, apps, userId);
            r.Failure? ==> exists i :: 0 <= i < |apps| && apps[i].1.userId == userId
                                       && r.error == JobNotFound(apps[i].1.jobId) && apps[i].1.jobId !in OrderedMaps.Keys(jobs)
  {
    var all := OrderedMaps.Values(apps);
    var mine := Sequences.Filter(HasUser(userId), all);
    var r := JoinJobs(companies, jobs, mine);
    JoinJobsFailsAtFirstMissing(companies, jobs, mine);
    if r.Failure? {
      var k :| 0 <= k < |mine| && r.error == JobNotFound(mine[k].jobId) && mine[k].jobId !in OrderedMaps.Keys(jobs);
      assert mine[k] in all;
      var i :| 0 <= i < |all| && all[i] == mine[k];
      assert apps[i].1 == mine[k];
    }
  }

  /** When `getUserApplications` succeeds it lists exactly the user's applications, in insertion
      order, each with the job it names and that job's company. */
  lemma UserApplicationsJoined(companies: Table<Company>, jobs: Table<Job>, apps: Table<Application>, userId: Id)
    requires CompaniesResolve(companies, jobs)
    ensures var r := GetUserApplications(companies, jobs, apps, userId);
            r.Success? ==>
              && ApplicationsOf(r.value) == Sequences.Filter(HasUser(userId), OrderedMaps.Values(apps))
              && forall i :: 0 <= i < |r.value| ==>
                   && r.value[i].application.userId == userId
                   && OrderedMaps.Get(jobs, r.value[i].application.jobId) == Some(r.value[i].job.job)
                   && OrderedMaps.Get(companies, r.value[i].job.job.companyId) == Some(r.value[i].job.company)
  {
    var mine := Sequences.Filter(HasUser(userId), OrderedMaps.Values(apps));
    var r := JoinJobs(companies, jobs, mine);
    if r.Success? {
      assert ApplicationsOf(r.value) == mine;
      forall i | 0 <= i < |r.value| ensures r.value[i].application.userId == userId {
        assert mine[i] in mine;
      }
    }
  }

  /** `getCourses`: the stored courses, narrowed to `category` when a truthy one is given. */
  function GetCourses(courses: Table<Course>, category: Option<string>): (r: seq<Course>)
    ensures Truthy(category) ==> r == Sequences.Filter(InCategory(category.value), OrderedMaps.Values(courses))
    ensures !Truthy(category) ==> r == OrderedMaps.Values(courses)
    ensures forall c :: c in r <==> c in OrderedMaps.Values(courses) && (Truthy(category) ==> c.category == category.value)
  {
    if Truthy(category) then Sequences.Filter(InCategory(category.value), OrderedMaps.Values(courses))
    else OrderedMaps.Values(courses)
  }

  /** `getCourse`: the course stored under `id`, and `None` for an id never inserted. */
  function GetCourse(courses: Table<Course>, id: Id): (r: Option<Course>)
    ensures r.None? <==> id !in OrderedMaps.Keys(courses)
    ensures OrderedMaps.KeyedBy(courses, CourseKey) && r.Some? ==> r.value.id == id && r.value in OrderedMaps.Values(courses)
  {
    var r := OrderedMaps.Get(courses, id);
    assert OrderedMaps.KeyedBy(courses, CourseKey) && r.Some? ==> r.value.id == id && r.value in OrderedMaps.Values(courses) by {
      if r.Some? && OrderedMaps.KeyedBy(courses, CourseKey) {
        OrderedMaps.GetKeyedBy(courses, CourseKey, id);
        var i :| 0 <= i < |courses| && courses[i] == (id, r.value);
        assert OrderedMaps.Values(courses)[i] == r.value;
      }
    }
    r
  }

  /** Every joined view of `getJobs` carries the company whose id is the job's `companyId`. */
  lemma JobsCarryTheirCompany(companies: Table<Company>, jobs: Table<Job>, filters: Option<JobFilters>)
    requires CompaniesResolve(companies, jobs)
    requires OrderedMaps.KeyedBy(companies, CompanyKey)
    ensures forall v :: v in GetJobs(companies, jobs, filters) ==> v.company.id == v.job.companyId
  {
  }

  /** The job that `getJob` returns carries the company whose id is the job's `companyId`. */
  lemma JobCarriesItsCompany(companies: Table<Company>, jobs: Table<Job>, id: Id)
    requires CompaniesResolve(companies, jobs)
    requires OrderedMaps.KeyedBy(companies, CompanyKey)
    ensures GetJob(companies, jobs, id).Some? ==>
              GetJob(companies, jobs, id).value.company.id == GetJob(companies, jobs, id).value.job.companyId
  {
    if GetJob(companies, jobs, id).Some? {
      OrderedMaps.GetKeyedBy(companies, CompanyKey, GetJob(companies, jobs, id).value.job.companyId);
    }
  }

  /** The job an application is joined with carries the company whose id is the job's
      `companyId`. */
  lemma JoinedJobCarriesItsCompany(companies: Table<Company>, jobs: Table<Job>, app: Application)
    requires CompaniesResolve(companies, jobs)
    requires OrderedMaps.KeyedBy(companies, CompanyKey)
    ensures JoinJob(companies, jobs, app).Success? ==>
              JoinJob(companies, jobs, app).value.job.company.id == JoinJob(companies, jobs, app).value.job.job.companyId
  {
    if JoinJob(companies, jobs, app).Success? {
      OrderedMaps.GetKeyedBy(companies, CompanyKey, JoinJob(companies, jobs, app).value.job.job.companyId);
    }
  }

  /** With a truthy `experienceLevel`, a stored job is listed exactly when it has that level. */
  lemma JobsFilteredByLevel(companies: Table<Company>, jobs: Table<Job>, filters: Option<JobFilters>, job: Job)
    requires CompaniesResolve(companies, jobs)
    requires LevelFilter(filters).Some?
    ensures job in JobsOf(GetJobs(companies, jobs, filters)) <==>
              job in OrderedMaps.Values(jobs) && job.experienceLevel == LevelFilter(filters).value
  {
  }

  /** `getJobs` reads `experienceLevel` only: `location` and `search` change nothing. */
  lemma JobsIgnoreLocationAndSearch(companies: Table<Company>, jobs: Table<Job>, filters: JobFilters, location: Option<string>, search: Option<string>)
    requires CompaniesResolve(companies, jobs)
    ensures GetJobs(companies, jobs, Some(filters)) ==
            GetJobs(companies, jobs, Some(filters.(location := location, search := search)))
  {
  }

  /** Without a truthy `experienceLevel` (no filter object, an absent or an empty one),
      `getJobs` lists every stored job in insertion order. */
  lemma UnfilteredJobsListAll(companies: Table<Company>, jobs: Table<Job>, filters: Option<JobFilters>)
    requires CompaniesResolve(companies, jobs)
    requires filters.None? || !Truthy(filters.value.experienceLevel)
    ensures JobsOf(GetJobs(companies, jobs, filters)) == OrderedMaps.Values(jobs)
  {
  }

  /** A user registered after another with the same email cannot be found by that email:
      `find` stops at the earlier one. */
  lemma DuplicateEmailShadowed(users: Table<User>, id: Id, user: User)
    requires exists i :: 0 <= i < |users| && users[i].1.email == user.email
    ensures GetUserByEmail(users + [(id, user)], user.email) == GetUserByEmail(users, user.email)
    ensures GetUserByEmail(users + [(id, user)], user.email) != Some(user) || user in OrderedMaps.Values(users)
  {
    OrderedMaps.ValuesAppend(users, id, user);
    Sequences.FindAppend(HasEmail(user.email), OrderedMaps.Values(users), [user]);
    var r := GetUserByEmail(users, user.email);
    if r == Some(user) {
      var i :| 0 <= i < |users| && users[i].1 == user;
      assert OrderedMaps.Values(users)[i] == user;
    }
  }

  /** A user whose email no earlier user has is the one `getUserByEmail` finds. */
  lemma NewEmailFound(users: Table<User>, id: Id, user: User)
    requires forall i :: 0 <= i < |users| ==> users[i].1.email != user.email
    ensures GetUserByEmail(users + [(id, user)], user.email) == Some(user)
  {
    OrderedMaps.ValuesAppend(users, id, user);
    Sequences.FindAppend(HasEmail(user.email), OrderedMaps.Values(users), [user]);
  }

  /** An application appended to the store shows up last in its user's list, joined with the
      job it names and that job's company, while everything listed before stays as it was; if
      the listing threw before, it still throws the same error. */
  lemma NewApplicationListed(companies: Table<Company>, jobs: Table<Job>, apps: Table<Application>, id: Id, app: Application)
    requires CompaniesResolve(companies, jobs)
    requires app.jobId in OrderedMaps.Keys(jobs)
    ensures GetUserApplications(companies, jobs, apps + [(id, app)], app.userId) ==
              match GetUserApplications(companies, jobs, apps, app.userId)
              case Success(views) => Success(views + [JoinJob(companies, jobs, app).value])
              case Failure(e) => Failure(e)
  {
    OrderedMaps.ValuesAppend(apps, id, app);
    var mine := Sequences.Filter(HasUser(app.userId), OrderedMaps.Values(apps));
    Sequences.FilterAppend(HasUser(app.userId), OrderedMaps.Values(apps), [app]);
    assert Sequences.Filter(HasUser(app.userId), [app]) == [app] by {
      assert [app][1..] == [];
    }
    assert Sequences.Filter(HasUser(app.userId), OrderedMaps.Values(apps + [(id, app)])) == mine + [app];
    JoinJobsAppend(companies, jobs, mine, app);
  }

  /** An application whose job is not stored makes its user's listing throw. */
  lemma DanglingApplicationBreaksListing(companies: Table<Company>, jobs: Table<Job>, apps: Table<Application>, id: Id, app: Application)
    requires CompaniesResolve(companies, jobs)
    requires app.jobId !in OrderedMaps.Keys(jobs)
    ensures GetUserApplications(companies, jobs, apps + [(id, app)], app.userId).Failure?
  {
    UserApplicationsFailure(companies, jobs, apps + [(id, app)], app.userId);
    assert (apps + [(id, app)])[|apps|].1 == app;
  }

  /** Applying for a job changes no other user's list. */
  lemma OtherUsersApplicationsUnchanged(companies: Table<Company>, jobs: Table<Job>, apps: Table<Application>, id: Id, app: Application, userId: Id)
    requires CompaniesResolve(companies, jobs)
    requires userId != app.userId
    ensures GetUserApplications(companies, jobs, apps + [(id, app)], userId) == GetUserApplications(companies, jobs, apps, userId)
  {
    OrderedMaps.ValuesAppend(apps, id, app);
    Sequences.FilterAppend(HasUser(userId), OrderedMaps.Values(apps), [app]);
    assert Sequences.Filter(HasUser(userId), [app]) == [] by {
      assert [app][1..] == [];
    }
    assert Sequences.Filter(HasUser(userId), OrderedMaps.Values(apps + [(id, app)]))
        == Sequences.Filter(HasUser(userId), OrderedMaps.Values(apps));
  }

  /** Joining one more application either throws as before, or appends its view. */
  lemma {:induction false} JoinJobsAppend(companies: Table<Company>, jobs: Table<Job>, apps: seq<Application>, app: Application)
    requires CompaniesResolve(companies, jobs)
    requires app.jobId in OrderedMaps.Keys(jobs)
    ensures JoinJobs(companies, jobs, apps + [app]) ==
              match JoinJobs(companies, jobs, apps)
              case Success(views) => Success(views + [JoinJob(companies, jobs, app).value])
              case Failure(e) => Failure(e)
  {
    if apps == [] {
      assert apps + [app] == [app];
      assert [app][1..] == [];
      assert [JoinJob(companies, jobs, app).value] + [] == [] + [JoinJob(companies, jobs, app).value];
    } else {
      assert (apps + [app])[0] == apps[0];
      assert (apps + [app])[1..] == apps[1..] + [app];
      JoinJobsAppend(companies, jobs, apps[1..], app);
      match JoinJob(companies, jobs, apps[0])
      case Failure(e) =>
      case Success(v) =>
        match JoinJobs(companies, jobs, apps[1..])
        case Failure(e) =>
        case Success(vs) =>
          assert [v] + (vs + [JoinJob(companies, jobs, app).value]) == ([v] + vs) + [JoinJob(companies, jobs, app).value];
    }
  }
}
