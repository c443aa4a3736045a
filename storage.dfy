/** `MemStorage`: the in-memory store. Six `Map`s from id to record, seeded with one company,
    one job and one course; records are only ever added. Ids (`randomUUID()`), bcrypt salts and
    clock readings (`new Date()`) come in as arguments. */
module Storage {
  import opened Wrappers
  import opened Records
  import OrderedMaps
  import PasswordHash
  import Queries
  import Sequences

  const AccentureId: Id := "accenture-id"
  const SeedJobId: Id := "job-1"
  const SeedCourseId: Id := "html-course"

  /** The seed job closes fifteen days after it is created. */
  const FifteenDaysMs: int := 15 * 24 * 60 * 60 * 1000

  function SeedCompany(now: Timestamp): Company {
    Company(
      AccentureId, "Accenture", Some("A leading global professional services company"),
      Some("https://www.accenture.com"), Some("https://www.linkedin.com/company/accenture"),
      None, Some("Bengaluru, India"), now)
  }

  function SeedJob(now: Timestamp): Job {
    Job(
      SeedJobId, AccentureId, "Software Developer - Fresher",
      "Join our dynamic team as a Software Developer.", "Programming skills, Problem-solving",
      "Bachelor's degree in Computer Science", "Java, Python, JavaScript", "fresher",
      0, 1, "Bengaluru", "full-time", Some("₹3.5 - 4.5 LPA"), None, now + FifteenDaysMs,
      Some("2024"), true, now)
  }

  function SeedCourse(now: Timestamp): Course {
    Course(
      SeedCourseId, "Complete HTML & CSS Course", "Learn HTML and CSS from scratch", "John Doe",
      "6 weeks", "beginner", "web-development", None, None, "Free", now)
  }

  /** The user record `createUser` stores: the password is replaced by its hash, and a
      falsy phone by `null`. */
  function NewUser(hasher: PasswordHash.Hasher, insert: InsertUser, id: Id, salt: string, now: Timestamp): (u: User)
    ensures u.id == id && u.email == insert.email && u.fullName == insert.fullName && u.createdAt == now
    ensures u.phone.None? <==> !Truthy(insert.phone)
    ensures u.phone.Some? ==> u.phone == insert.phone
    ensures u.password == hasher.hash(insert.password, salt)
    ensures PasswordHash.Sound(hasher) ==> u.password != insert.password && hasher.compare(insert.password, u.password)
  {
    User(id, insert.email, insert.fullName, OrNull(insert.phone), hasher.hash(insert.password, salt), now)
  }

  /** The application record `createApplication` stores: `userId` and `jobId` are taken as
      given, unchecked, and a falsy status becomes `null`. */
  function NewApplication(insert: InsertApplication, id: Id, now: Timestamp): (a: Application)
    ensures a.id == id && a.userId == insert.userId && a.jobId == insert.jobId && a.appliedAt == now
    ensures a.status.None? <==> !Truthy(insert.status)
    ensures a.status.Some? ==> a.status == insert.status
  {
    Application(id, insert.userId, insert.jobId, OrNull(insert.status), now)
  }

  /** The contact record `createContact` stores. */
  function NewContact(insert: InsertContact, id: Id, now: Timestamp): (c: Contact)
    ensures c.id == id && c.name == insert.name && c.email == insert.email
    ensures c.message == insert.message && c.createdAt == now
  {
    Contact(id, insert.name, insert.email, insert.message, now)
  }

  /** Setting the seed records keeps the company, job and course tables well formed and every
      job's company stored. */
  lemma SeedKeepsTablesValid(companies: Queries.Table<Company>, jobs: Queries.Table<Job>, courses: Queries.Table<Course>, now: Timestamp)
    requires OrderedMaps.UniqueKeys(companies) && OrderedMaps.KeyedBy(companies, CompanyKey)
    requires OrderedMaps.UniqueKeys(jobs) && OrderedMaps.KeyedBy(jobs, JobKey)
    requires OrderedMaps.UniqueKeys(courses) && OrderedMaps.KeyedBy(courses, CourseKey)
    requires Queries.CompaniesResolve(companies, jobs)
    ensures var companies', jobs', courses' := OrderedMaps.Set(companies, AccentureId, SeedCompany(now)),
              OrderedMaps.Set(jobs, SeedJobId, SeedJob(now)), OrderedMaps.Set(courses, SeedCourseId, SeedCourse(now));
            && OrderedMaps.UniqueKeys(companies') && OrderedMaps.KeyedBy(companies', CompanyKey)
            && OrderedMaps.UniqueKeys(jobs') && OrderedMaps.KeyedBy(jobs', JobKey)
            && OrderedMaps.UniqueKeys(courses') && OrderedMaps.KeyedBy(courses', CourseKey)
            && Queries.CompaniesResolve(companies', jobs')
  {
    OrderedMaps.SetUniqueKeys(companies, AccentureId, SeedCompany(now));
    OrderedMaps.SetKeyedBy(companies, CompanyKey, AccentureId, SeedCompany(now));
    OrderedMaps.SetUniqueKeys(jobs, SeedJobId, SeedJob(now));
    OrderedMaps.SetKeyedBy(jobs, JobKey, SeedJobId, SeedJob(now));
    OrderedMaps.SetUniqueKeys(courses, SeedCourseId, SeedCourse(now));
    OrderedMaps.SetKeyedBy(courses, CourseKey, SeedCourseId, SeedCourse(now));
    Queries.SetKeepsCompaniesResolved(companies, jobs, AccentureId, SeedCompany(now), SeedJobId, SeedJob(now));
  }

  class MemStorage {
    var users: Queries.Table<User>
    var companies: Queries.Table<Company>
    var jobs: Queries.Table<Job>
    var courses: Queries.Table<Course>
    var applications: Queries.Table<Application>
    var contacts: Queries.Table<Contact>

    /** Each `Map` holds one entry per key, under the record's own id, and every job's company
        is stored. */
    ghost predicate Valid()
      reads this
    {
      && OrderedMaps.UniqueKeys(users) && OrderedMaps.KeyedBy(users, UserKey)
      && OrderedMaps.UniqueKeys(companies) && OrderedMaps.KeyedBy(companies, CompanyKey)
      && OrderedMaps.UniqueKeys(jobs) && OrderedMaps.KeyedBy(jobs, JobKey)
      && OrderedMaps.UniqueKeys(courses) && OrderedMaps.KeyedBy(courses, CourseKey)
      && OrderedMaps.UniqueKeys(applications) && OrderedMaps.KeyedBy(applications, ApplicationKey)
      && OrderedMaps.UniqueKeys(contacts) && OrderedMaps.KeyedBy(contacts, ContactKey)
      && Queries.CompaniesResolve(companies, jobs)
    }

    /** A new store holds the seed company, job and course, and nothing else. */
    constructor (now: Timestamp)
      ensures Valid()
      ensures users == [] && applications == [] && contacts == []
      ensures companies == SeedCompanies(now) && jobs == SeedJobs(now) && courses == SeedCourses(now)
    {
      users, companies, jobs, courses, applications, contacts := [], [], [], [], [], [];
      new;
      InitializeSampleData(now);
    }

    /** `initializeSampleData`: sets the seed company, job and course under their fixed ids,
        overwriting in place any record already stored under one of them. */
    method InitializeSampleData(now: Timestamp)
      requires Valid()
      modifies this
      ensures Valid()
      ensures companies == OrderedMaps.Set(old(companies), AccentureId, SeedCompany(now))
      ensures jobs == OrderedMaps.Set(old(jobs), SeedJobId, SeedJob(now))
      ensures courses == OrderedMaps.Set(old(courses), SeedCourseId, SeedCourse(now))
      ensures users == old(users) && applications == old(applications) && contacts == old(contacts)
    {
      SetSeedCompany(now);
      SetSeedJob(now);
      SetSeedCourse(now);
    }

    /** `this.companies.set(...)` of the seed company. */
    method SetSeedCompany(now: Timestamp)
      requires Valid()
      modifies this
      ensures Valid()
      ensures companies == OrderedMaps.Set(old(companies), AccentureId, SeedCompany(now))
      ensures AccentureId in OrderedMaps.Keys(companies)
      ensures users == old(users) && jobs == old(jobs) && courses == old(courses)
      ensures applications == old(applications) && contacts == old(contacts)
    {
      OrderedMaps.SetUniqueKeys(companies, AccentureId, SeedCompany(now));
      OrderedMaps.SetKeyedBy(companies, CompanyKey, AccentureId, SeedCompany(now));
      companies := OrderedMaps.Set(companies, AccentureId, SeedCompany(now));
    }

    /** `this.jobs.set(...)` of the seed job, whose company is stored. */
    method SetSeedJob(now: Timestamp)
      requires Valid() && AccentureId in OrderedMaps.Keys(companies)
      modifies this
      ensures Valid()
      ensures jobs == OrderedMaps.Set(old(jobs), SeedJobId, SeedJob(now))
      ensures users == old(users) && companies == old(companies) && courses == old(courses)
      ensures applications == old(applications) && contacts == old(contacts)
    {
      OrderedMaps.SetUniqueKeys(jobs, SeedJobId, SeedJob(now));
      OrderedMaps.SetKeyedBy(jobs, JobKey, SeedJobId, SeedJob(now));
      jobs := OrderedMaps.Set(jobs, SeedJobId, SeedJob(now));
    }

    /** `this.courses.set(...)` of the seed course. */
    method SetSeedCourse(now: Timestamp)
      requires Valid()
      modifies this
      ensures Valid()
      ensures courses == OrderedMaps.Set(old(courses), SeedCourseId, SeedCourse(now))
      ensures users == old(users) && companies == old(companies) && jobs == old(jobs)
      ensures applications == old(applications) && contacts == old(contacts)
    {
      OrderedMaps.SetUniqueKeys(courses, SeedCourseId, SeedCourse(now));
      OrderedMaps.SetKeyedBy(courses, CourseKey, SeedCourseId, SeedCourse(now));
      courses := OrderedMaps.Set(courses, SeedCourseId, SeedCourse(now));
    }

    /** `getUserByEmail`. */
    function GetUserByEmail(email: string): (r: Option<User>)
      reads this
      ensures r.None? <==> forall i :: 0 <= i < |users| ==> users[i].1.email != email
      ensures r.Some? ==> r.value.email == email && r.value in OrderedMaps.Values(users)
      ensures r.Some? ==> exists i :: 0 <= i < |users| && users[i].1 == r.value
                                      && forall j :: 0 <= j < i ==> users[j].1.email != email
    {
      Queries.GetUserByEmail(users, email)
    }

    /** `createUser`: stores a new user, with its password hashed, under `id`. */
    method CreateUser(hasher: PasswordHash.Hasher, insertUser: InsertUser, id: Id, salt: string, now: Timestamp) returns (user: User)
      requires Valid()
      modifies this
      ensures Valid()
      ensures user == NewUser(hasher, insertUser, id, salt, now)
      ensures users == OrderedMaps.Set(old(users), id, user)
      ensures id !in OrderedMaps.Keys(old(users)) ==> users == old(users) + [(id, user)]
      ensures companies == old(companies) && jobs == old(jobs) && courses == old(courses)
      ensures applications == old(applications) && contacts == old(contacts)
    {
      user := NewUser(hasher, insertUser, id, salt, now);
      OrderedMaps.SetUniqueKeys(users, id, user);
      OrderedMaps.SetKeyedBy(users, UserKey, id, user);
      users := OrderedMaps.Set(users, id, user);
    }

    /** `validateUser`. */
    function ValidateUser(hasher: PasswordHash.Hasher, email: string, password: string): (r: Option<User>)
      reads this
      ensures r.Some? ==> r == GetUserByEmail(email) && hasher.compare(password, r.value.password)
      ensures GetUserByEmail(email).None? ==> r.None?
      ensures GetUserByEmail(email).Some? && hasher.compare(password, GetUserByEmail(email).value.password) ==>
                r == GetUserByEmail(email)
      ensures GetUserByEmail(email).Some? && !hasher.compare(password, GetUserByEmail(email).value.password) ==>
                r.None?
    {
      Queries.ValidateUser(hasher, users, email, password)
    }

    /** `getCompanies`. */
    function GetCompanies(): (r: seq<Company>)
      reads this
      ensures |r| == |companies| && forall i :: 0 <= i < |companies| ==> r[i] == companies[i].1
    {
      Queries.GetCompanies(companies)
    }

    /** `getCompany`. */
    function GetCompany(id: Id): (r: Option<Company>)
      reads this
      requires Valid()
      ensures r.None? <==> id !in OrderedMaps.Keys(companies)
      ensures r.Some? ==> r.value.id == id && r.value in GetCompanies()
    {
      Queries.GetCompany(companies, id)
    }

    /** `getJobs`. */
    function GetJobs(filters: Option<JobFilters>): (r: seq<JobWithCompany>)
      reads this
      requires Valid()
      ensures Queries.JobsOf(r) == match Queries.LevelFilter(filters)
                                   case Some(level) => Sequences.Filter(Queries.HasLevel(level), OrderedMaps.Values(jobs))
                                   case None => OrderedMaps.Values(jobs)
      ensures forall i :: 0 <= i < |r| ==> OrderedMaps.Get(companies, r[i].job.companyId) == Some(r[i].company)
      ensures forall i :: 0 <= i < |r| ==> r[i].company.id == r[i].job.companyId
    {
      Queries.JobsCarryTheirCompany(companies, jobs, filters);
      assert forall i :: 0 <= i < |Queries.GetJobs(companies, jobs, filters)| ==>
               Queries.GetJobs(companies, jobs, filters)[i] in Queries.GetJobs(companies, jobs, filters);
      Queries.GetJobs(companies, jobs, filters)
    }

    /** `getJob`. */
    function GetJob(id: Id): (r: Option<JobWithCompany>)
      reads this
      requires Valid()
      ensures r.None? <==> id !in OrderedMaps.Keys(jobs)
      ensures r.Some? ==> OrderedMaps.Get(jobs, id) == Some(r.value.job)
                          && OrderedMaps.Get(companies, r.value.job.companyId) == Some(r.value.company)
                          && r.value.company.id == r.value.job.companyId
    {
      Queries.JobCarriesItsCompany(companies, jobs, id);
      Queries.GetJob(companies, jobs, id)
    }

    /** `createApplication`: stores a new application under `id`, whether or not its user and
        its job are stored. */
    method CreateApplication(insertApplication: InsertApplication, id: Id, now: Timestamp) returns (application: Application)
      requires Valid()
      modifies this
      ensures Valid()
      ensures application == NewApplication(insertApplication, id, now)
      ensures applications == OrderedMaps.Set(old(applications), id, application)
      ensures id !in OrderedMaps.Keys(old(applications)) ==> applications == old(applications) + [(id, application)]
      ensures users == old(users) && companies == old(companies) && jobs == old(jobs)
      ensures courses == old(courses) && contacts == old(contacts)
    {
      application := NewApplication(insertApplication, id, now);
      OrderedMaps.SetUniqueKeys(applications, id, application);
      OrderedMaps.SetKeyedBy(applications, ApplicationKey, id, application);
      applications := OrderedMaps.Set(applications, id, application);
    }

    /** `getUserApplications`. */
    function GetUserApplications(userId: Id): (r: Result<seq<ApplicationWithJob>, JoinError>)
      reads this
      requires Valid()
      ensures r.Success? <==> forall i :: 0 <= i < |applications| && applications[i].1.userId == userId ==>
                                applications[i].1.jobId in OrderedMaps.Keys(jobs)
      ensures r.Success? ==> Queries.ApplicationsOf(r.value) == Sequences.Filter(Queries.HasUser(userId), OrderedMaps.Values(applications))
      ensures r.Success? ==> forall i :: 0 <= i < |r.value| ==>
                && r.value[i].application.userId == userId
                && OrderedMaps.Get(jobs, r.value[i].application.jobId) == Some(r.value[i].job.job)
                && OrderedMaps.Get(companies, r.value[i].job.job.companyId) == Some(r.value[i].job.company)
      ensures r.Failure? ==> exists i :: 0 <= i < |applications| && applications[i].1.userId == userId
                                         && r.error == JobNotFound(applications[i].1.jobId)
                                         && applications[i].1.jobId !in OrderedMaps.Keys(jobs)
    {
      Queries.UserApplicationsFailure(companies, jobs, applications, userId);
      Queries.UserApplicationsJoined(companies, jobs, applications, userId);
      Queries.UserApplicationsFailureNamesJob(companies, jobs, applications, userId);
      Queries.GetUserApplications(companies, jobs, applications, userId)
    }

    /** `getCourses`. */
    function GetCourses(category: Option<string>): (r: seq<Course>)
      reads this
      ensures forall c :: c in r <==> c in OrderedMaps.Values(courses) && (Truthy(category) ==> c.category == category.value)
      ensures !Truthy(category) ==> r == OrderedMaps.Values(courses)
      ensures Truthy(category) ==> r == Sequences.Filter(Queries.InCategory(category.value), OrderedMaps.Values(courses))
    {
      Queries.GetCourses(courses, category)
    }

    /** `getCourse`. */
    function GetCourse(id: Id): (r: Option<Course>)
      reads this
      requires Valid()
      ensures r.None? <==> id !in OrderedMaps.Keys(courses)
      ensures r.Some? ==> r.value.id == id && r.value in OrderedMaps.Values(courses)
    {
      Queries.GetCourse(courses, id)
    }

    /** `createContact`: stores a new contact message under `id`. */
    method CreateContact(insertContact: InsertContact, id: Id, now: Timestamp) returns (contact: Contact)
      requires Valid()
      modifies this
      ensures Valid()
      ensures contact == NewContact(insertContact, id, now)
      ensures contacts == OrderedMaps.Set(old(contacts), id, contact)
      ensures id !in OrderedMaps.Keys(old(contacts)) ==> contacts == old(contacts) + [(id, contact)]
      ensures users == old(users) && companies == old(companies) && jobs == old(jobs)
      ensures courses == old(courses) && applications == old(applications)
    {
      contact := NewContact(insertContact, id, now);
      OrderedMaps.SetUniqueKeys(contacts, id, contact);
      OrderedMaps.SetKeyedBy(contacts, ContactKey, id, contact);
      contacts := OrderedMaps.Set(contacts, id, contact);
    }
  }

  /** A user registered with an email no earlier user has logs in with the password they
      registered with. */
  lemma RegisteredUserCanLogIn(hasher: PasswordHash.Hasher, users: Queries.Table<User>, insert: InsertUser, id: Id, salt: string, now: Timestamp)
    requires PasswordHash.Sound(hasher)
    requires forall i :: 0 <= i < |users| ==> users[i].1.email != insert.email
    ensures var user := NewUser(hasher, insert, id, salt, now);
            Queries.ValidateUser(hasher, users + [(id, user)], insert.email, insert.password) == Some(user)
  {
    Queries.NewEmailFound(users, id, NewUser(hasher, insert, id, salt, now));
  }

  /** The same user is refused any other password, provided `compare` accepts only the
      plaintext a hash was made from. */
  lemma WrongPasswordRefused(hasher: PasswordHash.Hasher, users: Queries.Table<User>, insert: InsertUser, id: Id, salt: string, now: Timestamp, wrong: string)
    requires PasswordHash.Binding(hasher)
    requires forall i :: 0 <= i < |users| ==> users[i].1.email != insert.email
    requires wrong != insert.password
    ensures var user := NewUser(hasher, insert, id, salt, now);
            Queries.ValidateUser(hasher, users + [(id, user)], insert.email, wrong) == None
  {
  }

  function SeedCompanies(now: Timestamp): Queries.Table<Company> {
    [(AccentureId, SeedCompany(now))]
  }

  function SeedJobs(now: Timestamp): Queries.Table<Job> {
    [(SeedJobId, SeedJob(now))]
  }

  function SeedCourses(now: Timestamp): Queries.Table<Course> {
    [(SeedCourseId, SeedCourse(now))]
  }

  /** In a freshly constructed store, `getJob("job-1")` is the seed job joined with Accenture. */
  lemma SeedJobJoinedWithAccenture(now: Timestamp)
    ensures Queries.CompaniesResolve(SeedCompanies(now), SeedJobs(now))
    ensures Queries.GetJob(SeedCompanies(now), SeedJobs(now), SeedJobId) == Some(JobWithCompany(SeedJob(now), SeedCompany(now)))
    ensures Queries.GetJob(SeedCompanies(now), SeedJobs(now), SeedJobId).value.company.name == "Accenture"
    ensures Queries.GetJob(SeedCompanies(now), SeedJobs(now), SeedJobId).value.job.title == "Software Developer - Fresher"
  {
    assert OrderedMaps.Keys(SeedCompanies(now)) == [AccentureId];
  }

  /** In a freshly constructed store, the `fresher` filter keeps the seed job. */
  lemma SeedFresherJobListed(now: Timestamp)
    ensures Queries.CompaniesResolve(SeedCompanies(now), SeedJobs(now))
    ensures Queries.GetJobs(SeedCompanies(now), SeedJobs(now), Some(JobFilters(Some("fresher"), None, None)))
              == [JobWithCompany(SeedJob(now), SeedCompany(now))]
  {
    SeedJobJoinedWithAccenture(now);
    var all := [SeedJob(now)];
    assert OrderedMaps.Values(SeedJobs(now)) == all;
    assert Sequences.Filter(Queries.HasLevel("fresher"), all) == all by {
      assert all[1..] == [];
    }
    assert Queries.JoinCompanies(SeedCompanies(now), all) == [JobWithCompany(SeedJob(now), SeedCompany(now))] by {
      assert all[1..] == [];
      assert OrderedMaps.Get(SeedCompanies(now), AccentureId) == Some(SeedCompany(now));
    }
  }

  /** In a freshly constructed store, a filter on another level lists no job. */
  lemma SeedOtherLevelEmpty(now: Timestamp, level: string)
    requires level != "" && level != "fresher"
    ensures Queries.CompaniesResolve(SeedCompanies(now), SeedJobs(now))
    ensures Queries.GetJobs(SeedCompanies(now), SeedJobs(now), Some(JobFilters(Some(level), None, None))) == []
  {
    SeedJobJoinedWithAccenture(now);
    var all := [SeedJob(now)];
    assert OrderedMaps.Values(SeedJobs(now)) == all;
    assert Sequences.Filter(Queries.HasLevel(level), all) == [] by {
      assert all[1..] == [];
    }
  }

  /** In a freshly constructed store, the seed course is listed under its category. */
  lemma SeedCourseListed(now: Timestamp)
    ensures Queries.GetCourses(SeedCourses(now), Some("web-development")) == [SeedCourse(now)]
  {
  }

  /** In a freshly constructed store, a lookup in each table by an id not seeded in that table
      finds nothing. */
  lemma SeedUnknownIds(now: Timestamp, otherId: Id)
    ensures Queries.CompaniesResolve(SeedCompanies(now), SeedJobs(now))
    ensures otherId != SeedJobId ==> Queries.GetJob(SeedCompanies(now), SeedJobs(now), otherId) == None
    ensures otherId != AccentureId ==> Queries.GetCompany(SeedCompanies(now), otherId) == None
    ensures otherId != SeedCourseId ==> Queries.GetCourse(SeedCourses(now), otherId) == None
  {
    SeedJobJoinedWithAccenture(now);
    assert OrderedMaps.Keys(SeedJobs(now)) == [SeedJobId];
    assert OrderedMaps.Keys(SeedCourses(now)) == [SeedCourseId];
  }
}
