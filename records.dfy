/** The records the store holds, as the store builds them, and the inputs of its create
    operations. Optional fields that may be `null` are `Option`s; timestamps are
    milliseconds since the Unix epoch. */
module Records {
  import opened Wrappers

  type Id = string

  type Timestamp = int

  datatype User = User(
    id: Id, email: string, fullName: string, phone: Option<string>,
    password: string, createdAt: Timestamp)

  datatype Company = Company(
    id: Id, name: string, description: Option<string>, website: Option<string>,
    linkedinUrl: Option<string>, logo: Option<string>, location: Option<string>,
    createdAt: Timestamp)

  datatype Job = Job(
    id: Id, companyId: Id, title: string, description: string, requirements: string,
    qualifications: string, skills: string, experienceLevel: string,
    experienceMin: int, experienceMax: int, location: string, jobType: string,
    salary: Option<string>, applyUrl: Option<string>, closingDate: Timestamp,
    batchEligible: Option<string>, isActive: bool, createdAt: Timestamp)

  datatype Course = Course(
    id: Id, title: string, description: string, instructor: string, duration: string,
    level: string, category: string, imageUrl: Option<string>, courseUrl: Option<string>,
    price: string, createdAt: Timestamp)

  datatype Application = Application(
    id: Id, userId: Id, jobId: Id, status: Option<string>, appliedAt: Timestamp)

  datatype Contact = Contact(
    id: Id, name: string, email: string, message: string, createdAt: Timestamp)

  /** What a caller hands to `createUser`: the password is still plaintext. */
  datatype InsertUser = InsertUser(
    email: string, fullName: string, phone: Option<string>, password: string)

  datatype InsertApplication = InsertApplication(userId: Id, jobId: Id, status: Option<string>)

  datatype InsertContact = InsertContact(name: string, email: string, message: string)

  /** The optional filter object of `getJobs`. */
  datatype JobFilters = JobFilters(
    experienceLevel: Option<string>, location: Option<string>, search: Option<string>)

  /** `{ ...job, company }`: a job with its company embedded. */
  datatype JobWithCompany = JobWithCompany(job: Job, company: Company)

  /** `{ ...app, job: { ...job, company } }`: an application with its job and company embedded. */
  datatype ApplicationWithJob = ApplicationWithJob(application: Application, job: JobWithCompany)

  /** Reading `companyId` of the `undefined` that `jobs.get` returned for an unknown job id
      throws a `TypeError`. */
  datatype JoinError = JobNotFound(jobId: Id)

  /** An optional string is truthy when it is present and not empty. */
  predicate Truthy(s: Option<string>) {
    s.Some? && s.value != ""
  }

  /** `s || null`: an absent or empty string becomes `null`. */
  function OrNull(s: Option<string>): (r: Option<string>)
    ensures r.None? <==> !Truthy(s)
    ensures r.Some? ==> r == s && r.value != ""
  {
    if Truthy(s) then s else None
  }

  function UserKey(u: User): Id { u.id }
  function CompanyKey(c: Company): Id { c.id }
  function JobKey(j: Job): Id { j.id }
  function CourseKey(c: Course): Id { c.id }
  function ApplicationKey(a: Application): Id { a.id }
  function ContactKey(c: Contact): Id { c.id }
}
