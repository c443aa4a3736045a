# MemStorage: the job portal's in-memory store, in Dafny

This project models `MemStorage`, the backend's data store. The store keeps six collections,
each a JavaScript `Map` from id to record: users, companies, jobs, courses, applications and
contact messages. A new store is seeded with one company (`accenture-id`), one `fresher` job at
that company (`job-1`) and one course (`html-course`). After that, records are only added: there
are create operations for users, applications and contact messages, and no operation updates or
deletes a record. The read operations answer from the current collections. Two of them return
joined views: a job with its company embedded, and an application with its job and that job's
company embedded.

Layout, one module per file:

- `wrappers.dfy` (`Wrappers`): `Option` stands for a result that may be `undefined`. `Result`
  stands for a call that may throw.
- `sequences.dfy` (`Sequences`): `Array.prototype.filter` and `Array.prototype.find`.
- `ordered_maps.dfy` (`OrderedMaps`): a JavaScript `Map` as its list of `(key, value)` entries in
  insertion order, with `get`, `set` and `values()`. `set` on a key already present overwrites
  the entry where it stands. On a new key it appends an entry.
- `password_hash.dfy` (`PasswordHash`): the bcrypt library as a `Hasher` value with two
  functions, `hash(plaintext, salt)` and `compare(plaintext, hash)`. The two properties the store
  relies on are predicates over that pair. `Sound`: `compare` accepts the plaintext a hash was
  made from, and a hash never equals its plaintext. `Binding`: `compare` accepts no other
  plaintext.
- `records.dfy` (`Records`): the six record types, the inputs of the create operations, the
  joined views and the error that a join on a missing job raises.
- `queries.dfy` (`Queries`): every read operation, as a function of the collections it reads,
  with the lemmas that relate them.
- `storage.dfy` (`Storage`): the seed records, the records the create operations build, and the
  class `MemStorage`. Its six fields are the collections. `Valid()` is the class invariant: one
  entry per key, each record stored under its own id, and every job's `companyId` names a stored
  company. The constructor establishes `Valid()` and every method keeps it. No operation adds a
  job or removes a company, so the invariant holds for the life of the store. The class's read
  functions call the `Queries` functions on the current fields.

Arguments stand for the program's sources of randomness and time. `id` is the value of
`randomUUID()`. `salt` is the salt bcrypt draws. `now` is the clock reading of `new Date()`.

Behaviour as the code is written, which the model keeps:

- Email uniqueness is not checked on registration. A later user with an email already in use is
  stored but can never be found by email, because `find` stops at the earlier user
  (`Queries.DuplicateEmailShadowed`).
- `getJobs` applies only `experienceLevel`, and only when it is a non-empty string. `location`
  and `search` are accepted and ignored. The value `"all"` is not special: it keeps only jobs
  whose level is literally `"all"`.
- `createApplication` does not check `userId` or `jobId`. When one of a user's applications names
  a job that is not stored, `getUserApplications` reads `companyId` of `undefined`. That throws a
  `TypeError`, so the user's whole listing fails. The model returns
  `Failure(JobNotFound(jobId))` for the first such application in insertion order.
- The `!` after `companies.get(job.companyId)` is a TypeScript annotation and does nothing at
  run time. A dangling `companyId` would give `company: undefined`, not an error. No store can
  reach that state, because `Valid()` holds. So the join functions require every job's company
  to be stored (`Queries.CompaniesResolve`).
- `initializeSampleData` is public. Calling it again on a live store overwrites the three seed
  records in place, with new timestamps. A create call whose `id` is already stored also
  overwrites that record in place, as `Map.set` does. No other operation changes a stored
  record.

## Model

| member | source | states |
|---|---|---|
| `Sequences.Filter` | backend/server/storage.ts:112 | `filter` keeps exactly the elements that satisfy the predicate, each as often as in the input, and no others |
| `Sequences.FilterAppend` | backend/server/storage.ts:141 | filtering distributes over concatenation, so results keep insertion order |
| `Sequences.Find` | backend/server/storage.ts:76 | `find` returns `undefined` exactly when no element matches; otherwise it returns a matching element with no match before it |
| `Sequences.FindIsFirstOfFilter` | backend/server/storage.ts:76 | `find` returns the head of what `filter` keeps with the same predicate |
| `Sequences.FindAppend` | backend/server/storage.ts:76 | searching a concatenation reaches the second part only when the first part has no match |
| `OrderedMaps.Get` | backend/server/storage.ts:105 | `Map.get` returns `undefined` exactly for a key never set; otherwise an entry stored under that key |
| `OrderedMaps.GetEntry` | backend/server/storage.ts:105 | in a map with one entry per key, `get` returns each entry's own value |
| `OrderedMaps.GetKeyedBy` | backend/server/storage.ts:89 | when each record is stored under its own id, a record `get` returns carries the id it was looked up by |
| `OrderedMaps.Set` | backend/server/storage.ts:89 | `Map.set` on a new key appends one entry and leaves the rest unchanged; on a present key it keeps the key order and changes only that entry |
| `OrderedMaps.SetThenGet` | backend/server/storage.ts:89 | after `set(k, v)`, `get(k)` is `v` and `get` answers as before for every other key |
| `OrderedMaps.SetUniqueKeys` | backend/server/storage.ts:89 | `set` never creates a second entry under one key |
| `OrderedMaps.ValuesAppend` | backend/server/storage.ts:141 | a newly appended entry's value comes last in `values()` |
| `Records.OrNull` | backend/server/storage.ts:85 | the `null` fallback gives `null` exactly for an absent or empty string and keeps any other value |
| `Queries.GetUserByEmail` | backend/server/storage.ts:75-77 | `undefined` exactly when no user has that email (case-sensitive); otherwise the earliest-inserted user with it |
| `Queries.NewEmailFound` | backend/server/storage.ts:75-77 | a user whose email no earlier user has is the user the email lookup finds |
| `Queries.DuplicateEmailShadowed` | backend/server/storage.ts:75-91 | registering a second user with an email already in use leaves the email lookup answering the earlier user |
| `Queries.ValidateUser` | backend/server/storage.ts:93-98 | a returned user is the very user `getUserByEmail` finds for that email; it has the email asked for, is stored, and `compare` accepts the password against its hash; an unknown email gives `undefined`, and so does a found user whose hash `compare` rejects |
| `Queries.GetCompanies` | backend/server/storage.ts:100-102 | every stored company, one per entry, in insertion order |
| `Queries.GetCompany` | backend/server/storage.ts:104-106 | `undefined` exactly for an id never inserted; otherwise the stored company with that id |
| `Queries.JoinCompany` | backend/server/storage.ts:116-117 | the view is the job plus the company stored under its `companyId` |
| `Queries.JoinCompanies` | backend/server/storage.ts:115-118 | one view per job, in order, each with the company stored under that job's `companyId` |
| `Queries.GetJobs` | backend/server/storage.ts:108-119 | the jobs listed are the stored jobs filtered by a truthy `experienceLevel`, or all stored jobs when there is none, in insertion order; each carries the company stored under its `companyId` |
| `Queries.JobsFilteredByLevel` | backend/server/storage.ts:111-113 | with a truthy level, a job is listed if and only if it is stored and has exactly that level |
| `Queries.UnfilteredJobsListAll` | backend/server/storage.ts:109-113 | with no filter object, or an absent or empty level, every stored job is listed in insertion order |
| `Queries.JobsIgnoreLocationAndSearch` | backend/server/storage.ts:108-113 | changing `location` or `search` never changes the result of `getJobs` |
| `Queries.JobsCarryTheirCompany` | backend/server/storage.ts:115-118 | every listed job's embedded company has the job's `companyId` as its id |
| `Queries.JobCarriesItsCompany` | backend/server/storage.ts:121-126 | the company embedded by `getJob` has the job's `companyId` as its id |
| `Queries.JoinedJobCarriesItsCompany` | backend/server/storage.ts:143-145 | the company embedded in an application's joined job has that job's `companyId` as its id |
| `Queries.GetJob` | backend/server/storage.ts:121-126 | `undefined` exactly for a job id never inserted; otherwise the stored job joined with the company under its `companyId` |
| `Queries.SetKeepsCompaniesResolved` | backend/server/storage.ts:33-56 | setting a company and a job that names it keeps every stored job's company stored |
| `Queries.JoinJob` | backend/server/storage.ts:143-145 | joining an application fails exactly when that job is not stored; otherwise it embeds that job and the job's company |
| `Queries.JoinJobs` | backend/server/storage.ts:142-146 | the map over applications succeeds exactly when every job resolves, and then gives one view per application in order, each with the job it names and that job's company |
| `Queries.JoinJobsFailsAtFirstMissing` | backend/server/storage.ts:142-146 | a failed map's model error names the job of the first application, in order, whose job is missing |
| `Queries.JoinJobsAppend` | backend/server/storage.ts:142-146 | joining one more resolvable application appends its view, or fails as before |
| `Queries.GetUserApplications` | backend/server/storage.ts:140-147 | a successful listing holds exactly `u`'s applications, in insertion order |
| `Queries.UserApplicationsFailure` | backend/server/storage.ts:140-147 | `getUserApplications(u)` throws if and only if one of `u`'s applications names a job that is not stored |
| `Queries.UserApplicationsFailureNamesJob` | backend/server/storage.ts:140-147 | when it throws, the model's error names the missing job of one of `u`'s applications |
| `Queries.UserApplicationsJoined` | backend/server/storage.ts:140-147 | a successful listing holds exactly `u`'s applications in insertion order, each with the job it names and that job's company |
| `Queries.NewApplicationListed` | backend/server/storage.ts:128-147 | after an application for a stored job, its user's listing is the old listing plus that one joined view at the end, or the same error as before |
| `Queries.DanglingApplicationBreaksListing` | backend/server/storage.ts:128-147 | after an application whose job is not stored, its user's listing throws |
| `Queries.OtherUsersApplicationsUnchanged` | backend/server/storage.ts:140-141 | an application by one user leaves every other user's listing unchanged |
| `Queries.GetCourses` | backend/server/storage.ts:149-155 | with a truthy category, exactly the stored courses of that category in insertion order; otherwise every stored course |
| `Queries.GetCourse` | backend/server/storage.ts:157-159 | `undefined` exactly for a course id never inserted; otherwise the stored course with that id |
| `Storage.NewUser` | backend/server/storage.ts:79-88 | the stored user has the given id, email, name and time; a falsy phone becomes `null`; the stored password is `hash` of the plaintext with the drawn salt; with a sound hasher the stored password is not the plaintext, and `compare` accepts the plaintext against it |
| `Storage.NewApplication` | backend/server/storage.ts:128-135 | the stored application takes `userId` and `jobId` unchecked; a falsy status becomes `null` |
| `Storage.NewContact` | backend/server/storage.ts:161-168 | the stored contact message carries the given fields, id and time |
| `Storage.SeedKeepsTablesValid` | backend/server/storage.ts:21-73 | seeding keeps one entry per key, each record under its own id, and every job's company stored |
| `Storage.MemStorage.constructor` | backend/server/storage.ts:17-19 | a new store holds the seed company, job and course and nothing else, and satisfies the invariant |
| `Storage.MemStorage.InitializeSampleData` | backend/server/storage.ts:21-73 | sets the three seed records under their ids, overwriting in place, keeps the invariant and changes no other collection |
| `Storage.MemStorage.SetSeedCompany` | backend/server/storage.ts:22-33 | sets the seed company under `accenture-id`, keeps the invariant and changes no other collection |
| `Storage.MemStorage.SetSeedJob` | backend/server/storage.ts:35-56 | with its company already stored, sets the seed job under `job-1`, keeps the invariant and changes no other collection |
| `Storage.MemStorage.SetSeedCourse` | backend/server/storage.ts:58-72 | sets the seed course under `html-course`, keeps the invariant and changes no other collection |
| `Storage.MemStorage.CreateUser` | backend/server/storage.ts:79-91 | stores the new user under `id`; with a fresh id, exactly one user is appended; no other collection changes |
| `Storage.MemStorage.CreateApplication` | backend/server/storage.ts:128-138 | stores the new application under `id` without checking its user or job; with a fresh id, exactly one is appended; no other collection changes |
| `Storage.MemStorage.CreateContact` | backend/server/storage.ts:161-171 | stores the new message under `id`; with a fresh id, exactly one is appended; no other collection changes |
| `Storage.MemStorage.GetUserByEmail` | backend/server/storage.ts:75-77 | `undefined` exactly when no stored user has that email; otherwise the earliest-inserted stored user with it |
| `Storage.MemStorage.ValidateUser` | backend/server/storage.ts:93-98 | the user the email lookup finds when `compare` accepts the password against its hash; `undefined` for an unknown email and for a password `compare` rejects |
| `Storage.MemStorage.GetCompanies` | backend/server/storage.ts:100-102 | every stored company, in insertion order |
| `Storage.MemStorage.GetCompany` | backend/server/storage.ts:104-106 | `undefined` exactly for an id not stored; otherwise the stored company with that id |
| `Storage.MemStorage.GetJobs` | backend/server/storage.ts:108-119 | the stored jobs, filtered by a truthy level or all of them, in insertion order, each with the company stored under its `companyId`, whose id is that `companyId` |
| `Storage.MemStorage.GetJob` | backend/server/storage.ts:121-126 | `undefined` exactly for a job id not stored; otherwise the stored job with the company stored under its `companyId`, whose id is that `companyId` |
| `Storage.MemStorage.GetUserApplications` | backend/server/storage.ts:140-147 | throws exactly when one of the user's applications names a job not stored, and the model's error names such a job; otherwise lists exactly that user's applications in insertion order, each with the job stored under its `jobId` and the company stored under that job's `companyId` |
| `Storage.MemStorage.GetCourses` | backend/server/storage.ts:149-155 | with a truthy category, exactly the stored courses of that category, in insertion order; otherwise every stored course in order |
| `Storage.MemStorage.GetCourse` | backend/server/storage.ts:157-159 | `undefined` exactly for a course id not stored; otherwise the stored course with that id |
| `Storage.RegisteredUserCanLogIn` | backend/server/storage.ts:79-98 | with a sound hasher, a user registered with an unused email validates with the password it registered with |
| `Storage.WrongPasswordRefused` | backend/server/storage.ts:93-98 | with a binding hasher, that user is refused every other password |
| `Storage.SeedJobJoinedWithAccenture` | backend/server/storage.ts:23-56 | in a new store, `getJob("job-1")` is the seed job "Software Developer - Fresher" joined with the company "Accenture" |
| `Storage.SeedFresherJobListed` | backend/server/storage.ts:44 | in a new store, the `fresher` filter lists the seed job with its company |
| `Storage.SeedOtherLevelEmpty` | backend/server/storage.ts:111-113 | in a new store, a filter on any other non-empty level lists nothing |
| `Storage.SeedCourseListed` | backend/server/storage.ts:66 | in a new store, the `web-development` category lists the seed course |
| `Storage.SeedUnknownIds` | backend/server/storage.ts:104-106 | in a new store, a job, company or course lookup by an id other than the one seeded in that table gives `undefined` |

## Left out

- bcrypt itself is not modelled: no salt generation, no cost factor (10 rounds), no timing and no constant-time comparison. `Sound` and `Binding` are hypotheses about the library. `Binding` idealises bcrypt, which compares only the first 72 bytes of a password.
- `randomUUID()` is not modelled. The id is an argument. A colliding id is treated as `Map.set` treats it: the old record is overwritten in place.
- `new Date()` and `Date.now()` are a `now` argument. The model uses one reading per operation, where the seed code reads the clock four times.
- Records are immutable values in the model. In the program, reads and creates return the stored objects themselves (for example `getCompany`, `getCourses`, `createUser`), and the joined views of `getJobs`, `getJob` and `getUserApplications` embed the stored company and job objects. A caller that mutates a returned object therefore changes the store. That aliasing is not modelled.
- `async` and `Promise`: every operation completes synchronously. A thrown error is a `Failure` result.
- The module-level singleton `storage` (line 174) is not modelled. A store is constructed explicitly.
- The record types live in `shared/schema.ts`, which is not part of this model. The fields come from what `storage.ts` builds. Which fields may be `null` is inferred from the seed data and the `|| null` expressions.
- Truthiness is modelled for strings only. Filter values of other JavaScript types are not modelled.
- `Queries.GetJobs`, `Queries.GetJob` and `Queries.JoinCompany` require every job's company to be stored. As written, a dangling `companyId` would yield `company: undefined`. No reachable store has one.
- `Queries.GetUserApplications` states only the contents of a successful listing in its own contract. When it fails, and the joined views, are stated in the lemmas `Queries.UserApplicationsFailure`, `Queries.UserApplicationsFailureNamesJob` and `Queries.UserApplicationsJoined`. This keeps each proof small.
- `Queries.JoinJob`, `Queries.JoinJobsFailsAtFirstMissing`, `Queries.UserApplicationsFailureNamesJob`: the `TypeError` thrown at run time ("Cannot read properties of undefined (reading 'companyId')") names no job. The `jobId` carried by `JobNotFound` is the model's own addition, for stating which application broke the listing.
- The HTTP server (`backend/server/index.ts`), the frontend fetch wrapper and the build configuration are outside the store and are not modelled.
