# GlucoseGurus Web API controllers in Dafny

This project models the controller layer of the GlucoseGurus Web API, a
record-keeping API for a pediatric diabetes-care app. Parents/guardians
register. Each guardian manages patients. Patients follow care pathways
("trajects") built from care moments. Doctors and notes are kept too.

Every controller handler runs the same short chain:

1. ask who the caller is;
2. for guardian-scoped data, check that the caller owns the guardian;
3. check that the referenced rows exist;
4. do one read or one write through a repository.

The model keeps that chain branch for branch, with the source's messages and
route names, including its spellings ("Docter", "TracjetCareMoment").

- `common.dfy`: `Option`, `Guid`, the caller's `UserId` and `ActionResult`.
  `ActionResult` has `Unauthorized`, `NotFound(msg)`, `BadRequest(msg)`,
  `Ok(value)`, `OkEmpty` (`Ok()` with no body), `Created(route, key, value)`
  and `NoContent`.
- `models.dfy`: one datatype per model class. It also holds the cap
  `MaxNumberOfParentGuardians = 1`.
- `repository.dfy`: each SQL repository becomes a `Repository<K, V>` object.
  Its `rows` map stands for the table. `Insert`, `Update` and `Delete` change
  the map in place. `ReadAllByUserId` and `ReadByParentGuardian` are the
  filtered reads. `KeysMatchIds` is the shared invariant that every row is
  stored under its own key.
- One file per controller. Each controller is a class that holds the
  repositories it was constructed with. The Get handlers are functions that
  read the tables. Add, Update and Delete are methods that modify only the
  one table they write. Each method's postcondition gives the result and the
  new table for every branch, and says which invariants the write keeps.
  Three invariants are tracked:
  - every row is stored under its own id;
  - no account owns more guardians than the cap;
  - every patient's (or traject-care-moment's) referenced rows exist.
- Small client methods build fresh repositories and run scenarios through
  the handlers, such as "the second guardian is refused" and "Delete leaves
  the other care moment of the same traject". They are proved by calling
  the handlers, through the handler methods' postconditions.

The caller's identity is an input (`Option<UserId>`), not a service call.
Guid generation is an input too: when Add reaches its insert, the record's
id is not yet in the table. On every path that refuses the request, Add
answers as the source does whatever id the body carries.

Where the tests and the controller code disagree, the model follows the code:

- NoteController performs no ownership or patient-existence checks.
- Every Delete except CareMomentController's answers `Ok()` (`OkEmpty`).
- PatientController.Add takes the guardian, traject and doctor ids as
  separate parameters and overwrites the body's fields with them.

## Model

| member | source | states |
|---|---|---|
| `Repositories.Repository.Insert` | GlucoseGurusWebApi.WebApi/Repositories/SqlParentGuardianRepository.cs:16-23 | insert returns the very record it was given and adds it under its key; nothing else changes |
| `Repositories.Repository.Update` | GlucoseGurusWebApi.WebApi/Repositories/SqlParentGuardianRepository.cs:49-55 | update replaces the whole row with that key; when no row has the key the table is unchanged |
| `Repositories.Repository.Delete` | GlucoseGurusWebApi.WebApi/Repositories/SqlParentGuardianRepository.cs:57-63 | delete removes exactly the row with that key (none if absent) |
| `ParentGuardianApi.OwnedAfterInsert` | GlucoseGurusWebApi.WebApi/Controllers/ParentGuardianController.cs:58-64 | inserting a guardian adds exactly one to its owner's count and leaves every other account's guardians unchanged |
| `ParentGuardianApi.CapPreservedByInsert` | GlucoseGurusWebApi.WebApi/Controllers/ParentGuardianController.cs:58-64 | if every account is within the cap and the caller is below it, the insert that Add performs keeps every account within the cap |
| `ParentGuardianApi.CapPreservedByReplace` | GlucoseGurusWebApi.WebApi/Controllers/ParentGuardianController.cs:75-82 | replacing a guardian by one with the same owner leaves each account's set of guardian ids unchanged, so the cap is kept |
| `ParentGuardianApi.CapPreservedByRemove` | GlucoseGurusWebApi.WebApi/Controllers/ParentGuardianController.cs:94-98 | removing a row never raises any account's guardian count, so the cap is kept |
| `ParentGuardianApi.ParentGuardianController.GetAll` | GlucoseGurusWebApi.WebApi/Controllers/ParentGuardianController.cs:25-35 | null caller gives Unauthorized; otherwise Ok with exactly the guardians whose UserId is the caller, with their stored values |
| `ParentGuardianApi.ParentGuardianController.Get` | GlucoseGurusWebApi.WebApi/Controllers/ParentGuardianController.cs:37-49 | null caller gives Unauthorized; an owned guardian gives Ok(it); a missing and a foreign guardian both give the same NotFound("ParentGuardian does not belong to the current user.") |
| `ParentGuardianApi.ParentGuardianController.Add` | GlucoseGurusWebApi.WebApi/Controllers/ParentGuardianController.cs:51-66 | null caller: Unauthorized, table unchanged (whatever id the body carries); caller owning >= MaxNumberOfParentGuardians, even with an already-stored id: BadRequest("Maximum number of parent guardians reached."), unchanged; else the body is stored with UserId forced to the caller and Created("readParentGuardian", id, stored) returned; the cap and key/id agreement are preserved |
| `ParentGuardianApi.ParentGuardianController.Update` | GlucoseGurusWebApi.WebApi/Controllers/ParentGuardianController.cs:68-85 | null caller: Unauthorized; missing or foreign guardian: NotFound, unchanged; else only the route entry is replaced, with Id = route id and UserId = caller, and Ok(stored) returned; no guardian ever changes owner; cap preserved |
| `ParentGuardianApi.ParentGuardianController.Delete` | GlucoseGurusWebApi.WebApi/Controllers/ParentGuardianController.cs:87-101 | null caller: Unauthorized; missing or foreign guardian: NotFound, unchanged; else exactly the route id is removed and Ok() returned; cap preserved |
| `ParentGuardianApi.SecondGuardianRefused` | GlucoseGurusWebApi.WebApi/Controllers/ParentGuardianController.cs:58-65 | on an empty table, an account's first Add is Created with UserId set to it and its second Add is BadRequest("Maximum number of parent guardians reached.") |
| `ParentGuardianApi.ForeignGuardianHidden` | GlucoseGurusWebApi.WebApi/Controllers/ParentGuardianController.cs:44-46 | a guardian created by one account reads as NotFound("ParentGuardian does not belong to the current user.") for another account, not as forbidden |
| `ParentGuardianApi.AddThenGet` | GlucoseGurusWebApi.WebApi/Controllers/ParentGuardianController.cs:37-66 | round trip: after a successful Add, Get on the new id returns Ok of the created guardian, which is the body with UserId set to the caller |
| `PatientApi.PatientController.GetAll` | GlucoseGurusWebApi.WebApi/Controllers/PatientController.cs:30-39 | null caller gives Unauthorized; otherwise Ok with every stored patient, with no ownership filter |
| `PatientApi.PatientController.Get` | GlucoseGurusWebApi.WebApi/Controllers/PatientController.cs:41-57 | missing patient: NotFound("Patient does not exist."); patient whose guardian is missing or foreign: NotFound("Patient does not belong to the current user."); otherwise Ok(patient) |
| `PatientApi.PatientController.GetByParentGuardian` | GlucoseGurusWebApi.WebApi/Controllers/PatientController.cs:59-72 | guardian ownership checked first (NotFound otherwise); then Ok with exactly the patients whose ParentGuardianId is the route id |
| `PatientApi.PatientController.Add` | GlucoseGurusWebApi.WebApi/Controllers/PatientController.cs:74-98 | checks guardian ownership, then traject existence, then doctor existence; the first failure (or a null caller) decides the answer and nothing is inserted, whatever id the body carries; on success the stored patient takes ParentGuardianId/TrajectId/DoctorId from the parameters, Created("ReadPatient", id, stored) is returned; referential integrity and key/id agreement are preserved |
| `PatientApi.PatientController.Update` | GlucoseGurusWebApi.WebApi/Controllers/PatientController.cs:100-129 | checks ownership, patient existence, traject, doctor in that order; on success replaces the patient at the route id with Id/ParentGuardianId/TrajectId/DoctorId forced from the parameters (re-parenting it to the route guardian, whatever its old guardian) and returns Ok(stored) |
| `PatientApi.PatientController.Delete` | GlucoseGurusWebApi.WebApi/Controllers/PatientController.cs:131-148 | checks guardian ownership, then patient existence; on success removes exactly that patient, whatever guardian it belongs to, and returns Ok() |
| `PatientApi.CrossGuardianDelete` | GlucoseGurusWebApi.WebApi/Controllers/PatientController.cs:138-147 | a caller who owns one guardian deletes a patient of another account's guardian by naming their own guardian in the route, although Get on that patient answers NotFound("Patient does not belong to the current user.") |
| `NoteApi.NoteController.GetAll` | GlucoseGurusWebApi.WebApi/Controllers/NoteController.cs:24-33 | null caller gives Unauthorized; otherwise Ok with every note, unfiltered |
| `NoteApi.NoteController.Get` | GlucoseGurusWebApi.WebApi/Controllers/NoteController.cs:35-47 | missing note: NotFound("Note does not exist."); otherwise Ok(stored note) |
| `NoteApi.NoteController.Add` | GlucoseGurusWebApi.WebApi/Controllers/NoteController.cs:49-58 | null caller: Unauthorized and the table unchanged, whatever id the body carries; any authenticated caller inserts the body as given, with no guardian or patient check, and gets Created("readNote", id, note) |
| `NoteApi.NoteController.Update` | GlucoseGurusWebApi.WebApi/Controllers/NoteController.cs:60-75 | missing id: NotFound, unchanged; otherwise the entry is replaced by the body with Id = route id and Ok(body) returned |
| `NoteApi.NoteController.Delete` | GlucoseGurusWebApi.WebApi/Controllers/NoteController.cs:77-91 | missing id: NotFound, unchanged; otherwise exactly that id is removed and Ok() returned |
| `NoteApi.NoteOpenToEveryAccount` | GlucoseGurusWebApi.WebApi/Controllers/NoteController.cs:35-91 | a note one account added can be read and deleted by any other authenticated account |
| `TrajectCareMomentApi.TrajectCareMomentController.GetAll` | GlucoseGurusWebApi.WebApi/Controllers/TrajectCareMomentController.cs:28-37 | null caller gives Unauthorized; otherwise Ok with every row |
| `TrajectCareMomentApi.TrajectCareMomentController.Get` | GlucoseGurusWebApi.WebApi/Controllers/TrajectCareMomentController.cs:39-51 | lookup by the exact (trajectId, careMomentId) pair; a missing pair gives NotFound("TracjetCareMoment does not exist or one of the related entities is missing.") |
| `TrajectCareMomentApi.TrajectCareMomentController.Add` | GlucoseGurusWebApi.WebApi/Controllers/TrajectCareMomentController.cs:53-70 | traject must exist, then the care moment; the first failure (or a null caller) decides the answer and nothing is inserted, even for an already-stored pair; otherwise the row is inserted at the body's key pair and Created("readTracjetCareMoment", both key parts, row) returned; referential integrity preserved |
| `TrajectCareMomentApi.TrajectCareMomentController.Update` | GlucoseGurusWebApi.WebApi/Controllers/TrajectCareMomentController.cs:72-88 | requires an existing pair (NotFound otherwise, unchanged); forces the body's keys to the route pair without re-checking traject or care moment; replaces that entry and returns Ok(stored) |
| `TrajectCareMomentApi.TrajectCareMomentController.Delete` | GlucoseGurusWebApi.WebApi/Controllers/TrajectCareMomentController.cs:90-103 | removes only the exact pair; every other row, including rows of the same traject, stays unchanged |
| `TrajectCareMomentApi.DeleteKeepsSiblings` | GlucoseGurusWebApi.WebApi/Controllers/TrajectCareMomentController.cs:97-102 | deleting one care moment of a traject leaves the traject's other care moment readable |
| `CareMomentApi.CareMomentController.GetAll` | GlucoseGurusWebApi.WebApi/Controllers/CareMomentController.cs:24-33 | null caller gives Unauthorized; otherwise Ok with every care moment |
| `CareMomentApi.CareMomentController.Get` | GlucoseGurusWebApi.WebApi/Controllers/CareMomentController.cs:35-47 | missing id: NotFound("CareMoment does not exist."); otherwise Ok(stored) |
| `CareMomentApi.CareMomentController.Add` | GlucoseGurusWebApi.WebApi/Controllers/CareMomentController.cs:49-58 | null caller: Unauthorized and the table unchanged, whatever id the body carries; any authenticated caller inserts the body and gets Created("readCareMoment", id, body) |
| `CareMomentApi.CareMomentController.Update` | GlucoseGurusWebApi.WebApi/Controllers/CareMomentController.cs:60-74 | missing id: NotFound, unchanged; otherwise the entry is replaced with Id forced to the route id |
| `CareMomentApi.CareMomentController.Delete` | GlucoseGurusWebApi.WebApi/Controllers/CareMomentController.cs:76-89 | missing id: NotFound, unchanged; otherwise exactly that id is removed and NoContent returned |
| `CareMomentApi.AddGetDelete` | GlucoseGurusWebApi.WebApi/Controllers/CareMomentController.cs:35-89 | round trip: a care moment read back after Add equals the one added, id included; after Delete, Get answers NotFound |
| `TrajectApi.TrajectController.GetAll` | GlucoseGurusWebApi.WebApi/Controllers/TrajectController.cs:24-33 | null caller gives Unauthorized; otherwise Ok with every traject |
| `TrajectApi.TrajectController.Get` | GlucoseGurusWebApi.WebApi/Controllers/TrajectController.cs:35-47 | missing id: NotFound("Traject does not exist."); otherwise Ok(stored) |
| `TrajectApi.TrajectController.Add` | GlucoseGurusWebApi.WebApi/Controllers/TrajectController.cs:49-58 | null caller: Unauthorized and the table unchanged, whatever id the body carries; any authenticated caller inserts the body and gets Created("readTraject", id, body) |
| `TrajectApi.TrajectController.Update` | GlucoseGurusWebApi.WebApi/Controllers/TrajectController.cs:60-74 | missing id: NotFound, unchanged; otherwise only that entry changes, with Id forced to the route id |
| `TrajectApi.TrajectController.Delete` | GlucoseGurusWebApi.WebApi/Controllers/TrajectController.cs:76-89 | missing id: NotFound, unchanged; otherwise that id is removed and Ok() returned |
| `TrajectApi.DeleteLeavesPatientDangling` | GlucoseGurusWebApi.WebApi/Controllers/TrajectController.cs:76-89 | deleting a traject does not look for patients on it: a patient created through PatientController.Add while the traject existed still reads as Ok(patient) through PatientController.Get afterwards, and its TrajectId names no stored traject |
| `DoctorApi.DoctorController.GetAll` | GlucoseGurusWebApi.WebApi/Controllers/DoctorController.cs:24-33 | null caller gives Unauthorized; otherwise Ok with every doctor |
| `DoctorApi.DoctorController.Get` | GlucoseGurusWebApi.WebApi/Controllers/DoctorController.cs:35-47 | missing id: NotFound("Docter does not exist."); otherwise Ok(stored) |
| `DoctorApi.DoctorController.Add` | GlucoseGurusWebApi.WebApi/Controllers/DoctorController.cs:49-58 | null caller: Unauthorized and the table unchanged, whatever id the body carries; any authenticated caller inserts the body and gets Created("ReadDocter", id, body) |
| `DoctorApi.DoctorController.Update` | GlucoseGurusWebApi.WebApi/Controllers/DoctorController.cs:60-74 | missing id: NotFound, unchanged; otherwise only that entry changes, with Id forced to the route id |
| `DoctorApi.DoctorController.Delete` | GlucoseGurusWebApi.WebApi/Controllers/DoctorController.cs:76-89 | missing id: NotFound, unchanged; otherwise that id is removed and Ok() returned |

Every handler's contract also states that a null caller gets `Unauthorized`
and that the table is unchanged, whatever the request carries. No handler's `modifies` clause names any
other table, so no other table changes either.

The repository reads have no rows of their own. They are definitions, and the
handler rows above carry what they promise:

- `Repository.Read` stands for `ReadAsync`
  (GlucoseGurusWebApi.WebApi/Repositories/SqlParentGuardianRepository.cs:25-31
  and its siblings).
- `Repository.ReadAll` stands for `ReadAllAsync` (same file, lines 33-39).
- `ReadAllByUserId` stands for `ReadAllByUserIdAsync` (same file, lines 41-47).
  `ParentGuardianController.GetAll` states what it returns.
- `ReadByParentGuardian` stands for the `ReadByParentGuardianAsync` call at
  GlucoseGurusWebApi.WebApi/Controllers/PatientController.cs:70.
  `PatientController.GetByParentGuardian` states what it returns.

`KeysMatchIds` (every row stored under its own key) is defined once in
`Repositories` and is given each entity's key accessor.

## Left out

- Authentication, logging, dependency injection, routing, OpenAPI and the
  Identity password policy (`Program.cs`) are hosting concerns. The caller's
  id is an input to each handler.
- SQL, Dapper and async/await: the repositories are in-memory maps. The
  following source details are not modelled:
  - column-name mismatches such as `TracjectId`/`DocterId` in the patient
    SQL, and `Name` in the note UPDATE;
  - `UserMood` not being inserted;
  - `IsCompleted` not being persisted.
- An Add that passes all its checks and then inserts a record whose id (or
  traject-care-moment key pair) is already stored. The database rejects it
  with a primary-key fault, which the controllers do not handle. Each Add
  therefore requires a fresh key only on the path that reaches the insert,
  standing for `Guid.NewGuid()`. Its refusal paths are modelled for every id.
- Persistence faults and the read-then-write race between a handler's
  checks and its write. Each handler runs atomically here. The database
  schema is not part of this model, so no foreign keys are assumed. With a
  foreign key from Patient to Traject, the traject Delete in
  `TrajectApi.DeleteLeavesPatientDangling` would be a database fault instead.
- As hosted, `TrajectCareMomentController` cannot be constructed.
  `Program.cs` (lines 51-56) registers no `ITrajectCareMomentRepository`, and
  `SqlTrajectCareMomentRepository` does not implement that interface. The
  model covers the controller's code as written, which no request reaches.
- The order of rows returned by the "read all" queries is unspecified. Those
  reads return maps keyed by id.
- The "readAll returns N records after N inserts" property is not a separate
  lemma. It follows from Add's postcondition, which adds exactly one key.
- Data-annotation validation (`[Required]`, `[Range(1,5)]`,
  `[StringLength(450)]`) is done by ASP.NET model binding, not by the
  controllers.
- The duplicate `Docter` and `TracjetCareMoment` model classes are naming
  drift. The model keeps one `Doctor`, and one `TrajectCareMoment` with the
  fields of `TracjetCareMoment` (the class the controller uses, which has no
  `IsCompleted`).
- `IPatientRepository` does not declare `ReadByParentGuardianAsync`,
  although `PatientController` calls it. It is modelled as the filter
  `ReadByParentGuardian`.
- `Guid` is an unbounded natural number. Only equality of ids matters.
