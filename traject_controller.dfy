/** TrajectController: CRUD over the global traject (care pathway) table,
    open to every authenticated caller. */
module TrajectApi {
  import opened Common
  import opened Models
  import opened Repositories
  import PatientApi

  const ReadRoute := "readTraject"
  const MissingMessage := "Traject does not exist."

  /** The primary key of a stored Traject. */
  function IdOf(traject: Traject): Guid
  {
    traject.id
  }

  class TrajectController {
    const trajects: Repository<Guid, Traject>

    constructor (trajects: Repository<Guid, Traject>)
      ensures this.trajects == trajects
    {
      this.trajects := trajects;
    }

    /** GET trajects: every traject. */
    function GetAll(userId: Option<UserId>): (r: ActionResult<map<Guid, Traject>>)
      reads trajects
      ensures userId.None? ==> r == Unauthorized
      ensures userId.Some? ==> r.Ok? && r.value.Keys == trajects.rows.Keys
      ensures userId.Some? ==> forall k :: k in r.value ==> r.value[k] == trajects.rows[k]
    {
      match userId
      case None => Unauthorized
      case Some(_) => Ok(trajects.ReadAll())
    }

    /** GET trajects/{id}. */
    function Get(userId: Option<UserId>, trajectId: Guid): (r: ActionResult<Traject>)
      reads trajects
      ensures userId.None? ==> r == Unauthorized
      ensures userId.Some? && trajectId !in trajects.rows ==> r == NotFound(MissingMessage)
      ensures userId.Some? && trajectId in trajects.rows ==> r == Ok(trajects.rows[trajectId])
    {
      match userId
      case None => Unauthorized
      case Some(_) =>
        match trajects.Read(trajectId)
        case None => NotFound(MissingMessage)
        case Some(traject) => Ok(traject)
    }

    /** POST trajects: stores the body once the caller is authenticated. */
    method Add(userId: Option<UserId>, newTraject: Traject) returns (r: ActionResult<Traject>)
      requires userId.Some? ==> newTraject.id !in trajects.rows
      modifies trajects
      ensures userId.None? ==> r == Unauthorized && trajects.rows == old(trajects.rows)
      ensures userId.Some? ==>
        && r == Created(ReadRoute, ById(newTraject.id), newTraject)
        && trajects.rows == old(trajects.rows)[newTraject.id := newTraject]
      ensures KeysMatchIds(old(trajects.rows), IdOf) ==> KeysMatchIds(trajects.rows, IdOf)
    {
      if userId.None? {
        return Unauthorized;
      }
      var traject := trajects.Insert(newTraject.id, newTraject);
      r := Created(ReadRoute, ById(traject.id), traject);
    }

    /** PUT trajects/{id}: replaces an existing traject, with Id forced
        to the route id. */
    method Update(userId: Option<UserId>, trajectId: Guid, updatedTraject: Traject)
      returns (r: ActionResult<Traject>)
      modifies trajects
      ensures userId.None? ==> r == Unauthorized && trajects.rows == old(trajects.rows)
      ensures userId.Some? && trajectId !in old(trajects.rows) ==>
        r == NotFound(MissingMessage) && trajects.rows == old(trajects.rows)
      ensures userId.Some? && trajectId in old(trajects.rows) ==>
        && r == Ok(updatedTraject.(id := trajectId))
        && trajects.rows == old(trajects.rows)[trajectId := updatedTraject.(id := trajectId)]
      ensures KeysMatchIds(old(trajects.rows), IdOf) ==> KeysMatchIds(trajects.rows, IdOf)
    {
      if userId.None? {
        return Unauthorized;
      }
      var traject := trajects.Read(trajectId);
      if traject.None? {
        return NotFound(MissingMessage);
      }
      var stored := updatedTraject.(id := trajectId);
      trajects.Update(trajectId, stored);
      r := Ok(stored);
    }

    /** DELETE trajects/{id}: removes an existing traject and answers Ok. */
    method Delete(userId: Option<UserId>, trajectId: Guid) returns (r: ActionResult<Traject>)
      modifies trajects
      ensures userId.None? ==> r == Unauthorized && trajects.rows == old(trajects.rows)
      ensures userId.Some? && trajectId !in old(trajects.rows) ==>
        r == NotFound(MissingMessage) && trajects.rows == old(trajects.rows)
      ensures userId.Some? && trajectId in old(trajects.rows) ==>
        r == OkEmpty && trajects.rows == old(trajects.rows) - {trajectId}
      ensures KeysMatchIds(old(trajects.rows), IdOf) ==> KeysMatchIds(trajects.rows, IdOf)
    {
      if userId.None? {
        return Unauthorized;
      }
      var traject := trajects.Read(trajectId);
      if traject.None? {
        return NotFound(MissingMessage);
      }
      trajects.Delete(trajectId);
      r := OkEmpty;
    }
  }

  /** Delete does not look for patients on the traject: a patient added
      through the patient handlers while the traject existed still reads as
      Ok after the traject is gone, and names a traject no longer stored. */
  method DeleteLeavesPatientDangling(userId: UserId, guardian: ParentGuardian, traject: Traject, doctor: Doctor,
                                     body: Patient)
    returns (created: ActionResult<Patient>, deleted: ActionResult<Traject>, read: ActionResult<Patient>,
             remaining: map<Guid, Traject>)
    requires guardian.userId == Some(userId)
    ensures created.Created? && created.value.trajectId == traject.id
    ensures deleted == OkEmpty
    ensures read == Ok(created.value)
    ensures read.value.trajectId !in remaining
  {
    var trajectTable := new Repository<Guid, Traject>(map[traject.id := traject]);
    var patientTable := new Repository<Guid, Patient>(map[]);
    var guardianTable := new Repository<Guid, ParentGuardian>(map[guardian.id := guardian]);
    var doctorTable := new Repository<Guid, Doctor>(map[doctor.id := doctor]);
    var patients := new PatientApi.PatientController(patientTable, guardianTable, doctorTable, trajectTable);
    var trajects := new TrajectController(trajectTable);
    created := patients.Add(Some(userId), guardian.id, traject.id, doctor.id, body);
    deleted := trajects.Delete(Some(userId), traject.id);
    read := patients.Get(Some(userId), body.id);
    remaining := trajectTable.ReadAll();
  }
}
