/** PatientController: patients reached through a guardian route. Every
    handler that names a guardian first checks that the caller owns it; Add
    and Update then check that the traject and the doctor exist. */
module PatientApi {
  import opened Common
  import opened Models
  import opened Repositories
  import ParentGuardianApi

  const ReadRoute := "ReadPatient"
  const GuardianNotOwnedMessage := "ParentGuardian does not belong to the current user."
  const PatientMissingMessage := "Patient does not exist."
  const PatientNotOwnedMessage := "Patient does not belong to the current user."
  const TrajectMissingMessage := "Traject does not exist."
  const DoctorMissingMessage := "Doctor does not exist."

  /** The primary key of a stored Patient. */
  function IdOf(patient: Patient): Guid
  {
    patient.id
  }

  /** Every patient's guardian, traject and doctor exist. */
  ghost predicate ReferencesResolve(
    patients: map<Guid, Patient>, parentGuardians: map<Guid, ParentGuardian>,
    trajects: map<Guid, Traject>, doctors: map<Guid, Doctor>)
  {
    forall k :: k in patients ==>
      && patients[k].parentGuardianId in parentGuardians
      && patients[k].trajectId in trajects
      && patients[k].doctorId in doctors
  }

  class PatientController {
    const patients: Repository<Guid, Patient>
    const parentGuardians: Repository<Guid, ParentGuardian>
    const doctors: Repository<Guid, Doctor>
    const trajects: Repository<Guid, Traject>

    constructor (patients: Repository<Guid, Patient>, parentGuardians: Repository<Guid, ParentGuardian>,
                 doctors: Repository<Guid, Doctor>, trajects: Repository<Guid, Traject>)
      ensures this.patients == patients && this.parentGuardians == parentGuardians
      ensures this.doctors == doctors && this.trajects == trajects
    {
      this.patients := patients;
      this.parentGuardians := parentGuardians;
      this.doctors := doctors;
      this.trajects := trajects;
    }

    /** The caller owns the guardian with this id. */
    predicate OwnsGuardian(parentGuardianId: Guid, userId: UserId)
      reads parentGuardians
    {
      ParentGuardianApi.Owns(parentGuardians.rows, parentGuardianId, userId)
    }

    /** GET ParentGuardians/Patients: every stored patient, whoever owns it. */
    function GetAll(userId: Option<UserId>): (r: ActionResult<map<Guid, Patient>>)
      reads patients
      ensures userId.None? ==> r == Unauthorized
      ensures userId.Some? ==> r.Ok? && r.value.Keys == patients.rows.Keys
      ensures userId.Some? ==> forall k :: k in r.value ==> r.value[k] == patients.rows[k]
    {
      match userId
      case None => Unauthorized
      case Some(_) => Ok(patients.ReadAll())
    }

    /** GET ParentGuardians/Patients/{patientId}: a missing patient and a
        patient whose guardian the caller does not own give different NotFounds. */
    function Get(userId: Option<UserId>, patientId: Guid): (r: ActionResult<Patient>)
      reads patients, parentGuardians
      ensures userId.None? ==> r == Unauthorized
      ensures userId.Some? && patientId !in patients.rows ==> r == NotFound(PatientMissingMessage)
      ensures userId.Some? && patientId in patients.rows ==>
        if OwnsGuardian(patients.rows[patientId].parentGuardianId, userId.value)
        then r == Ok(patients.rows[patientId])
        else r == NotFound(PatientNotOwnedMessage)
    {
      match userId
      case None => Unauthorized
      case Some(u) =>
        match patients.Read(patientId)
        case None => NotFound(PatientMissingMessage)
        case Some(patient) =>
          match parentGuardians.Read(patient.parentGuardianId)
          case None => NotFound(PatientNotOwnedMessage)
          case Some(pg) => if pg.userId != Some(u) then NotFound(PatientNotOwnedMessage) else Ok(patient)
    }

    /** GET ParentGuardians/{parentGuardianId}/Patients: after the ownership
        check, exactly the patients of that guardian. */
    function GetByParentGuardian(userId: Option<UserId>, parentGuardianId: Guid): (r: ActionResult<map<Guid, Patient>>)
      reads patients, parentGuardians
      ensures userId.None? ==> r == Unauthorized
      ensures userId.Some? && !OwnsGuardian(parentGuardianId, userId.value) ==> r == NotFound(GuardianNotOwnedMessage)
      ensures userId.Some? && OwnsGuardian(parentGuardianId, userId.value) ==>
        && r.Ok?
        && (forall k :: k in r.value <==> k in patients.rows && patients.rows[k].parentGuardianId == parentGuardianId)
        && (forall k :: k in r.value ==> k in patients.rows && r.value[k] == patients.rows[k])
    {
      match userId
      case None => Unauthorized
      case Some(u) =>
        match parentGuardians.Read(parentGuardianId)
        case None => NotFound(GuardianNotOwnedMessage)
        case Some(pg) =>
          if pg.userId != Some(u) then NotFound(GuardianNotOwnedMessage)
          else Ok(ReadByParentGuardian(patients.rows, parentGuardianId))
    }

    /** POST ParentGuardians/{parentGuardianId}/Patients: guardian ownership,
        then the traject, then the doctor; the first failing check decides the
        answer. The stored patient takes its guardian, traject and doctor from
        the request parameters, not from the body. */
    method Add(userId: Option<UserId>, parentGuardianId: Guid, trajectId: Guid, doctorId: Guid, newPatient: Patient)
      returns (r: ActionResult<Patient>)
      requires userId.Some? && OwnsGuardian(parentGuardianId, userId.value) && trajectId in trajects.rows &&
               doctorId in doctors.rows ==>
               newPatient.id !in patients.rows
      modifies patients
      ensures userId.None? ==> r == Unauthorized && patients.rows == old(patients.rows)
      ensures userId.Some? && !OwnsGuardian(parentGuardianId, userId.value) ==>
        r == NotFound(GuardianNotOwnedMessage) && patients.rows == old(patients.rows)
      ensures userId.Some? && OwnsGuardian(parentGuardianId, userId.value) && trajectId !in trajects.rows ==>
        r == NotFound(TrajectMissingMessage) && patients.rows == old(patients.rows)
      ensures userId.Some? && OwnsGuardian(parentGuardianId, userId.value) && trajectId in trajects.rows
              && doctorId !in doctors.rows ==>
        r == NotFound(DoctorMissingMessage) && patients.rows == old(patients.rows)
      ensures userId.Some? && OwnsGuardian(parentGuardianId, userId.value) && trajectId in trajects.rows
              && doctorId in doctors.rows ==>
        var stored := newPatient.(parentGuardianId := parentGuardianId, trajectId := trajectId, doctorId := doctorId);
        && r == Created(ReadRoute, ById(newPatient.id), stored)
        && patients.rows == old(patients.rows)[newPatient.id := stored]
      ensures KeysMatchIds(old(patients.rows), IdOf) ==> KeysMatchIds(patients.rows, IdOf)
      ensures ReferencesResolve(old(patients.rows), parentGuardians.rows, trajects.rows, doctors.rows) ==>
        ReferencesResolve(patients.rows, parentGuardians.rows, trajects.rows, doctors.rows)
    {
      if userId.None? {
        return Unauthorized;
      }
      var parentGuardian := parentGuardians.Read(parentGuardianId);
      if parentGuardian.None? || parentGuardian.value.userId != userId {
        return NotFound(GuardianNotOwnedMessage);
      }
      var traject := trajects.Read(trajectId);
      if traject.None? {
        return NotFound(TrajectMissingMessage);
      }
      var doctor := doctors.Read(doctorId);
      if doctor.None? {
        return NotFound(DoctorMissingMessage);
      }
      var patient := newPatient.(parentGuardianId := parentGuardianId, trajectId := trajectId, doctorId := doctorId);
      patient := patients.Insert(patient.id, patient);
      r := Created(ReadRoute, ById(patient.id), patient);
    }

    /** PUT ParentGuardians/{parentGuardianId}/Patients/{patientId}: guardian
        ownership, then the patient, then the traject, then the doctor. The
        patient's current guardian is not compared with the route guardian:
        the update moves the patient to the route guardian. */
    method Update(userId: Option<UserId>, parentGuardianId: Guid, trajectId: Guid, doctorId: Guid,
                  patientId: Guid, updatedPatient: Patient)
      returns (r: ActionResult<Patient>)
      modifies patients
      ensures userId.None? ==> r == Unauthorized && patients.rows == old(patients.rows)
      ensures userId.Some? && !OwnsGuardian(parentGuardianId, userId.value) ==>
        r == NotFound(GuardianNotOwnedMessage) && patients.rows == old(patients.rows)
      ensures userId.Some? && OwnsGuardian(parentGuardianId, userId.value) && patientId !in old(patients.rows) ==>
        r == NotFound(PatientMissingMessage) && patients.rows == old(patients.rows)
      ensures userId.Some? && OwnsGuardian(parentGuardianId, userId.value) && patientId in old(patients.rows)
              && trajectId !in trajects.rows ==>
        r == NotFound(TrajectMissingMessage) && patients.rows == old(patients.rows)
      ensures userId.Some? && OwnsGuardian(parentGuardianId, userId.value) && patientId in old(patients.rows)
              && trajectId in trajects.rows && doctorId !in doctors.rows ==>
        r == NotFound(DoctorMissingMessage) && patients.rows == old(patients.rows)
      ensures userId.Some? && OwnsGuardian(parentGuardianId, userId.value) && patientId in old(patients.rows)
              && trajectId in trajects.rows && doctorId in doctors.rows ==>
        var stored := updatedPatient.(id := patientId, parentGuardianId := parentGuardianId,
                                      trajectId := trajectId, doctorId := doctorId);
        && r == Ok(stored)
        && patients.rows == old(patients.rows)[patientId := stored]
      ensures KeysMatchIds(old(patients.rows), IdOf) ==> KeysMatchIds(patients.rows, IdOf)
      ensures ReferencesResolve(old(patients.rows), parentGuardians.rows, trajects.rows, doctors.rows) ==>
        ReferencesResolve(patients.rows, parentGuardians.rows, trajects.rows, doctors.rows)
    {
      if userId.None? {
        return Unauthorized;
      }
      var parentGuardian := parentGuardians.Read(parentGuardianId);
      if parentGuardian.None? || parentGuardian.value.userId != userId {
        return NotFound(GuardianNotOwnedMessage);
      }
      var patient := patients.Read(patientId);
      if patient.None? {
        return NotFound(PatientMissingMessage);
      }
      var traject := trajects.Read(trajectId);
      if traject.None? {
        return NotFound(TrajectMissingMessage);
      }
      var doctor := doctors.Read(doctorId);
      if doctor.None? {
        return NotFound(DoctorMissingMessage);
      }
      var stored := updatedPatient.(id := patientId, parentGuardianId := parentGuardianId,
                                    trajectId := trajectId, doctorId := doctorId);
      patients.Update(patientId, stored);
      r := Ok(stored);
    }

    /** DELETE ParentGuardians/{parentGuardianId}/Patients/{patientId}: guardian
        ownership, then the patient; the patient need not belong to the route
        guardian. */
    method Delete(userId: Option<UserId>, parentGuardianId: Guid, patientId: Guid) returns (r: ActionResult<Patient>)
      modifies patients
      ensures userId.None? ==> r == Unauthorized && patients.rows == old(patients.rows)
      ensures userId.Some? && !OwnsGuardian(parentGuardianId, userId.value) ==>
        r == NotFound(GuardianNotOwnedMessage) && patients.rows == old(patients.rows)
      ensures userId.Some? && OwnsGuardian(parentGuardianId, userId.value) && patientId !in old(patients.rows) ==>
        r == NotFound(PatientMissingMessage) && patients.rows == old(patients.rows)
      ensures userId.Some? && OwnsGuardian(parentGuardianId, userId.value) && patientId in old(patients.rows) ==>
        r == OkEmpty && patients.rows == old(patients.rows) - {patientId}
      ensures KeysMatchIds(old(patients.rows), IdOf) ==> KeysMatchIds(patients.rows, IdOf)
      ensures ReferencesResolve(old(patients.rows), parentGuardians.rows, trajects.rows, doctors.rows) ==>
        ReferencesResolve(patients.rows, parentGuardians.rows, trajects.rows, doctors.rows)
    {
      if userId.None? {
        return Unauthorized;
      }
      var parentGuardian := parentGuardians.Read(parentGuardianId);
      if parentGuardian.None? || parentGuardian.value.userId != userId {
        return NotFound(GuardianNotOwnedMessage);
      }
      var patient := patients.Read(patientId);
      if patient.None? {
        return NotFound(PatientMissingMessage);
      }
      patients.Delete(patientId);
      r := OkEmpty;
    }
  }

  /** A caller who owns one guardian can delete a patient of a guardian owned
      by another account, by naming their own guardian in the route; Get on
      the same patient would have answered NotFound. */
  method CrossGuardianDelete(owner: UserId, other: UserId, ownGuardian: ParentGuardian,
                             foreignGuardian: ParentGuardian, patient: Patient)
    returns (read: ActionResult<Patient>, deleted: ActionResult<Patient>, remaining: map<Guid, Patient>)
    requires owner != other && ownGuardian.id != foreignGuardian.id
    requires ownGuardian.userId == Some(owner) && foreignGuardian.userId == Some(other)
    requires patient.parentGuardianId == foreignGuardian.id
    ensures read == NotFound(PatientNotOwnedMessage)
    ensures deleted == OkEmpty
    ensures remaining == map[]
  {
    var patientTable := new Repository<Guid, Patient>(map[patient.id := patient]);
    var guardianTable := new Repository<Guid, ParentGuardian>(
      map[ownGuardian.id := ownGuardian, foreignGuardian.id := foreignGuardian]);
    var doctorTable := new Repository<Guid, Doctor>(map[]);
    var trajectTable := new Repository<Guid, Traject>(map[]);
    var controller := new PatientController(patientTable, guardianTable, doctorTable, trajectTable);
    read := controller.Get(Some(owner), patient.id);
    deleted := controller.Delete(Some(owner), ownGuardian.id, patient.id);
    remaining := patientTable.ReadAll();
  }
}
