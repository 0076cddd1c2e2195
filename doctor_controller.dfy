/** DoctorController: CRUD over the global doctor table, open to every
    authenticated caller. Its route and message texts spell the entity
    "Docter". */
module DoctorApi {
  import opened Common
  import opened Models
  import opened Repositories

  const ReadRoute := "ReadDocter"
  const MissingMessage := "Docter does not exist."

  /** The primary key of a stored Doctor. */
  function IdOf(doctor: Doctor): Guid
  {
    doctor.id
  }

  class DoctorController {
    const doctors: Repository<Guid, Doctor>

    constructor (doctors: Repository<Guid, Doctor>)
      ensures this.doctors == doctors
    {
      this.doctors := doctors;
    }

    /** GET Docters: every doctor. */
    function GetAll(userId: Option<UserId>): (r: ActionResult<map<Guid, Doctor>>)
      reads doctors
      ensures userId.None? ==> r == Unauthorized
      ensures userId.Some? ==> r.Ok? && r.value.Keys == doctors.rows.Keys
      ensures userId.Some? ==> forall k :: k in r.value ==> r.value[k] == doctors.rows[k]
    {
      match userId
      case None => Unauthorized
      case Some(_) => Ok(doctors.ReadAll())
    }

    /** GET Docters/{id}. */
    function Get(userId: Option<UserId>, doctorId: Guid): (r: ActionResult<Doctor>)
      reads doctors
      ensures userId.None? ==> r == Unauthorized
      ensures userId.Some? && doctorId !in doctors.rows ==> r == NotFound(MissingMessage)
      ensures userId.Some? && doctorId in doctors.rows ==> r == Ok(doctors.rows[doctorId])
    {
      match userId
      case None => Unauthorized
      case Some(_) =>
        match doctors.Read(doctorId)
        case None => NotFound(MissingMessage)
        case Some(doctor) => Ok(doctor)
    }

    /** POST Docters: stores the body once the caller is authenticated. */
    method Add(userId: Option<UserId>, newDoctor: Doctor) returns (r: ActionResult<Doctor>)
      requires userId.Some? ==> newDoctor.id !in doctors.rows
      modifies doctors
      ensures userId.None? ==> r == Unauthorized && doctors.rows == old(doctors.rows)
      ensures userId.Some? ==>
        && r == Created(ReadRoute, ById(newDoctor.id), newDoctor)
        && doctors.rows == old(doctors.rows)[newDoctor.id := newDoctor]
      ensures KeysMatchIds(old(doctors.rows), IdOf) ==> KeysMatchIds(doctors.rows, IdOf)
    {
      if userId.None? {
        return Unauthorized;
      }
      var doctor := doctors.Insert(newDoctor.id, newDoctor);
      r := Created(ReadRoute, ById(doctor.id), doctor);
    }

    /** PUT Docters/{id}: replaces an existing doctor, with Id forced
        to the route id. */
    method Update(userId: Option<UserId>, doctorId: Guid, updatedDoctor: Doctor)
      returns (r: ActionResult<Doctor>)
      modifies doctors
      ensures userId.None? ==> r == Unauthorized && doctors.rows == old(doctors.rows)
      ensures userId.Some? && doctorId !in old(doctors.rows) ==>
        r == NotFound(MissingMessage) && doctors.rows == old(doctors.rows)
      ensures userId.Some? && doctorId in old(doctors.rows) ==>
        && r == Ok(updatedDoctor.(id := doctorId))
        && doctors.rows == old(doctors.rows)[doctorId := updatedDoctor.(id := doctorId)]
      ensures KeysMatchIds(old(doctors.rows), IdOf) ==> KeysMatchIds(doctors.rows, IdOf)
    {
      if userId.None? {
        return Unauthorized;
      }
      var doctor := doctors.Read(doctorId);
      if doctor.None? {
        return NotFound(MissingMessage);
      }
      var stored := updatedDoctor.(id := doctorId);
      doctors.Update(doctorId, stored);
      r := Ok(stored);
    }

    /** DELETE Docters/{id}: removes an existing doctor and answers Ok. */
    method Delete(userId: Option<UserId>, doctorId: Guid) returns (r: ActionResult<Doctor>)
      modifies doctors
      ensures userId.None? ==> r == Unauthorized && doctors.rows == old(doctors.rows)
      ensures userId.Some? && doctorId !in old(doctors.rows) ==>
        r == NotFound(MissingMessage) && doctors.rows == old(doctors.rows)
      ensures userId.Some? && doctorId in old(doctors.rows) ==>
        r == OkEmpty && doctors.rows == old(doctors.rows) - {doctorId}
      ensures KeysMatchIds(old(doctors.rows), IdOf) ==> KeysMatchIds(doctors.rows, IdOf)
    {
      if userId.None? {
        return Unauthorized;
      }
      var doctor := doctors.Read(doctorId);
      if doctor.None? {
        return NotFound(MissingMessage);
      }
      doctors.Delete(doctorId);
      r := OkEmpty;
    }
  }
}
