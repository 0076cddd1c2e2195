/** CareMomentController: CRUD over the global care-moment table, open to
    every authenticated caller. Unlike the other controllers, Delete answers
    NoContent. */
module CareMomentApi {
  import opened Common
  import opened Models
  import opened Repositories

  const ReadRoute := "readCareMoment"
  const MissingMessage := "CareMoment does not exist."

  /** The primary key of a stored CareMoment. */
  function IdOf(careMoment: CareMoment): Guid
  {
    careMoment.id
  }

  class CareMomentController {
    const careMoments: Repository<Guid, CareMoment>

    constructor (careMoments: Repository<Guid, CareMoment>)
      ensures this.careMoments == careMoments
    {
      this.careMoments := careMoments;
    }

    /** GET careMoments: every care moment. */
    function GetAll(userId: Option<UserId>): (r: ActionResult<map<Guid, CareMoment>>)
      reads careMoments
      ensures userId.None? ==> r == Unauthorized
      ensures userId.Some? ==> r.Ok? && r.value.Keys == careMoments.rows.Keys
      ensures userId.Some? ==> forall k :: k in r.value ==> r.value[k] == careMoments.rows[k]
    {
      match userId
      case None => Unauthorized
      case Some(_) => Ok(careMoments.ReadAll())
    }

    /** GET careMoments/{id}. */
    function Get(userId: Option<UserId>, careMomentId: Guid): (r: ActionResult<CareMoment>)
      reads careMoments
      ensures userId.None? ==> r == Unauthorized
      ensures userId.Some? && careMomentId !in careMoments.rows ==> r == NotFound(MissingMessage)
      ensures userId.Some? && careMomentId in careMoments.rows ==> r == Ok(careMoments.rows[careMomentId])
    {
      match userId
      case None => Unauthorized
      case Some(_) =>
        match careMoments.Read(careMomentId)
        case None => NotFound(MissingMessage)
        case Some(careMoment) => Ok(careMoment)
    }

    /** POST careMoments: stores the body once the caller is authenticated. */
    method Add(userId: Option<UserId>, newCareMoment: CareMoment) returns (r: ActionResult<CareMoment>)
      requires userId.Some? ==> newCareMoment.id !in careMoments.rows
      modifies careMoments
      ensures userId.None? ==> r == Unauthorized && careMoments.rows == old(careMoments.rows)
      ensures userId.Some? ==>
        && r == Created(ReadRoute, ById(newCareMoment.id), newCareMoment)
        && careMoments.rows == old(careMoments.rows)[newCareMoment.id := newCareMoment]
      ensures KeysMatchIds(old(careMoments.rows), IdOf) ==> KeysMatchIds(careMoments.rows, IdOf)
    {
      if userId.None? {
        return Unauthorized;
      }
      var careMoment := careMoments.Insert(newCareMoment.id, newCareMoment);
      r := Created(ReadRoute, ById(careMoment.id), careMoment);
    }

    /** PUT careMoments/{id}: replaces an existing care moment, with Id forced
        to the route id. */
    method Update(userId: Option<UserId>, careMomentId: Guid, updatedCareMoment: CareMoment)
      returns (r: ActionResult<CareMoment>)
      modifies careMoments
      ensures userId.None? ==> r == Unauthorized && careMoments.rows == old(careMoments.rows)
      ensures userId.Some? && careMomentId !in old(careMoments.rows) ==>
        r == NotFound(MissingMessage) && careMoments.rows == old(careMoments.rows)
      ensures userId.Some? && careMomentId in old(careMoments.rows) ==>
        && r == Ok(updatedCareMoment.(id := careMomentId))
        && careMoments.rows == old(careMoments.rows)[careMomentId := updatedCareMoment.(id := careMomentId)]
      ensures KeysMatchIds(old(careMoments.rows), IdOf) ==> KeysMatchIds(careMoments.rows, IdOf)
    {
      if userId.None? {
        return Unauthorized;
      }
      var careMoment := careMoments.Read(careMomentId);
      if careMoment.None? {
        return NotFound(MissingMessage);
      }
      var stored := updatedCareMoment.(id := careMomentId);
      careMoments.Update(careMomentId, stored);
      r := Ok(stored);
    }

    /** DELETE careMoments/{id}: removes an existing care moment and answers
        NoContent. */
    method Delete(userId: Option<UserId>, careMomentId: Guid) returns (r: ActionResult<CareMoment>)
      modifies careMoments
      ensures userId.None? ==> r == Unauthorized && careMoments.rows == old(careMoments.rows)
      ensures userId.Some? && careMomentId !in old(careMoments.rows) ==>
        r == NotFound(MissingMessage) && careMoments.rows == old(careMoments.rows)
      ensures userId.Some? && careMomentId in old(careMoments.rows) ==>
        r == NoContent && careMoments.rows == old(careMoments.rows) - {careMomentId}
      ensures KeysMatchIds(old(careMoments.rows), IdOf) ==> KeysMatchIds(careMoments.rows, IdOf)
    {
      if userId.None? {
        return Unauthorized;
      }
      var careMoment := careMoments.Read(careMomentId);
      if careMoment.None? {
        return NotFound(MissingMessage);
      }
      careMoments.Delete(careMomentId);
      r := NoContent;
    }
  }

  /** Round trip: a care moment read back after Add equals the one added, id
      included; after Delete it is gone. */
  method AddGetDelete(initial: map<Guid, CareMoment>, userId: UserId, body: CareMoment)
    returns (read: ActionResult<CareMoment>, deleted: ActionResult<CareMoment>, readAgain: ActionResult<CareMoment>)
    requires body.id !in initial
    ensures read == Ok(body)
    ensures deleted == NoContent
    ensures readAgain == NotFound(MissingMessage)
  {
    var table := new Repository<Guid, CareMoment>(initial);
    var controller := new CareMomentController(table);
    var created := controller.Add(Some(userId), body);
    read := controller.Get(Some(userId), body.id);
    deleted := controller.Delete(Some(userId), body.id);
    readAgain := controller.Get(Some(userId), body.id);
  }
}
