/** TrajectCareMomentController: the join table binding care moments into
    trajects, keyed by the pair (trajectId, careMomentId). Only Add checks that
    the traject and the care moment exist. */
module TrajectCareMomentApi {
  import opened Common
  import opened Models
  import opened Repositories

  /** The primary key of a TrajectCareMoment row. */
  type Key = (Guid, Guid)

  const ReadRoute := "readTracjetCareMoment"
  const MissingMessage := "TracjetCareMoment does not exist or one of the related entities is missing."
  const TrajectMissingMessage := "Traject does not exist."
  const CareMomentMissingMessage := "CareMoment does not exist."

  /** The primary key of a stored TrajectCareMoment. */
  function KeyOf(row: TrajectCareMoment): Key
  {
    (row.trajectId, row.careMomentId)
  }

  /** Every row's traject and care moment exist. */
  ghost predicate ReferencesResolve(
    rows: map<Key, TrajectCareMoment>, trajects: map<Guid, Traject>, careMoments: map<Guid, CareMoment>)
  {
    forall k :: k in rows ==> rows[k].trajectId in trajects && rows[k].careMomentId in careMoments
  }

  class TrajectCareMomentController {
    const trajectCareMoments: Repository<Key, TrajectCareMoment>
    const trajects: Repository<Guid, Traject>
    const careMoments: Repository<Guid, CareMoment>

    constructor (trajectCareMoments: Repository<Key, TrajectCareMoment>, trajects: Repository<Guid, Traject>,
                 careMoments: Repository<Guid, CareMoment>)
      ensures this.trajectCareMoments == trajectCareMoments
      ensures this.trajects == trajects && this.careMoments == careMoments
    {
      this.trajectCareMoments := trajectCareMoments;
      this.trajects := trajects;
      this.careMoments := careMoments;
    }

    /** GET tracjetCareMoments: every row. */
    function GetAll(userId: Option<UserId>): (r: ActionResult<map<Key, TrajectCareMoment>>)
      reads trajectCareMoments
      ensures userId.None? ==> r == Unauthorized
      ensures userId.Some? ==> r.Ok? && r.value.Keys == trajectCareMoments.rows.Keys
      ensures userId.Some? ==> forall k :: k in r.value ==> r.value[k] == trajectCareMoments.rows[k]
    {
      match userId
      case None => Unauthorized
      case Some(_) => Ok(trajectCareMoments.ReadAll())
    }

    /** GET tracjetCareMoments/{trajectId}/{careMomentId}: the row with exactly
        this key pair. */
    function Get(userId: Option<UserId>, trajectId: Guid, careMomentId: Guid): (r: ActionResult<TrajectCareMoment>)
      reads trajectCareMoments
      ensures userId.None? ==> r == Unauthorized
      ensures userId.Some? && (trajectId, careMomentId) !in trajectCareMoments.rows ==> r == NotFound(MissingMessage)
      ensures userId.Some? && (trajectId, careMomentId) in trajectCareMoments.rows ==>
        r == Ok(trajectCareMoments.rows[(trajectId, careMomentId)])
    {
      match userId
      case None => Unauthorized
      case Some(_) =>
        match trajectCareMoments.Read((trajectId, careMomentId))
        case None => NotFound(MissingMessage)
        case Some(row) => Ok(row)
    }

    /** POST tracjetCareMoments: the traject must exist, then the care moment;
        the row is stored under the key pair the body names. */
    method Add(userId: Option<UserId>, newRow: TrajectCareMoment) returns (r: ActionResult<TrajectCareMoment>)
      requires userId.Some? && newRow.trajectId in trajects.rows && newRow.careMomentId in careMoments.rows ==>
               KeyOf(newRow) !in trajectCareMoments.rows
      modifies trajectCareMoments
      ensures userId.None? ==> r == Unauthorized && trajectCareMoments.rows == old(trajectCareMoments.rows)
      ensures userId.Some? && newRow.trajectId !in trajects.rows ==>
        r == NotFound(TrajectMissingMessage) && trajectCareMoments.rows == old(trajectCareMoments.rows)
      ensures userId.Some? && newRow.trajectId in trajects.rows && newRow.careMomentId !in careMoments.rows ==>
        r == NotFound(CareMomentMissingMessage) && trajectCareMoments.rows == old(trajectCareMoments.rows)
      ensures userId.Some? && newRow.trajectId in trajects.rows && newRow.careMomentId in careMoments.rows ==>
        && r == Created(ReadRoute, ByPair(newRow.trajectId, newRow.careMomentId), newRow)
        && trajectCareMoments.rows == old(trajectCareMoments.rows)[KeyOf(newRow) := newRow]
      ensures KeysMatchIds(old(trajectCareMoments.rows), KeyOf) ==> KeysMatchIds(trajectCareMoments.rows, KeyOf)
      ensures ReferencesResolve(old(trajectCareMoments.rows), trajects.rows, careMoments.rows) ==>
        ReferencesResolve(trajectCareMoments.rows, trajects.rows, careMoments.rows)
    {
      if userId.None? {
        return Unauthorized;
      }
      var traject := trajects.Read(newRow.trajectId);
      if traject.None? {
        return NotFound(TrajectMissingMessage);
      }
      var careMoment := careMoments.Read(newRow.careMomentId);
      if careMoment.None? {
        return NotFound(CareMomentMissingMessage);
      }
      var row := trajectCareMoments.Insert(KeyOf(newRow), newRow);
      r := Created(ReadRoute, ByPair(row.trajectId, row.careMomentId), row);
    }

    /** PUT tracjetCareMoments/{trajectId}/{careMomentId}: replaces an existing
        row, with both key parts forced to the route pair. The traject and the
        care moment are not looked up again: references stay resolved only
        because the row already stored under the route pair names them. */
    method Update(userId: Option<UserId>, trajectId: Guid, careMomentId: Guid, updatedRow: TrajectCareMoment)
      returns (r: ActionResult<TrajectCareMoment>)
      modifies trajectCareMoments
      ensures userId.None? ==> r == Unauthorized && trajectCareMoments.rows == old(trajectCareMoments.rows)
      ensures userId.Some? && (trajectId, careMomentId) !in old(trajectCareMoments.rows) ==>
        r == NotFound(MissingMessage) && trajectCareMoments.rows == old(trajectCareMoments.rows)
      ensures userId.Some? && (trajectId, careMomentId) in old(trajectCareMoments.rows) ==>
        var stored := updatedRow.(trajectId := trajectId, careMomentId := careMomentId);
        && r == Ok(stored)
        && trajectCareMoments.rows == old(trajectCareMoments.rows)[(trajectId, careMomentId) := stored]
      ensures KeysMatchIds(old(trajectCareMoments.rows), KeyOf) ==> KeysMatchIds(trajectCareMoments.rows, KeyOf)
      ensures KeysMatchIds(old(trajectCareMoments.rows), KeyOf) &&
              ReferencesResolve(old(trajectCareMoments.rows), trajects.rows, careMoments.rows) ==>
        ReferencesResolve(trajectCareMoments.rows, trajects.rows, careMoments.rows)
    {
      if userId.None? {
        return Unauthorized;
      }
      var existing := trajectCareMoments.Read((trajectId, careMomentId));
      if existing.None? {
        return NotFound(MissingMessage);
      }
      var stored := updatedRow.(trajectId := trajectId, careMomentId := careMomentId);
      trajectCareMoments.Update((trajectId, careMomentId), stored);
      r := Ok(stored);
    }

    /** DELETE tracjetCareMoments/{trajectId}/{careMomentId}: removes only the
        row with exactly this key pair; other rows of the same traject stay. */
    method Delete(userId: Option<UserId>, trajectId: Guid, careMomentId: Guid) returns (r: ActionResult<TrajectCareMoment>)
      modifies trajectCareMoments
      ensures userId.None? ==> r == Unauthorized && trajectCareMoments.rows == old(trajectCareMoments.rows)
      ensures userId.Some? && (trajectId, careMomentId) !in old(trajectCareMoments.rows) ==>
        r == NotFound(MissingMessage) && trajectCareMoments.rows == old(trajectCareMoments.rows)
      ensures userId.Some? && (trajectId, careMomentId) in old(trajectCareMoments.rows) ==>
        r == OkEmpty && trajectCareMoments.rows == old(trajectCareMoments.rows) - {(trajectId, careMomentId)}
      ensures forall k :: k in old(trajectCareMoments.rows) && k != (trajectId, careMomentId) ==>
        k in trajectCareMoments.rows && trajectCareMoments.rows[k] == old(trajectCareMoments.rows)[k]
      ensures KeysMatchIds(old(trajectCareMoments.rows), KeyOf) ==> KeysMatchIds(trajectCareMoments.rows, KeyOf)
      ensures ReferencesResolve(old(trajectCareMoments.rows), trajects.rows, careMoments.rows) ==>
        ReferencesResolve(trajectCareMoments.rows, trajects.rows, careMoments.rows)
    {
      if userId.None? {
        return Unauthorized;
      }
      var existing := trajectCareMoments.Read((trajectId, careMomentId));
      if existing.None? {
        return NotFound(MissingMessage);
      }
      trajectCareMoments.Delete((trajectId, careMomentId));
      r := OkEmpty;
    }
  }

  /** Two care moments in one traject: deleting one pair leaves the other
      readable. */
  method DeleteKeepsSiblings(userId: UserId, first: TrajectCareMoment, second: TrajectCareMoment)
    returns (deleted: ActionResult<TrajectCareMoment>, sibling: ActionResult<TrajectCareMoment>)
    requires first.trajectId == second.trajectId && first.careMomentId != second.careMomentId
    ensures deleted == OkEmpty
    ensures sibling == Ok(second)
  {
    var table := new Repository<Key, TrajectCareMoment>(map[KeyOf(first) := first, KeyOf(second) := second]);
    var trajectTable := new Repository<Guid, Traject>(map[]);
    var careMomentTable := new Repository<Guid, CareMoment>(map[]);
    var controller := new TrajectCareMomentController(table, trajectTable, careMomentTable);
    deleted := controller.Delete(Some(userId), first.trajectId, first.careMomentId);
    sibling := controller.Get(Some(userId), second.trajectId, second.careMomentId);
  }
}
