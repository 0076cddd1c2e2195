/** ParentGuardianController: owner-scoped CRUD over the guardian table. A
    guardian is visible only to the account whose id is its UserId, and one
    account may own at most MaxNumberOfParentGuardians guardians. */
module ParentGuardianApi {
  import opened Common
  import opened Models
  import opened Repositories

  const ReadRoute := "readParentGuardian"
  const NotOwnedMessage := "ParentGuardian does not belong to the current user."
  const MaxReachedMessage := "Maximum number of parent guardians reached."

  /** The guardian with this id exists and belongs to this account. */
  predicate Owns(rows: map<Guid, ParentGuardian>, parentGuardianId: Guid, userId: UserId)
  {
    parentGuardianId in rows && rows[parentGuardianId].userId == Some(userId)
  }

  /** No account owns more guardians than the cap allows. */
  ghost predicate WithinCap(rows: map<Guid, ParentGuardian>)
  {
    forall u: UserId :: |ReadAllByUserId(rows, u)| <= MaxNumberOfParentGuardians
  }

  /** The primary key of a stored ParentGuardian. */
  function IdOf(guardian: ParentGuardian): Guid
  {
    guardian.id
  }

  /** Inserting a row owned by `pg.userId` adds exactly one guardian to that
      account and leaves every other account's guardians as they were. */
  lemma {:induction false} OwnedAfterInsert(rows: map<Guid, ParentGuardian>, pg: ParentGuardian, userId: UserId)
    requires pg.id !in rows
    ensures pg.userId == Some(userId) ==>
      |ReadAllByUserId(rows[pg.id := pg], userId)| == |ReadAllByUserId(rows, userId)| + 1
    ensures pg.userId != Some(userId) ==>
      ReadAllByUserId(rows[pg.id := pg], userId) == ReadAllByUserId(rows, userId)
  {
    var before, after := ReadAllByUserId(rows, userId), ReadAllByUserId(rows[pg.id := pg], userId);
    if pg.userId == Some(userId) {
      assert after == before[pg.id := pg];
    } else {
      assert after == before;
    }
  }

  /** A successful Add keeps the cap: the count check lets the insert through
      only while the caller is below the cap. */
  lemma {:induction false} CapPreservedByInsert(rows: map<Guid, ParentGuardian>, pg: ParentGuardian)
    requires WithinCap(rows)
    requires pg.id !in rows && pg.userId.Some?
    requires |ReadAllByUserId(rows, pg.userId.value)| < MaxNumberOfParentGuardians
    ensures WithinCap(rows[pg.id := pg])
  {
    var after := rows[pg.id := pg];
    forall u: UserId
      ensures |ReadAllByUserId(after, u)| <= MaxNumberOfParentGuardians
    {
      OwnedAfterInsert(rows, pg, u);
    }
  }

  /** Replacing a row by one with the same owner changes no account's set of
      guardian ids, so the cap is kept. */
  lemma {:induction false} CapPreservedByReplace(rows: map<Guid, ParentGuardian>, id: Guid, pg: ParentGuardian)
    requires id in rows && rows[id].userId == pg.userId
    ensures forall u: UserId :: ReadAllByUserId(rows[id := pg], u).Keys == ReadAllByUserId(rows, u).Keys
    ensures WithinCap(rows) ==> WithinCap(rows[id := pg])
  {
    var after := rows[id := pg];
    forall u: UserId
      ensures ReadAllByUserId(after, u).Keys == ReadAllByUserId(rows, u).Keys
      ensures |ReadAllByUserId(after, u)| == |ReadAllByUserId(rows, u)|
    {
      var owned, owned' := ReadAllByUserId(rows, u), ReadAllByUserId(after, u);
      assert owned'.Keys == owned.Keys;
      assert |owned'.Keys| == |owned'| && |owned.Keys| == |owned|;
    }
  }

  /** Removing a row never gives an account more guardians, so the cap is kept. */
  lemma {:induction false} CapPreservedByRemove(rows: map<Guid, ParentGuardian>, id: Guid)
    ensures forall u: UserId :: |ReadAllByUserId(rows - {id}, u)| <= |ReadAllByUserId(rows, u)|
    ensures WithinCap(rows) ==> WithinCap(rows - {id})
  {
    var rest := rows - {id};
    forall u: UserId
      ensures |ReadAllByUserId(rest, u)| <= |ReadAllByUserId(rows, u)|
    {
      var before, after := ReadAllByUserId(rows, u), ReadAllByUserId(rest, u);
      if id in before {
        assert after == before - {id};
      } else {
        assert after == before;
      }
    }
  }

  class ParentGuardianController {
    const parentGuardians: Repository<Guid, ParentGuardian>

    constructor (parentGuardians: Repository<Guid, ParentGuardian>)
      ensures this.parentGuardians == parentGuardians
    {
      this.parentGuardians := parentGuardians;
    }

    /** GET parentGuardians: the caller's own guardians and no others. */
    function GetAll(userId: Option<UserId>): (r: ActionResult<map<Guid, ParentGuardian>>)
      reads parentGuardians
      ensures userId.None? ==> r == Unauthorized
      ensures userId.Some? ==> r.Ok?
      ensures userId.Some? ==> forall k :: k in r.value <==> Owns(parentGuardians.rows, k, userId.value)
      ensures userId.Some? ==> forall k :: k in r.value ==> k in parentGuardians.rows && r.value[k] == parentGuardians.rows[k]
    {
      match userId
      case None => Unauthorized
      case Some(u) => Ok(ReadAllByUserId(parentGuardians.rows, u))
    }

    /** GET parentGuardians/{id}: a missing guardian and one owned by another
        account give the same NotFound. */
    function Get(userId: Option<UserId>, parentGuardianId: Guid): (r: ActionResult<ParentGuardian>)
      reads parentGuardians
      ensures userId.None? ==> r == Unauthorized
      ensures userId.Some? && Owns(parentGuardians.rows, parentGuardianId, userId.value) ==>
        r == Ok(parentGuardians.rows[parentGuardianId])
      ensures userId.Some? && !Owns(parentGuardians.rows, parentGuardianId, userId.value) ==>
        r == NotFound(NotOwnedMessage)
    {
      match userId
      case None => Unauthorized
      case Some(u) =>
        match parentGuardians.Read(parentGuardianId)
        case None => NotFound(NotOwnedMessage)
        case Some(pg) => if pg.userId != Some(u) then NotFound(NotOwnedMessage) else Ok(pg)
    }

    /** POST parentGuardians: refuses a caller who already owns the maximum
        number of guardians; otherwise stores the body with UserId set to the
        caller, whatever the body said. */
    method Add(userId: Option<UserId>, newParentGuardian: ParentGuardian) returns (r: ActionResult<ParentGuardian>)
      requires userId.Some? && |ReadAllByUserId(parentGuardians.rows, userId.value)| < MaxNumberOfParentGuardians ==>
               newParentGuardian.id !in parentGuardians.rows
      modifies parentGuardians
      ensures userId.None? ==> r == Unauthorized && parentGuardians.rows == old(parentGuardians.rows)
      ensures userId.Some? && |ReadAllByUserId(old(parentGuardians.rows), userId.value)| >= MaxNumberOfParentGuardians ==>
        r == BadRequest(MaxReachedMessage) && parentGuardians.rows == old(parentGuardians.rows)
      ensures userId.Some? && |ReadAllByUserId(old(parentGuardians.rows), userId.value)| < MaxNumberOfParentGuardians ==>
        var stored := newParentGuardian.(userId := userId);
        && r == Created(ReadRoute, ById(newParentGuardian.id), stored)
        && parentGuardians.rows == old(parentGuardians.rows)[newParentGuardian.id := stored]
      ensures WithinCap(old(parentGuardians.rows)) ==> WithinCap(parentGuardians.rows)
      ensures KeysMatchIds(old(parentGuardians.rows), IdOf) ==> KeysMatchIds(parentGuardians.rows, IdOf)
    {
      if userId.None? {
        return Unauthorized;
      }
      var userParentGuardians := ReadAllByUserId(parentGuardians.rows, userId.value);
      if |userParentGuardians| >= MaxNumberOfParentGuardians {
        return BadRequest(MaxReachedMessage);
      }
      var pg := newParentGuardian.(userId := userId);
      if WithinCap(parentGuardians.rows) {
        CapPreservedByInsert(parentGuardians.rows, pg);
      }
      var created := parentGuardians.Insert(pg.id, pg);
      r := Created(ReadRoute, ById(created.id), created);
    }

    /** PUT parentGuardians/{id}: replaces an owned guardian, with Id forced to
        the route id and UserId to the caller; a guardian never changes owner. */
    method Update(userId: Option<UserId>, parentGuardianId: Guid, newParentGuardian: ParentGuardian)
      returns (r: ActionResult<ParentGuardian>)
      modifies parentGuardians
      ensures userId.None? ==> r == Unauthorized && parentGuardians.rows == old(parentGuardians.rows)
      ensures userId.Some? && !Owns(old(parentGuardians.rows), parentGuardianId, userId.value) ==>
        r == NotFound(NotOwnedMessage) && parentGuardians.rows == old(parentGuardians.rows)
      ensures userId.Some? && Owns(old(parentGuardians.rows), parentGuardianId, userId.value) ==>
        var stored := newParentGuardian.(id := parentGuardianId, userId := userId);
        && r == Ok(stored)
        && parentGuardians.rows == old(parentGuardians.rows)[parentGuardianId := stored]
      ensures parentGuardians.rows.Keys == old(parentGuardians.rows).Keys
      ensures forall k :: k in parentGuardians.rows ==> parentGuardians.rows[k].userId == old(parentGuardians.rows)[k].userId
      ensures WithinCap(old(parentGuardians.rows)) ==> WithinCap(parentGuardians.rows)
      ensures KeysMatchIds(old(parentGuardians.rows), IdOf) ==> KeysMatchIds(parentGuardians.rows, IdOf)
    {
      if userId.None? {
        return Unauthorized;
      }
      var existing := parentGuardians.Read(parentGuardianId);
      if existing.None? || existing.value.userId != userId {
        return NotFound(NotOwnedMessage);
      }
      var pg := newParentGuardian.(id := parentGuardianId, userId := userId);
      CapPreservedByReplace(parentGuardians.rows, parentGuardianId, pg);
      parentGuardians.Update(parentGuardianId, pg);
      r := Ok(pg);
    }

    /** DELETE parentGuardians/{id}: removes an owned guardian and nothing else. */
    method Delete(userId: Option<UserId>, parentGuardianId: Guid) returns (r: ActionResult<ParentGuardian>)
      modifies parentGuardians
      ensures userId.None? ==> r == Unauthorized && parentGuardians.rows == old(parentGuardians.rows)
      ensures userId.Some? && !Owns(old(parentGuardians.rows), parentGuardianId, userId.value) ==>
        r == NotFound(NotOwnedMessage) && parentGuardians.rows == old(parentGuardians.rows)
      ensures userId.Some? && Owns(old(parentGuardians.rows), parentGuardianId, userId.value) ==>
        r == OkEmpty && parentGuardians.rows == old(parentGuardians.rows) - {parentGuardianId}
      ensures WithinCap(old(parentGuardians.rows)) ==> WithinCap(parentGuardians.rows)
      ensures KeysMatchIds(old(parentGuardians.rows), IdOf) ==> KeysMatchIds(parentGuardians.rows, IdOf)
    {
      if userId.None? {
        return Unauthorized;
      }
      var existing := parentGuardians.Read(parentGuardianId);
      if existing.None? || existing.value.userId != userId {
        return NotFound(NotOwnedMessage);
      }
      CapPreservedByRemove(parentGuardians.rows, parentGuardianId);
      parentGuardians.Delete(parentGuardianId);
      r := OkEmpty;
    }
  }

  /** One account creates a guardian, then tries to create a second one: the
      first is stored under the caller, the second is refused. */
  method SecondGuardianRefused(userId: UserId, first: ParentGuardian, second: ParentGuardian)
    returns (r1: ActionResult<ParentGuardian>, r2: ActionResult<ParentGuardian>)
    requires first.id != second.id
    ensures r1 == Created(ReadRoute, ById(first.id), first.(userId := Some(userId)))
    ensures r2 == BadRequest(MaxReachedMessage)
  {
    var table := new Repository<Guid, ParentGuardian>(map[]);
    var controller := new ParentGuardianController(table);
    assert ReadAllByUserId(map[], userId) == map[];
    r1 := controller.Add(Some(userId), first);
    OwnedAfterInsert(map[], first.(userId := Some(userId)), userId);
    r2 := controller.Add(Some(userId), second);
  }

  /** A guardian that one account created is reported as not belonging to
      another account, not as forbidden. */
  method ForeignGuardianHidden(owner: UserId, other: UserId, body: ParentGuardian)
    returns (created: ActionResult<ParentGuardian>, read: ActionResult<ParentGuardian>)
    requires owner != other
    ensures created.Created?
    ensures read == NotFound(NotOwnedMessage)
  {
    var table := new Repository<Guid, ParentGuardian>(map[]);
    var controller := new ParentGuardianController(table);
    assert ReadAllByUserId(map[], owner) == map[];
    created := controller.Add(Some(owner), body);
    read := controller.Get(Some(other), body.id);
  }

  /** Round trip: after a successful Add, Get on the new id returns the stored
      guardian, owned by the caller. */
  method AddThenGet(initial: map<Guid, ParentGuardian>, userId: UserId, body: ParentGuardian)
    returns (created: ActionResult<ParentGuardian>, read: ActionResult<ParentGuardian>)
    requires body.id !in initial
    requires |ReadAllByUserId(initial, userId)| < MaxNumberOfParentGuardians
    ensures created.Created? && read == Ok(created.value)
    ensures read.value == body.(userId := Some(userId))
  {
    var table := new Repository<Guid, ParentGuardian>(initial);
    var controller := new ParentGuardianController(table);
    created := controller.Add(Some(userId), body);
    read := controller.Get(Some(userId), body.id);
  }
}
