/** The persistence layer as in-memory tables. Each SQL repository is a
    `Repository` whose `rows` map stands for the table, keyed by its primary
    key; the entity-specific filtered reads are functions over those rows. */
module Repositories {
  import opened Common
  import opened Models

  class Repository<K(==), V> {
    /** The table: primary key to stored row. */
    var rows: map<K, V>

    constructor (initial: map<K, V>)
      ensures rows == initial
    {
      rows := initial;
    }

    /** SELECT ... WHERE key: the row, or null when there is none. */
    function Read(key: K): Option<V>
      reads this
    {
      if key in rows then Some(rows[key]) else None
    }

    /** SELECT * (the order of the rows is not modelled). */
    function ReadAll(): map<K, V>
      reads this
    {
      rows
    }

    /** INSERT, which hands back the record it was given. A second row with
        the same primary key would be rejected by the database. */
    method Insert(key: K, row: V) returns (inserted: V)
      requires key !in rows
      modifies this
      ensures inserted == row
      ensures rows == old(rows)[key := row]
    {
      rows := rows[key := row];
      inserted := row;
    }

    /** UPDATE ... WHERE key: replaces the whole row; when no row has that key
        nothing happens (no affected-row check). */
    method Update(key: K, row: V)
      modifies this
      ensures rows == if key in old(rows) then old(rows)[key := row] else old(rows)
    {
      if key in rows {
        rows := rows[key := row];
      }
    }

    /** DELETE ... WHERE key: removes the row, if any. */
    method Delete(key: K)
      modifies this
      ensures rows == old(rows) - {key}
    {
      rows := rows - {key};
    }
  }

  /** Every row is stored under its own primary key, as `keyOf` reads it off
      the row. */
  ghost predicate KeysMatchIds<K, V>(rows: map<K, V>, keyOf: V -> K)
  {
    forall k :: k in rows ==> keyOf(rows[k]) == k
  }

  /** ReadAllByUserIdAsync: the guardians whose UserId equals the given id
      (a null UserId never matches). */
  function ReadAllByUserId(rows: map<Guid, ParentGuardian>, userId: UserId): map<Guid, ParentGuardian>
  {
    map k | k in rows && rows[k].userId == Some(userId) :: rows[k]
  }

  /** ReadByParentGuardianAsync: the patients whose ParentGuardianId is the given id. */
  function ReadByParentGuardian(rows: map<Guid, Patient>, parentGuardianId: Guid): map<Guid, Patient>
  {
    map k | k in rows && rows[k].parentGuardianId == parentGuardianId :: rows[k]
  }
}
