/**
 * One database table: rows keyed by an auto-incremented primary key. This
 * is the part of the object-relational mapper the models rely on:
 * `Model.objects.create(...)` inserts a row under a fresh key, and
 * `instance.save()` writes an instance's fields under its own key.
 */
module Store {

  function Max(a: int, b: int): int {
    if a < b then b else a
  }

  class Table<Row> {
    var rows: map<nat, Row>
    /** The key the next insertion receives; keys start at 1. */
    var nextId: nat

    /** Every stored key was handed out already, so `nextId` is fresh. */
    ghost predicate Valid()
      reads this
    {
      0 < nextId && forall id :: id in rows ==> id < nextId
    }

    constructor ()
      ensures Valid() && rows == map[] && nextId == 1
    {
      rows := map[];
      nextId := 1;
    }

    /** `objects.create(...)`: insert one row under a fresh key. */
    method Create(row: Row) returns (id: nat)
      requires Valid()
      modifies this
      ensures Valid()
      ensures id == old(nextId) && id !in old(rows)
      ensures rows == old(rows)[id := row] && nextId == id + 1
      ensures |rows| == |old(rows)| + 1
    {
      id := nextId;
      rows := rows[id := row];
      nextId := nextId + 1;
    }

    /**
     * `instance.save()`: write the row under its key, replacing what was
     * there, or inserting it when the key is not stored.
     */
    method Save(id: nat, row: Row)
      requires Valid()
      modifies this
      ensures Valid()
      ensures rows == old(rows)[id := row]
      ensures nextId == Max(old(nextId), id + 1)
    {
      rows := rows[id := row];
      nextId := Max(nextId, id + 1);
    }
  }
}
