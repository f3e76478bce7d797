/**
 * The tokens table and TokenRepository. Lookups are functions over the rows,
 * so they cannot write; the writes are methods of the class that owns the rows.
 */
module Repository {
  import opened Wrappers
  import opened TokenEntity
  import opened Errors

  /** Autoincrement ids: strictly increasing in insertion order and below the next id. */
  predicate TableInvariant(rows: seq<Token>, nextId: nat)
  {
    (forall i, j :: 0 <= i < j < |rows| ==> rows[i].id < rows[j].id) &&
    (forall i :: 0 <= i < |rows| ==> rows[i].id < nextId)
  }

  /** The row createFor inserts: unused and not deleted. */
  function NewRecord(id: nat, owner: Owner, name: string, value: string, expiresAt: int): Token
  {
    Token(id, value, name, owner, expiresAt, None, None)
  }

  /** A visible row holding `value` for the type `name`. */
  predicate Holds(t: Token, value: string, name: string)
  {
    !IsTrashed(t) && t.value == value && t.name == name
  }

  /** findByTokenAndName: the latest visible row with this value and type. */
  function FindByTokenAndName(rows: seq<Token>, value: string, name: string): (r: Option<Token>)
    ensures r.None? <==> forall i :: 0 <= i < |rows| ==> !Holds(rows[i], value, name)
    ensures r.Some? ==> r.value in rows && Holds(r.value, value, name)
    ensures r.Some? ==> forall i :: 0 <= i < |rows| && Holds(rows[i], value, name) ==> rows[i].id <= r.value.id
  {
    LatestWhere(rows, t => Holds(t, value, name))
  }

  /** getByTokenAndName: as findByTokenAndName, raising TokenNotFoundException for no row. */
  function GetByTokenAndName(rows: seq<Token>, value: string, name: string): (r: Result<Token>)
    ensures r.Err? <==> forall i :: 0 <= i < |rows| ==> !Holds(rows[i], value, name)
    ensures r.Err? ==> r.error == NotFound(value, name)
    ensures r.Ok? ==> Some(r.value) == FindByTokenAndName(rows, value, name)
  {
    match FindByTokenAndName(rows, value, name)
    case None => Err(NotFound(value, name))
    case Some(t) => Ok(t)
  }

  /** An active row of the type `name` belonging to `owner`. */
  predicate ActiveFor(t: Token, owner: Owner, name: string, now: int)
  {
    IsActive(t, now) && ForTokenable(t, owner) && t.name == name
  }

  /**
   * findActiveByNameFor: some active row of this type and owner. The query has
   * no order; the model answers with the first in table order, and the
   * contract promises only "some such row".
   */
  function FindActiveByNameFor(rows: seq<Token>, owner: Owner, name: string, now: int): (r: Option<Token>)
    ensures r.None? <==> forall i :: 0 <= i < |rows| ==> !ActiveFor(rows[i], owner, name, now)
    ensures r.Some? ==> r.value in rows && ActiveFor(r.value, owner, name, now)
  {
    if rows == [] then None
    else if ActiveFor(rows[0], owner, name, now) then Some(rows[0])
    else FindActiveByNameFor(rows[1..], owner, name, now)
  }

  /** The table after an `update ... where id = id` of the change `c`. */
  function UpdateWhere(rows: seq<Token>, id: nat, c: Change): (r: seq<Token>)
    ensures |r| == |rows|
    ensures forall i :: 0 <= i < |rows| ==> r[i] == if rows[i].id == id then Changed(rows[i], c) else rows[i]
  {
    if rows == [] then []
    else [if rows[0].id == id then Changed(rows[0], c) else rows[0]] + UpdateWhere(rows[1..], id, c)
  }

  /** An update by id keeps the ids, so it keeps the table invariant. */
  lemma {:induction false} UpdateWhereKeepsInvariant(rows: seq<Token>, nextId: nat, id: nat, c: Change)
    requires TableInvariant(rows, nextId)
    ensures TableInvariant(UpdateWhere(rows, id, c), nextId)
  {
    var r := UpdateWhere(rows, id, c);
    assert forall i :: 0 <= i < |rows| ==> r[i].id == rows[i].id;
  }

  /** With unique ids, an update by the id of a row changes that row and no other. */
  lemma {:induction false} UpdateWhereTouchesOneRow(rows: seq<Token>, nextId: nat, k: nat, c: Change)
    requires TableInvariant(rows, nextId) && k < |rows|
    ensures var r := UpdateWhere(rows, rows[k].id, c);
      r[k] == Changed(rows[k], c) && forall i :: 0 <= i < |rows| && i != k ==> r[i] == rows[i]
  {
    var r := UpdateWhere(rows, rows[k].id, c);
    forall i | 0 <= i < |rows| && i != k
      ensures r[i] == rows[i]
    {
      assert rows[i].id != rows[k].id by {
        if i < k { assert rows[i].id < rows[k].id; } else { assert rows[k].id < rows[i].id; }
      }
    }
  }

  /** Appending a row with the next id keeps the table invariant. */
  lemma {:induction false} AppendKeepsInvariant(rows: seq<Token>, nextId: nat, t: Token)
    requires TableInvariant(rows, nextId) && t.id == nextId
    ensures TableInvariant(rows + [t], nextId + 1)
  {
    var r := rows + [t];
    forall i, j | 0 <= i < j < |r|
      ensures r[i].id < r[j].id
    {
      if j < |rows| { assert r[i] == rows[i] && r[j] == rows[j]; }
      else { assert r[i] == rows[i] && r[j] == t; }
    }
  }

  /** The tokens table. */
  class TokenRepository {
    var rows: seq<Token>
    var nextId: nat

    ghost predicate Valid()
      reads this
    {
      TableInvariant(rows, nextId)
    }

    constructor ()
      ensures Valid() && rows == [] && nextId == 1
    {
      rows := [];
      nextId := 1;
    }

    /** createFor: insert a fresh row for the owner with the next id. */
    method CreateFor(owner: Owner, name: string, value: string, expiresAt: int) returns (t: Token)
      requires Valid()
      modifies this
      ensures Valid()
      ensures t == NewRecord(old(nextId), owner, name, value, expiresAt)
      ensures rows == old(rows) + [t] && nextId == old(nextId) + 1
    {
      t := NewRecord(nextId, owner, name, value, expiresAt);
      AppendKeepsInvariant(rows, nextId, t);
      rows := rows + [t];
      nextId := nextId + 1;
    }

    /** markAsUsed: set used_at of the row to now. */
    method MarkAsUsed(t: Token, now: int)
      requires Valid()
      modifies this`rows
      ensures Valid()
      ensures rows == UpdateWhere(old(rows), t.id, MarkUsed(now))
    {
      UpdateWhereKeepsInvariant(rows, nextId, t.id, MarkUsed(now));
      rows := UpdateWhere(rows, t.id, MarkUsed(now));
    }

    /** continueTo: move the expiry of the row to `date`. */
    method ContinueTo(t: Token, date: int)
      requires Valid()
      modifies this`rows
      ensures Valid()
      ensures rows == UpdateWhere(old(rows), t.id, Change.ContinueTo(date))
    {
      UpdateWhereKeepsInvariant(rows, nextId, t.id, Change.ContinueTo(date));
      rows := UpdateWhere(rows, t.id, Change.ContinueTo(date));
    }

    /** delete(): soft-delete the row, setting deleted_at to now. */
    method Delete(t: Token, now: int)
      requires Valid()
      modifies this`rows
      ensures Valid()
      ensures rows == UpdateWhere(old(rows), t.id, SoftDelete(now))
    {
      UpdateWhereKeepsInvariant(rows, nextId, t.id, SoftDelete(now));
      rows := UpdateWhere(rows, t.id, SoftDelete(now));
    }
  }
}
