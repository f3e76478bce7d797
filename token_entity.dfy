/**
 * One row of the tokens table and the Eloquent scopes and predicates of
 * TokenEntity. Times are integer seconds on one clock; `now` is the
 * clock reading of the current request.
 */
module TokenEntity {
  import opened Wrappers

  /** The polymorphic owner reference of a row: (tokenable_type, tokenable_id). */
  datatype Owner = Owner(kind: string, id: int)

  /** A row of the tokens table (timestamps other than the three below are bookkeeping). */
  datatype Token = Token(
    id: nat,
    value: string,
    name: string,
    owner: Owner,
    expiresAt: int,
    usedAt: Option<int>,
    deletedAt: Option<int>)

  /** isExpired: the expiry lies strictly in the past (Carbon's isPast). */
  predicate IsExpired(t: Token, now: int)
  {
    t.expiresAt < now
  }

  /** isUsed: used_at is set. */
  predicate IsUsed(t: Token)
  {
    t.usedAt.Some?
  }

  /** The row was soft-deleted; the global soft-delete scope hides it. */
  predicate IsTrashed(t: Token)
  {
    t.deletedAt.Some?
  }

  /** The active scope, together with the soft-delete scope it runs under. */
  predicate IsActive(t: Token, now: int): (b: bool)
    ensures b ==> !IsDead(t, now) && !IsExpired(t, now) && !IsUsed(t)
  {
    !IsTrashed(t) && !IsUsed(t) && t.expiresAt > now
  }

  /** The dead scope, which runs without global scopes. */
  predicate IsDead(t: Token, now: int)
  {
    IsUsed(t) || t.expiresAt < now || IsTrashed(t)
  }

  /** The forTokenable scope. */
  predicate ForTokenable(t: Token, owner: Owner)
  {
    t.owner == owner
  }

  /** A change that TokenEntity writes to one row. */
  datatype Change =
    | MarkUsed(at: int)        // markAsUsed
    | ContinueTo(date: int)    // continueTo
    | SoftDelete(at: int)      // delete() under SoftDeletes

  /** The row after `c`: exactly one column is set, every other column is kept. */
  function Changed(t: Token, c: Change): (r: Token)
    ensures r.id == t.id && r.value == t.value && r.name == t.name && r.owner == t.owner
    ensures c.MarkUsed? ==> IsUsed(r) && r.usedAt == Some(c.at) && r == t.(usedAt := r.usedAt)
    ensures c.ContinueTo? ==> r.expiresAt == c.date && r == t.(expiresAt := r.expiresAt)
    ensures c.SoftDelete? ==> IsTrashed(r) && r.deletedAt == Some(c.at) && r == t.(deletedAt := r.deletedAt)
  {
    match c
    case MarkUsed(at) => t.(usedAt := Some(at))
    case ContinueTo(date) => t.(expiresAt := date)
    case SoftDelete(at) => t.(deletedAt := Some(at))
  }

  /** The row of `rows` with the highest id among those satisfying `p`. */
  function LatestWhere(rows: seq<Token>, p: Token -> bool): (r: Option<Token>)
    ensures r.None? <==> forall i :: 0 <= i < |rows| ==> !p(rows[i])
    ensures r.Some? ==> r.value in rows && p(r.value)
    ensures r.Some? ==> forall i :: 0 <= i < |rows| && p(rows[i]) ==> rows[i].id <= r.value.id
  {
    if rows == [] then None
    else
      var rest := LatestWhere(rows[1..], p);
      if !p(rows[0]) then rest
      else if rest.Some? && rest.value.id > rows[0].id then rest
      else Some(rows[0])
  }

  /** last(): the visible row with the highest id, or None where firstOrFail raises. */
  function Last(rows: seq<Token>): (r: Option<Token>)
    ensures r.None? <==> forall i :: 0 <= i < |rows| ==> IsTrashed(rows[i])
    ensures r.Some? ==> r.value in rows && !IsTrashed(r.value)
    ensures r.Some? ==> forall i :: 0 <= i < |rows| && !IsTrashed(rows[i]) ==> rows[i].id <= r.value.id
  {
    LatestWhere(rows, t => !IsTrashed(t))
  }

  /**
   * The active and dead scopes never share a row, and together they do not
   * cover the table: an unused, visible row expiring exactly now is in neither.
   */
  lemma ActiveAndDeadLeaveBoundary(now: int)
    ensures forall t :: !(IsActive(t, now) && IsDead(t, now))
    ensures forall t :: !IsUsed(t) && !IsTrashed(t) && t.expiresAt == now ==>
      !IsActive(t, now) && !IsDead(t, now) && !IsExpired(t, now)
  {
  }
}
