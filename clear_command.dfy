/** The tokens:clear console command: force-delete every dead row. */
module ClearCommand {
  import opened TokenEntity
  import opened Repository

  /** The rows that survive a force delete of the dead scope, in table order. */
  function Survivors(rows: seq<Token>, now: int): (r: seq<Token>)
    ensures forall t :: t in r <==> t in rows && !IsDead(t, now)
    ensures |r| <= |rows|
  {
    if rows == [] then []
    else
      var init := rows[..|rows| - 1];
      var last := rows[|rows| - 1];
      assert rows == init + [last];
      if IsDead(last, now) then Survivors(init, now) else Survivors(init, now) + [last]
  }

  /** Removing rows keeps the ids increasing. */
  lemma {:induction false} SurvivorsKeepInvariant(rows: seq<Token>, nextId: nat, now: int)
    requires TableInvariant(rows, nextId)
    ensures TableInvariant(Survivors(rows, now), nextId)
  {
    if rows != [] {
      var init := rows[..|rows| - 1];
      var last := rows[|rows| - 1];
      SurvivorsKeepInvariant(init, nextId, now);
      var kept := Survivors(init, now);
      if !IsDead(last, now) {
        forall i | 0 <= i < |kept|
          ensures kept[i].id < last.id
        {
          assert kept[i] in init;
          var k :| 0 <= k < |init| && init[k] == kept[i];
          assert rows[k] == kept[i];
        }
        AppendKeepsInvariant(kept, last.id, last);
      }
    }
  }

  /** A second run finds nothing more to delete. */
  lemma {:induction false} ClearIsIdempotent(rows: seq<Token>, now: int)
    ensures Survivors(Survivors(rows, now), now) == Survivors(rows, now)
  {
    if rows != [] {
      var init := rows[..|rows| - 1];
      var last := rows[|rows| - 1];
      ClearIsIdempotent(init, now);
      if !IsDead(last, now) {
        var kept := Survivors(init, now);
        assert (kept + [last])[..|kept + [last]| - 1] == kept;
      }
    }
  }

  /** A table without dead rows is left exactly as it is. */
  lemma {:induction false} ClearKeepsLiveTable(rows: seq<Token>, now: int)
    requires forall i :: 0 <= i < |rows| ==> !IsDead(rows[i], now)
    ensures Survivors(rows, now) == rows
  {
    if rows != [] {
      var init := rows[..|rows| - 1];
      ClearKeepsLiveTable(init, now);
      assert rows == init + [rows[|rows| - 1]];
    }
  }

  /** handle: TokenEntity::dead()->forceDelete(). */
  method Handle(repository: TokenRepository, now: int)
    requires repository.Valid()
    modifies repository`rows
    ensures repository.Valid()
    ensures repository.rows == Survivors(old(repository.rows), now)
  {
    SurvivorsKeepInvariant(repository.rows, repository.nextId, now);
    repository.rows := Survivors(repository.rows, now);
  }
}
