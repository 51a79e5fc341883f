/** The ORM tables of the model. A table is a sequence of saved records kept
    in the order of Django's `ordering = ['-updated_at']`: saving a record
    (which refreshes its `auto_now` timestamp) puts it first. Every record has
    its primary key `id` and the `object_id` of the generic owner reference
    (the owner's `content_type` is not modelled: every owner is a workflow). */
module Tables {

  import opened Common

  /** A saved row: primary key, owner id and the entity's own fields. */
  datatype Record<D> = Record(id: Id, objectId: Id, fields: D)

  /** What a store helper leaves behind: the serialized listing it returns
      (None where the helper returns None) and the table after its writes. */
  datatype Written<D> = Written(listing: Option<seq<Record<D>>>, rows: seq<Record<D>>)

  /** No two rows share a primary key. */
  predicate IdsUnique<D(==,!new)>(rows: seq<Record<D>>)
  {
    forall i, j | 0 <= i < |rows| && 0 <= j < |rows| && i != j :: rows[i].id != rows[j].id
  }

  /** No two rows of the same owner share a key (a Django `UniqueConstraint`
      over `object_id` and the fields `key` selects). */
  predicate KeysUnique<D(==,!new), K(==)>(rows: seq<Record<D>>, key: D -> K)
  {
    forall i, j | 0 <= i < |rows| && 0 <= j < |rows| && i != j ::
      rows[i].objectId != rows[j].objectId || key(rows[i].fields) != key(rows[j].fields)
  }

  /** Some row of the table has primary key `id`. */
  predicate HasId<D(==,!new)>(rows: seq<Record<D>>, id: Id)
  {
    exists r | r in rows :: r.id == id
  }

  /** `Model.objects.get(id=id)`: the row with that primary key, if any. */
  function Get<D(==,!new)>(rows: seq<Record<D>>, id: Id): (r: Option<Record<D>>)
    ensures r.Some? ==> r.value in rows && r.value.id == id
    ensures r.None? <==> !HasId(rows, id)
  {
    if rows == [] then None
    else if rows[0].id == id then Some(rows[0])
    else Get(rows[1..], id)
  }

  /** The table without the row (if any) whose primary key is `id`. */
  function Without<D(==,!new)>(rows: seq<Record<D>>, id: Id): (out: seq<Record<D>>)
    ensures forall x :: x in out <==> x in rows && x.id != id
    ensures |out| <= |rows|
    ensures !HasId(rows, id) ==> out == rows
  {
    if rows == [] then []
    else if rows[0].id == id then Without(rows[1..], id)
    else [rows[0]] + Without(rows[1..], id)
  }

  /** `instance.save()`: the row replaces any row with its primary key and,
      being the most recently updated, comes first. */
  function Save<D(==,!new)>(rows: seq<Record<D>>, r: Record<D>): (out: seq<Record<D>>)
    ensures out != [] && out[0] == r
    ensures forall x :: x in out <==> x == r || (x in rows && x.id != r.id)
  {
    [r] + Without(rows, r.id)
  }

  /** `sub` is `s` with some elements left out and the others in their
      order. */
  predicate Subsequence<T(==)>(sub: seq<T>, s: seq<T>)
  {
    if sub == [] then true
    else if s == [] then false
    else if sub[0] == s[0] then Subsequence(sub[1..], s[1..])
    else Subsequence(sub, s[1..])
  }

  /** `Model.objects.filter(object_id=owner)`: the owner's rows, each as
      often as the table holds it, in table order. */
  function Owned<D(==,!new)>(rows: seq<Record<D>>, owner: Id): (out: seq<Record<D>>)
    ensures forall x :: x in out <==> x in rows && x.objectId == owner
    ensures forall x :: multiset(out)[x] == if x.objectId == owner then multiset(rows)[x] else 0
    ensures |out| <= |rows|
  {
    if rows == [] then []
    else
      assert rows == [rows[0]] + rows[1..];
      if rows[0].objectId == owner then [rows[0]] + Owned(rows[1..], owner)
      else Owned(rows[1..], owner)
  }

  /** The owner's rows keep their table order. */
  lemma {:induction false} OwnedInOrder<D(!new)>(rows: seq<Record<D>>, owner: Id)
    ensures Subsequence(Owned(rows, owner), rows)
  {
    if rows != [] {
      OwnedInOrder(rows[1..], owner);
      var rest := Owned(rows[1..], owner);
      if rows[0].objectId != owner && rest != [] {
        assert rest[0] in rest;
      }
    }
  }

  /** A primary key not used by any row (uuid4 picks one; the model picks the
      least key above every key in use). */
  function FreshId<D(==,!new)>(rows: seq<Record<D>>): (id: Id)
    ensures forall x | x in rows :: x.id < id
    ensures !HasId(rows, id)
  {
    if rows == [] then 0
    else var rest := FreshId(rows[1..]);
      if rows[0].id < rest then rest else rows[0].id + 1
  }

  /** Saving a row whose key is new puts it in front of the unchanged table. */
  lemma SaveNew<D(!new)>(rows: seq<Record<D>>, r: Record<D>)
    requires !HasId(rows, r.id)
    ensures Save(rows, r) == [r] + rows
  {
  }

  /** Removing a key that is present (once) shortens the table by one. */
  lemma {:induction false} WithoutPresent<D(!new)>(rows: seq<Record<D>>, id: Id)
    requires IdsUnique(rows) && HasId(rows, id)
    ensures |Without(rows, id)| == |rows| - 1
  {
    TailUnique(rows, (d: D) => 0);
    if rows[0].id == id {
      forall y | y in rows[1..] ensures y.id != id {
        var k :| 0 <= k < |rows[1..]| && rows[1..][k] == y;
        assert rows[k + 1] == y;
      }
      assert !HasId(rows[1..], id);
    } else {
      var y :| y in rows && y.id == id;
      assert y in rows[1..] by { assert rows == [rows[0]] + rows[1..]; }
      WithoutPresent(rows[1..], id);
    }
  }

  /** Saving a row over an existing key keeps the table's length and leaves
      every other row where it was. */
  lemma SaveExisting<D(!new)>(rows: seq<Record<D>>, r: Record<D>)
    requires IdsUnique(rows) && HasId(rows, r.id)
    ensures |Save(rows, r)| == |rows|
    ensures Without(Save(rows, r), r.id) == Without(rows, r.id)
  {
    WithoutPresent(rows, r.id);
    var s := Save(rows, r);
    assert s[0].id == r.id && s[1..] == Without(rows, r.id);
    assert !HasId(Without(rows, r.id), r.id);
  }

  /** Saving a row identical to the stored one changes which rows the table
      holds not at all (only their order). */
  lemma SaveSame<D(!new)>(rows: seq<Record<D>>, r: Record<D>)
    requires IdsUnique(rows) && r in rows
    ensures forall x :: x in Save(rows, r) <==> x in rows
    ensures |Save(rows, r)| == |rows|
  {
    SaveExisting(rows, r);
    forall x | x in rows && x.id == r.id ensures x == r {
      var i :| 0 <= i < |rows| && rows[i] == x;
      var j :| 0 <= j < |rows| && rows[j] == r;
    }
  }

  // ---------------------------------------------------------------------------
  // Uniqueness under the table operations.

  lemma IdsUniqueCons<D(!new)>(x: Record<D>, rows: seq<Record<D>>)
    requires IdsUnique(rows)
    requires forall y | y in rows :: y.id != x.id
    ensures IdsUnique([x] + rows)
  {
    var s := [x] + rows;
    forall i, j | 0 <= i < |s| && 0 <= j < |s| && i != j ensures s[i].id != s[j].id {
      if i > 0 && j > 0 {
        assert s[i] == rows[i - 1] && s[j] == rows[j - 1];
      } else if i == 0 {
        assert s[j] in rows;
      } else {
        assert s[i] in rows;
      }
    }
  }

  lemma KeysUniqueCons<D(!new), K>(x: Record<D>, rows: seq<Record<D>>, key: D -> K)
    requires KeysUnique(rows, key)
    requires forall y | y in rows :: y.objectId != x.objectId || key(y.fields) != key(x.fields)
    ensures KeysUnique([x] + rows, key)
  {
    var s := [x] + rows;
    forall i, j | 0 <= i < |s| && 0 <= j < |s| && i != j
      ensures s[i].objectId != s[j].objectId || key(s[i].fields) != key(s[j].fields)
    {
      if i > 0 && j > 0 {
        assert s[i] == rows[i - 1] && s[j] == rows[j - 1];
      } else if i == 0 {
        assert s[j] in rows;
      } else {
        assert s[i] in rows;
      }
    }
  }

  lemma TailUnique<D(!new), K>(rows: seq<Record<D>>, key: D -> K)
    requires rows != []
    ensures IdsUnique(rows) ==> IdsUnique(rows[1..])
    ensures KeysUnique(rows, key) ==> KeysUnique(rows[1..], key)
  {
    var rest := rows[1..];
    forall i, j | 0 <= i < |rest| && 0 <= j < |rest| && i != j
      ensures rest[i] == rows[i + 1] && rest[j] == rows[j + 1]
    {
    }
  }

  lemma {:induction false} WithoutKeepsIdsUnique<D(!new)>(rows: seq<Record<D>>, id: Id)
    requires IdsUnique(rows)
    ensures IdsUnique(Without(rows, id))
  {
    if rows != [] {
      var rest := rows[1..];
      TailUnique(rows, (d: D) => 0);
      WithoutKeepsIdsUnique(rest, id);
      if rows[0].id != id {
        forall y | y in Without(rest, id) ensures y.id != rows[0].id {
          var k :| 0 <= k < |rest| && rest[k] == y;
          assert rows[k + 1] == y;
        }
        IdsUniqueCons(rows[0], Without(rest, id));
      }
    }
  }

  lemma {:induction false} WithoutKeepsKeysUnique<D(!new), K>(rows: seq<Record<D>>, id: Id, key: D -> K)
    requires KeysUnique(rows, key)
    ensures KeysUnique(Without(rows, id), key)
  {
    if rows != [] {
      var rest := rows[1..];
      TailUnique(rows, key);
      WithoutKeepsKeysUnique(rest, id, key);
      if rows[0].id != id {
        forall y | y in Without(rest, id)
          ensures y.objectId != rows[0].objectId || key(y.fields) != key(rows[0].fields)
        {
          var k :| 0 <= k < |rest| && rest[k] == y;
          assert rows[k + 1] == y;
        }
        KeysUniqueCons(rows[0], Without(rest, id), key);
      }
    }
  }

  /** Saving keeps both constraints when no other row of the same owner has
      the saved row's key. */
  lemma SaveKeepsUnique<D(!new), K>(rows: seq<Record<D>>, r: Record<D>, key: D -> K)
    requires IdsUnique(rows) && KeysUnique(rows, key)
    requires forall y | y in rows && y.id != r.id :: y.objectId != r.objectId || key(y.fields) != key(r.fields)
    ensures IdsUnique(Save(rows, r)) && KeysUnique(Save(rows, r), key)
  {
    WithoutKeepsIdsUnique(rows, r.id);
    WithoutKeepsKeysUnique(rows, r.id, key);
    IdsUniqueCons(r, Without(rows, r.id));
    KeysUniqueCons(r, Without(rows, r.id), key);
  }

  /** Saving keeps primary keys unique (for tables without a key constraint). */
  lemma SaveKeepsIdsUnique<D(!new)>(rows: seq<Record<D>>, r: Record<D>)
    requires IdsUnique(rows)
    ensures IdsUnique(Save(rows, r))
  {
    WithoutKeepsIdsUnique(rows, r.id);
    IdsUniqueCons(r, Without(rows, r.id));
  }

  /** In a table with unique primary keys, `Get` finds the one row with that key. */
  lemma GetUnique<D(!new)>(rows: seq<Record<D>>, x: Record<D>)
    requires IdsUnique(rows) && x in rows
    ensures Get(rows, x.id) == Some(x)
  {
    var g := Get(rows, x.id);
    var i :| 0 <= i < |rows| && rows[i] == x;
    var j :| 0 <= j < |rows| && rows[j] == g.value;
  }

  /** The owner's listing after a save: the saved row first (most recently
      updated) when it belongs to that owner, then the owner's other rows in
      their previous order. */
  lemma {:induction false} OwnedAfterSave<D(!new)>(rows: seq<Record<D>>, r: Record<D>, owner: Id)
    ensures Owned(Save(rows, r), owner) ==
      (if r.objectId == owner then [r] else []) + Owned(Without(rows, r.id), owner)
  {
    var s := Save(rows, r);
    assert s[0] == r && s[1..] == Without(rows, r.id);
  }
}
