/**
  * The contact manager: the `contacts` table (an AUTOINCREMENT integer id
  * plus name, phone, e-mail and notes), the four statements the helpers run
  * against it, and the add form's blank-name guard.
  *
  * The table is held as its rows in ascending id order, together with the
  * AUTOINCREMENT counter (the largest id ever issued, kept by SQLite in
  * `sqlite_sequence`). SQLite leaves the order of a `SELECT` without
  * `ORDER BY` unspecified; ascending rowid is what its full-table scan
  * produces, and the model fixes that scan order, so the ordering facts
  * below describe this model rather than a promise of the program.
  */
module Contacts {
  import PyStr
  import SqlLike
  import opened Wrappers

  /** The largest rowid SQLite can issue: 2^63 - 1. */
  const MaxRowId: int := 0x7FFF_FFFF_FFFF_FFFF

  /** One row of `contacts`; the form always supplies strings, so no column is NULL. */
  datatype Contact = Contact(id: int, name: string, phone: string, email: string, notes: string)

  /** What an INSERT does: the row is stored under a new id, or SQLite reports the table full. */
  datatype AddResult = Added(id: int) | Full

  /** What the add form does on submit. */
  datatype FormResult = Saved(id: int) | BlankName | Failed

  /** Ids strictly ascending: rowid order, and so no id twice. */
  predicate Ascending(rows: seq<Contact>)
  {
    forall i, j :: 0 <= i < j < |rows| ==> rows[i].id < rows[j].id
  }

  /** The row with the given id, as `SELECT ... WHERE id = ?` would find it. */
  function Lookup(rows: seq<Contact>, id: int): (r: Option<Contact>)
    ensures r.Some? <==> exists c :: c in rows && c.id == id
    ensures r.Some? ==> r.value in rows && r.value.id == id
  {
    if rows == [] then None
    else if rows[0].id == id then Some(rows[0])
    else Lookup(rows[1..], id)
  }

  /** The rows whose name or phone matches the LIKE pattern, in table order. */
  function Matching(rows: seq<Contact>, pattern: string): (r: seq<Contact>)
    ensures |r| <= |rows|
    ensures forall c :: c in r <==> c in rows && (SqlLike.Like(pattern, c.name) || SqlLike.Like(pattern, c.phone))
  {
    if rows == [] then []
    else
      var rest := Matching(rows[1..], pattern);
      var c := rows[0];
      if SqlLike.Like(pattern, c.name) || SqlLike.Like(pattern, c.phone) then
        assert forall d :: d in rest ==> d in rows[1..];
        [c] + rest
      else rest
  }

  /** A row put back in front of rows drawn from its own tail keeps ascending order. */
  lemma AscendingCons(rows: seq<Contact>, rest: seq<Contact>)
    requires rows != [] && Ascending(rows) && Ascending(rest)
    requires forall d :: d in rest ==> d in rows[1..]
    ensures Ascending([rows[0]] + rest)
  {
    var r := [rows[0]] + rest;
    forall i, j | 0 <= i < j < |r| ensures r[i].id < r[j].id {
      assert r[j] == rest[j - 1] && r[j] in rows[1..];
      var k :| 0 <= k < |rows[1..]| && rows[1..][k] == r[j];
      assert rows[k + 1] == r[j];
      if i > 0 {
        assert r[i] == rest[i - 1];
      }
    }
  }

  /** `UPDATE contacts SET name=?, phone=?, email=?, notes=? WHERE id=?`. */
  function Updated(rows: seq<Contact>, id: int, name: string, phone: string, email: string, notes: string): (r: seq<Contact>)
    ensures |r| == |rows|
    ensures forall i :: 0 <= i < |rows| ==>
      r[i] == if rows[i].id == id then Contact(id, name, phone, email, notes) else rows[i]
  {
    if rows == [] then []
    else
      var c := rows[0];
      [if c.id == id then Contact(id, name, phone, email, notes) else c]
      + Updated(rows[1..], id, name, phone, email, notes)
  }

  /** `DELETE FROM contacts WHERE id=?`. */
  function Deleted(rows: seq<Contact>, id: int): (r: seq<Contact>)
    ensures |r| <= |rows|
    ensures forall c :: c in r <==> c in rows && c.id != id
  {
    if rows == [] then []
    else
      var rest := Deleted(rows[1..], id);
      if rows[0].id == id then rest
      else
        assert forall d :: d in rest ==> d in rows[1..];
        [rows[0]] + rest
  }

  // ---- Properties of the table operations ----

  /** A search keeps the rows in ascending id order. */
  lemma {:induction false} MatchingKeepsOrder(rows: seq<Contact>, pattern: string)
    requires Ascending(rows)
    ensures Ascending(Matching(rows, pattern))
  {
    if rows != [] {
      MatchingKeepsOrder(rows[1..], pattern);
      var rest := Matching(rows[1..], pattern);
      if SqlLike.Like(pattern, rows[0].name) || SqlLike.Like(pattern, rows[0].phone) {
        AscendingCons(rows, rest);
      }
    }
  }

  /** A delete keeps the rows in ascending id order. */
  lemma {:induction false} DeletedKeepsOrder(rows: seq<Contact>, id: int)
    requires Ascending(rows)
    ensures Ascending(Deleted(rows, id))
  {
    if rows != [] {
      DeletedKeepsOrder(rows[1..], id);
      if rows[0].id != id {
        AscendingCons(rows, Deleted(rows[1..], id));
      }
    }
  }

  /** Ascending ids are unique ids. */
  lemma AscendingIdsUnique(rows: seq<Contact>, i: int, j: int)
    requires Ascending(rows) && 0 <= i < |rows| && 0 <= j < |rows| && i != j
    ensures rows[i].id != rows[j].id
  {
  }

  /** Updating keeps every id, so the rows stay in ascending id order. */
  lemma UpdatedKeepsOrder(rows: seq<Contact>, id: int, name: string, phone: string, email: string, notes: string)
    requires Ascending(rows)
    ensures Ascending(Updated(rows, id, name, phone, email, notes))
  {
  }

  /** Updating keeps every id, so ids issued up to some bound stay within it. */
  lemma UpdatedKeepsIdRange(rows: seq<Contact>, id: int, name: string, phone: string, email: string, notes: string, bound: int)
    requires forall c :: c in rows ==> 1 <= c.id <= bound
    ensures forall c :: c in Updated(rows, id, name, phone, email, notes) ==> 1 <= c.id <= bound
  {
    var u := Updated(rows, id, name, phone, email, notes);
    forall c | c in u ensures 1 <= c.id <= bound {
      var i :| 0 <= i < |u| && u[i] == c;
      assert rows[i] in rows;
    }
  }

  /** After an update, the row with that id (if there was one) holds the new fields; every other id finds what it found before. */
  lemma {:induction false} UpdatedLookup(rows: seq<Contact>, id: int, name: string, phone: string, email: string, notes: string, x: int)
    ensures Lookup(Updated(rows, id, name, phone, email, notes), x) ==
      if x == id && Lookup(rows, id).Some? then Some(Contact(id, name, phone, email, notes)) else Lookup(rows, x)
  {
    if rows != [] {
      UpdatedLookup(rows[1..], id, name, phone, email, notes, x);
      var u := Updated(rows, id, name, phone, email, notes);
      assert u[1..] == Updated(rows[1..], id, name, phone, email, notes);
    }
  }

  /** Updating an id no row has changes nothing. */
  lemma UpdateUnknownIsNoop(rows: seq<Contact>, id: int, name: string, phone: string, email: string, notes: string)
    requires Lookup(rows, id).None?
    ensures Updated(rows, id, name, phone, email, notes) == rows
  {
    var u := Updated(rows, id, name, phone, email, notes);
    assert forall i :: 0 <= i < |rows| ==> rows[i] in rows;
    assert forall i :: 0 <= i < |rows| ==> u[i] == rows[i];
  }

  /** After a delete, the id finds nothing; every other id finds what it found before. */
  lemma {:induction false} DeletedLookup(rows: seq<Contact>, id: int, x: int)
    ensures Lookup(Deleted(rows, id), x) == if x == id then None else Lookup(rows, x)
  {
    if rows != [] {
      DeletedLookup(rows[1..], id, x);
    }
  }

  /** Deleting an id no row has changes nothing. */
  lemma {:induction false} DeleteUnknownIsNoop(rows: seq<Contact>, id: int)
    requires Lookup(rows, id).None?
    ensures Deleted(rows, id) == rows
  {
    if rows != [] {
      DeleteUnknownIsNoop(rows[1..], id);
    }
  }

  /** Deleting twice is deleting once. */
  lemma {:induction false} DeleteIdempotent(rows: seq<Contact>, id: int)
    ensures Deleted(Deleted(rows, id), id) == Deleted(rows, id)
  {
    DeletedLookup(rows, id, id);
    DeleteUnknownIsNoop(Deleted(rows, id), id);
  }

  /** Appending a row under a fresh id: that id finds the new row, every other id what it found before. */
  lemma {:induction false} AppendedLookup(rows: seq<Contact>, c: Contact, x: int)
    requires Lookup(rows, c.id).None?
    ensures Lookup(rows + [c], x) == if x == c.id then Some(c) else Lookup(rows, x)
  {
    if rows != [] {
      assert (rows + [c])[1..] == rows[1..] + [c];
      AppendedLookup(rows[1..], c, x);
    } else {
      assert rows + [c] == [c];
    }
  }

  /**
    * A search term without `%` or `_` finds exactly the rows whose name or
    * phone contains it, ASCII letters compared without case.
    */
  lemma LiteralTermFinds(rows: seq<Contact>, term: string)
    requires SqlLike.Literal(term)
    ensures forall c :: c in Matching(rows, SqlLike.ContainsPattern(term)) <==>
      c in rows && (SqlLike.ContainsIgnoringCase(c.name, term) || SqlLike.ContainsIgnoringCase(c.phone, term))
  {
    var pattern := SqlLike.ContainsPattern(term);
    forall c | c in rows
      ensures SqlLike.Like(pattern, c.name) <==> SqlLike.ContainsIgnoringCase(c.name, term)
      ensures SqlLike.Like(pattern, c.phone) <==> SqlLike.ContainsIgnoringCase(c.phone, term)
    {
      SqlLike.LiteralSearch(term, c.name);
      SqlLike.LiteralSearch(term, c.phone);
    }
  }

  // ---- The table as the application holds it ----

  /** The `contacts` table behind the module-level connection. */
  class ContactTable {
    /** The rows, in ascending id order. */
    var rows: seq<Contact>
    /** The AUTOINCREMENT counter: the largest id ever issued, 0 before the first insert. */
    var lastId: int

    ghost predicate Valid()
      reads this
    {
      && Ascending(rows)
      && 0 <= lastId <= MaxRowId
      && (forall c :: c in rows ==> 1 <= c.id <= lastId)
    }

    /** `CREATE TABLE IF NOT EXISTS contacts (...)` on a new database. */
    constructor ()
      ensures Valid() && rows == [] && lastId == 0
    {
      rows := [];
      lastId := 0;
    }

    /**
      * `add_contact`: INSERT with a new id one above the largest ever issued,
      * or SQLITE_FULL once the largest possible id has been issued. An
      * existing row is never changed.
      */
    method AddContact(name: string, phone: string, email: string, notes: string) returns (r: AddResult)
      requires Valid()
      modifies this
      ensures Valid()
      ensures old(lastId) < MaxRowId ==>
        && r == Added(old(lastId) + 1)
        && rows == old(rows) + [Contact(r.id, name, phone, email, notes)]
        && lastId == r.id
      ensures old(lastId) == MaxRowId ==> r == Full && rows == old(rows) && lastId == old(lastId)
      ensures r.Added? ==> forall c :: c in old(rows) ==> c.id < r.id
    {
      if lastId == MaxRowId {
        return Full;
      }
      lastId := lastId + 1;
      rows := rows + [Contact(lastId, name, phone, email, notes)];
      r := Added(lastId);
    }

    /**
      * `get_contacts`: every row for the empty term; otherwise the rows
      * whose name or phone is LIKE `%term%`, in table order.
      */
    function GetContacts(term: string): (r: seq<Contact>)
      requires Valid()
      reads this
      ensures term == "" ==> r == rows
      ensures forall c :: c in r <==>
        c in rows && (term == "" || SqlLike.Like(SqlLike.ContainsPattern(term), c.name)
                                 || SqlLike.Like(SqlLike.ContainsPattern(term), c.phone))
      ensures Ascending(r)
    {
      if term == "" then rows
      else
        MatchingKeepsOrder(rows, SqlLike.ContainsPattern(term));
        Matching(rows, SqlLike.ContainsPattern(term))
    }

    /**
      * `update_contact`: the four fields of the row with that id are
      * replaced and its id kept; other rows are untouched and an unknown id
      * changes nothing.
      */
    method UpdateContact(id: int, name: string, phone: string, email: string, notes: string)
      requires Valid()
      modifies this
      ensures Valid()
      ensures rows == Updated(old(rows), id, name, phone, email, notes) && lastId == old(lastId)
    {
      UpdatedKeepsOrder(rows, id, name, phone, email, notes);
      UpdatedKeepsIdRange(rows, id, name, phone, email, notes, lastId);
      rows := Updated(rows, id, name, phone, email, notes);
    }

    /** `delete_contact`: the row with that id goes; nothing else changes. */
    method DeleteContact(id: int)
      requires Valid()
      modifies this
      ensures Valid()
      ensures rows == Deleted(old(rows), id) && lastId == old(lastId)
    {
      DeletedKeepsOrder(rows, id);
      rows := Deleted(rows, id);
    }

    /**
      * The add form's submit: a name that `strip()` leaves empty is refused
      * with an error and the table is left alone; otherwise the contact is
      * added.
      */
    method SubmitAddForm(name: string, phone: string, email: string, notes: string) returns (r: FormResult)
      requires Valid()
      modifies this
      ensures Valid()
      ensures PyStr.Strip(name) == "" ==> r == BlankName && rows == old(rows) && lastId == old(lastId)
      ensures PyStr.Strip(name) != "" && old(lastId) < MaxRowId ==>
        && r == Saved(old(lastId) + 1)
        && rows == old(rows) + [Contact(old(lastId) + 1, name, phone, email, notes)]
        && lastId == old(lastId) + 1
      ensures PyStr.Strip(name) != "" && old(lastId) == MaxRowId ==>
        r == Failed && rows == old(rows) && lastId == old(lastId)
    {
      if PyStr.Strip(name) != "" {
        var added := AddContact(name, phone, email, notes);
        r := if added.Added? then Saved(added.id) else Failed;
      } else {
        r := BlankName;
      }
    }
  }

  /** Adding a row under a fresh id, then deleting that id, restores the rows the table had. */
  lemma {:induction false} AddThenDeleteRestores(rows: seq<Contact>, c: Contact)
    requires Lookup(rows, c.id).None?
    ensures Deleted(rows + [c], c.id) == rows
  {
    if rows == [] {
      assert rows + [c] == [c];
    } else {
      assert (rows + [c])[1..] == rows[1..] + [c];
      assert rows[0] in rows;
      AddThenDeleteRestores(rows[1..], c);
    }
  }
}
