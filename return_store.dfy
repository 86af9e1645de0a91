/**
 * The saved-return store behind the four API routes: a list of records kept
 * in one JSON file, saved by e-mail (replacing the record already there or
 * appending a new one), loaded by e-mail, and updated or deleted by id. The
 * file's read and write outcomes, the fresh id and the current time are
 * parameters of each operation.
 */
module ReturnStore {
  import opened Wrappers

  /** A JSON value as the request body carries it. */
  datatype Json =
    | Null
    | Bool(b: bool)
    | Number(n: real)
    | Text(s: string)
    | List(items: seq<Json>)
    | Object(members: seq<(string, Json)>)

  /** JavaScript truthiness of a present JSON value. */
  predicate Truthy(v: Json)
  {
    match v
    case Null => false
    case Bool(b) => b
    case Number(n) => n != 0.0
    case Text(s) => s != ""
    case List(_) => true
    case Object(_) => true
  }

  /** One stored return. */
  datatype SavedReturn = SavedReturn(id: string, email: string, data: Json, lastModified: string)

  /** The HTTP status a route answers with: 200, 400, 404 or 500. */
  datatype Status = Ok | BadRequest | NotFound | ServerError

  /** Which field a lookup compares. */
  datatype Key = ByEmail | ById

  function KeyOf(r: SavedReturn, key: Key): string
  {
    match key
    case ByEmail => r.email
    case ById => r.id
  }

  /** `findIndex` with `===` on one key: the first position holding the value, or -1. */
  function FirstIndex(list: seq<SavedReturn>, key: Key, value: string): (i: int)
    ensures -1 <= i < |list|
    ensures i >= 0 ==> KeyOf(list[i], key) == value && forall k :: 0 <= k < i ==> KeyOf(list[k], key) != value
    ensures i == -1 <==> forall k :: 0 <= k < |list| ==> KeyOf(list[k], key) != value
  {
    if list == [] then -1
    else if KeyOf(list[0], key) == value then 0
    else
      var t := FirstIndex(list[1..], key, value);
      if t < 0 then -1 else t + 1
  }

  /** `find` by e-mail: the first record with that address. */
  function FindByEmail(list: seq<SavedReturn>, email: string): (r: Option<SavedReturn>)
    ensures r.Some? ==> r.value in list && r.value.email == email
    ensures r.Some? ==> exists i :: 0 <= i < |list| && list[i] == r.value && forall k :: 0 <= k < i ==> list[k].email != email
    ensures r.None? <==> forall k :: 0 <= k < |list| ==> list[k].email != email
  {
    var i := FirstIndex(list, ByEmail, email);
    if i >= 0 then Some(list[i]) else None
  }

  /** The record a save writes: it keeps the id of the first record with the
      same e-mail, or takes the fresh id when there is none. */
  function SavedRecord(list: seq<SavedReturn>, email: string, data: Json, freshId: string, now: string): SavedReturn
  {
    var i := FirstIndex(list, ByEmail, email);
    SavedReturn(if i >= 0 then list[i].id else freshId, email, data, now)
  }

  /** The list after a save: the first record with the e-mail replaced in
      place, or the new record appended. */
  function Upsert(list: seq<SavedReturn>, email: string, data: Json, freshId: string, now: string): seq<SavedReturn>
  {
    var i := FirstIndex(list, ByEmail, email);
    var rec := SavedRecord(list, email, data, freshId, now);
    if i >= 0 then list[i := rec] else list + [rec]
  }

  /** The list after an update: only `data` and `lastModified` of the first
      record with the id change. */
  function UpdateById(list: seq<SavedReturn>, id: string, data: Json, now: string): seq<SavedReturn>
  {
    var i := FirstIndex(list, ById, id);
    if i >= 0 then list[i := list[i].(data := data, lastModified := now)] else list
  }

  /** `filter(r => r.id !== id)`. */
  function RemoveId(list: seq<SavedReturn>, id: string): (r: seq<SavedReturn>)
    ensures |r| <= |list|
  {
    if list == [] then []
    else if list[0].id != id then [list[0]] + RemoveId(list[1..], id)
    else RemoveId(list[1..], id)
  }

  /** No two records share an e-mail address. */
  predicate UniqueEmails(list: seq<SavedReturn>)
  {
    forall i, j :: 0 <= i < j < |list| ==> list[i].email != list[j].email
  }

  // ----- save -----

  /** Saving an address already present replaces that record where it is:
      same id, same position, same length, every other record unchanged. */
  lemma UpsertReplacesInPlace(list: seq<SavedReturn>, email: string, data: Json, freshId: string, now: string)
    requires exists k :: 0 <= k < |list| && list[k].email == email
    ensures var i := FirstIndex(list, ByEmail, email);
      var r := Upsert(list, email, data, freshId, now);
      && 0 <= i && |r| == |list|
      && r[i] == SavedReturn(list[i].id, email, data, now)
      && forall k :: 0 <= k < |list| && k != i ==> r[k] == list[k]
  {
  }

  /** Saving a new address appends exactly one record, with the fresh id. */
  lemma UpsertAppends(list: seq<SavedReturn>, email: string, data: Json, freshId: string, now: string)
    requires forall k :: 0 <= k < |list| ==> list[k].email != email
    ensures Upsert(list, email, data, freshId, now) == list + [SavedReturn(freshId, email, data, now)]
  {
  }

  /** A save keeps e-mail addresses unique. */
  lemma UpsertKeepsEmailsUnique(list: seq<SavedReturn>, email: string, data: Json, freshId: string, now: string)
    requires UniqueEmails(list)
    ensures UniqueEmails(Upsert(list, email, data, freshId, now))
  {
    var r := Upsert(list, email, data, freshId, now);
    var i := FirstIndex(list, ByEmail, email);
    forall a, b | 0 <= a < b < |r|
      ensures r[a].email != r[b].email
    {
      if i < 0 && b == |list| {
        assert r[a] == list[a];
      }
    }
  }

  /** Loading right after a save finds the saved record, whatever the list held. */
  lemma LoadAfterUpsert(list: seq<SavedReturn>, email: string, data: Json, freshId: string, now: string)
    ensures FindByEmail(Upsert(list, email, data, freshId, now), email) == Some(SavedRecord(list, email, data, freshId, now))
  {
    var r := Upsert(list, email, data, freshId, now);
    var i := FirstIndex(list, ByEmail, email);
    var j := FirstIndex(r, ByEmail, email);
    if i >= 0 {
      assert r[i].email == email;
      assert j == i by {
        forall k | 0 <= k < i ensures r[k].email != email {
          assert r[k] == list[k];
        }
      }
    } else {
      assert r[|list|].email == email;
      assert j == |list| by {
        forall k | 0 <= k < |list| ensures r[k].email != email {
          assert r[k] == list[k];
        }
      }
    }
  }

  // ----- update -----

  /** An update by a present id changes only `data` and `lastModified` of the
      first record with that id; an absent id changes nothing. */
  lemma UpdateChangesOnlyDataAndTime(list: seq<SavedReturn>, id: string, data: Json, now: string)
    ensures var i := FirstIndex(list, ById, id);
      var r := UpdateById(list, id, data, now);
      && |r| == |list|
      && (forall k :: 0 <= k < |list| && k != i ==> r[k] == list[k])
      && (i >= 0 ==> r[i].id == id && r[i].email == list[i].email && r[i].data == data && r[i].lastModified == now)
  {
  }

  /** An update never touches e-mail addresses, so it keeps them unique. */
  lemma UpdateKeepsEmailsUnique(list: seq<SavedReturn>, id: string, data: Json, now: string)
    requires UniqueEmails(list)
    ensures UniqueEmails(UpdateById(list, id, data, now))
  {
    var r := UpdateById(list, id, data, now);
    assert forall k :: 0 <= k < |list| ==> r[k].email == list[k].email;
  }

  // ----- delete -----

  /** After a delete no record has the id, and a record stays exactly when its id differs. */
  lemma {:induction false} RemoveIdMembers(list: seq<SavedReturn>, id: string)
    ensures forall rec :: rec in RemoveId(list, id) <==> rec in list && rec.id != id
  {
    if list != [] {
      RemoveIdMembers(list[1..], id);
      assert list == [list[0]] + list[1..];
    }
  }

  /** Filtering a concatenation filters each part and keeps their order. */
  lemma {:induction false} RemoveIdConcat(a: seq<SavedReturn>, b: seq<SavedReturn>, id: string)
    ensures RemoveId(a + b, id) == RemoveId(a, id) + RemoveId(b, id)
  {
    if a != [] {
      assert (a + b)[0] == a[0];
      assert (a + b)[1..] == a[1..] + b;
      RemoveIdConcat(a[1..], b, id);
    } else {
      assert a + b == b;
    }
  }

  /** The list shrinks exactly when some record had the id; otherwise the
      filter returns the same list. */
  lemma {:induction false} RemoveIdShrinks(list: seq<SavedReturn>, id: string)
    ensures |RemoveId(list, id)| < |list| <==> exists k :: 0 <= k < |list| && list[k].id == id
    ensures (forall k :: 0 <= k < |list| ==> list[k].id != id) ==> RemoveId(list, id) == list
  {
    if list != [] {
      RemoveIdShrinks(list[1..], id);
      if list[0].id != id && exists k :: 0 <= k < |list[1..]| && list[1..][k].id == id {
        var k :| 0 <= k < |list[1..]| && list[1..][k].id == id;
        assert list[k + 1].id == id;
      }
      if exists k :: 0 <= k < |list| && list[k].id == id {
        var k :| 0 <= k < |list| && list[k].id == id;
        if k > 0 {
          assert list[1..][k - 1].id == id;
        }
      }
    }
  }

  /** A delete keeps e-mail addresses unique. */
  lemma {:induction false} RemoveIdKeepsEmailsUnique(list: seq<SavedReturn>, id: string)
    requires UniqueEmails(list)
    ensures UniqueEmails(RemoveId(list, id))
  {
    if list != [] {
      RemoveIdKeepsEmailsUnique(list[1..], id);
      RemoveIdMembers(list[1..], id);
      var t := RemoveId(list[1..], id);
      if list[0].id != id {
        forall j | 0 <= j < |t| ensures list[0].email != t[j].email {
          assert t[j] in list[1..];
          var m :| 0 <= m < |list[1..]| && list[1..][m] == t[j];
          assert list[m + 1] == t[j];
        }
      }
    }
  }

  // ----- the data file and the routes -----

  class Store {
    /** The records in the data file. */
    var records: seq<SavedReturn>

    /** Startup: an absent file is created holding an empty list. */
    constructor (existing: Option<seq<SavedReturn>>)
      ensures records == (if existing.Some? then existing.value else [])
    {
      records := if existing.Some? then existing.value else [];
    }

    /** readData: the file's list, or an empty list when reading or parsing fails. */
    function Read(readOk: bool): (r: seq<SavedReturn>)
      reads this
      ensures readOk ==> r == records
      ensures !readOk ==> r == []
    {
      if readOk then records else []
    }

    /** writeData: the file holds the list when the write succeeds and is
        untouched when it fails; the outcome is reported. */
    method Write(list: seq<SavedReturn>, writeOk: bool) returns (ok: bool)
      modifies this
      ensures ok == writeOk
      ensures records == (if writeOk then list else old(records))
    {
      if writeOk {
        records := list;
      }
      ok := writeOk;
    }

    /** POST /api/save. */
    method Save(email: Option<string>, data: Option<Json>, readOk: bool, writeOk: bool, freshId: string, now: string)
      returns (status: Status, id: Option<string>)
      modifies this
      ensures (email.None? || email.value == "" || data.None? || !Truthy(data.value)) ==>
        status == BadRequest && id.None? && records == old(records)
      ensures email.Some? && email.value != "" && data.Some? && Truthy(data.value) ==>
        var before := old(Read(readOk));
        && (writeOk ==> status == Ok && records == Upsert(before, email.value, data.value, freshId, now)
                        && id == Some(SavedRecord(before, email.value, data.value, freshId, now).id))
        && (!writeOk ==> status == ServerError && id.None? && records == old(records))
    {
      if email.None? || email.value == "" || data.None? || !Truthy(data.value) {
        return BadRequest, None;
      }
      var stored := Read(readOk);
      var existingIndex := FirstIndex(stored, ByEmail, email.value);
      var taxReturn := SavedReturn(
        if existingIndex >= 0 then stored[existingIndex].id else freshId, email.value, data.value, now);
      if existingIndex >= 0 {
        stored := stored[existingIndex := taxReturn];
      } else {
        stored := stored + [taxReturn];
      }
      var written := Write(stored, writeOk);
      if written {
        status, id := Ok, Some(taxReturn.id);
      } else {
        status, id := ServerError, None;
      }
    }

    /** GET /api/load/:email: the first record with the address, or 404. */
    method Load(email: string, readOk: bool) returns (status: Status, found: Option<SavedReturn>)
      ensures found == FindByEmail(Read(readOk), email)
      ensures status == Ok <==> found.Some?
      ensures status != Ok ==> status == NotFound
      ensures !readOk ==> status == NotFound
    {
      var stored := Read(readOk);
      found := FindByEmail(stored, email);
      status := if found.Some? then Ok else NotFound;
    }

    /** PUT /api/update/:id. */
    method Update(id: string, data: Option<Json>, readOk: bool, writeOk: bool, now: string) returns (status: Status)
      modifies this
      ensures (data.None? || !Truthy(data.value)) ==> status == BadRequest && records == old(records)
      ensures data.Some? && Truthy(data.value) ==>
        var before := old(Read(readOk));
        if FirstIndex(before, ById, id) < 0 then status == NotFound && records == old(records)
        else if writeOk then status == Ok && records == UpdateById(before, id, data.value, now)
        else status == ServerError && records == old(records)
    {
      if data.None? || !Truthy(data.value) {
        return BadRequest;
      }
      var stored := Read(readOk);
      var index := FirstIndex(stored, ById, id);
      if index >= 0 {
        stored := stored[index := stored[index].(data := data.value, lastModified := now)];
        var written := Write(stored, writeOk);
        status := if written then Ok else ServerError;
      } else {
        status := NotFound;
      }
    }

    /** DELETE /api/delete/:id. */
    method Delete(id: string, readOk: bool, writeOk: bool) returns (status: Status)
      modifies this
      ensures var before := old(Read(readOk));
        if forall k :: 0 <= k < |before| ==> before[k].id != id then status == NotFound && records == old(records)
        else if writeOk then status == Ok && records == RemoveId(before, id)
        else status == ServerError && records == old(records)
    {
      var stored := Read(readOk);
      var filteredReturns := RemoveId(stored, id);
      RemoveIdShrinks(stored, id);
      if |filteredReturns| < |stored| {
        var written := Write(filteredReturns, writeOk);
        status := if written then Ok else ServerError;
      } else {
        status := NotFound;
      }
    }
  }

  /** A load after a successful save of a complete request returns the saved
      record with the saved data, even when the earlier read had failed. */
  method SaveThenLoad(store: Store, email: string, data: Json, readOk: bool, freshId: string, now: string)
    returns (saved: Status, loaded: Status, found: Option<SavedReturn>)
    requires email != "" && Truthy(data)
    modifies store
    ensures saved == Ok && loaded == Ok
    ensures found.Some? && found.value.email == email && found.value.data == data && found.value.lastModified == now
  {
    var before := store.Read(readOk);
    var id;
    saved, id := store.Save(Some(email), Some(data), readOk, true, freshId, now);
    LoadAfterUpsert(before, email, data, freshId, now);
    loaded, found := store.Load(email, true);
  }
}
