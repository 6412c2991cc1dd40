/** Carrying passkeys across a teardown: an export, and an import that merges. */
module Passkeys {
  import opened Wrappers
  import opened Models
  import opened Base64
  import opened Database

  /** One exported row; the public key is base64 text. */
  datatype Item = Item(credential: Id, user: Id, publicKey: string, signCount: int)

  datatype Tally = Tally(added: nat, updated: nat, skipped: nat)

  /** A passkey of a user who is gone is skipped; one that is there keeps the higher counter. `None` is a key that does not decode. */
  function ImportOne(users: set<Id>, credentials: map<Id, Credential>, item: Item): Option<map<Id, Credential>> {
    if item.user !in users then Some(credentials)
    else if item.credential !in credentials then
      var key :- PythonDecode(item.publicKey);
      Some(credentials[item.credential := Credential(item.user, key, item.signCount)])
    else if item.signCount > credentials[item.credential].signCount then
      Some(credentials[item.credential := credentials[item.credential].(signCount := item.signCount)])
    else Some(credentials)
  }

  function CountOne(users: set<Id>, credentials: map<Id, Credential>, item: Item, t: Tally): Tally {
    if item.user !in users then t.(skipped := t.skipped + 1)
    else if item.credential !in credentials then t.(added := t.added + 1)
    else if item.signCount > credentials[item.credential].signCount then t.(updated := t.updated + 1)
    else t
  }

  /** The whole file or nothing: it is one transaction. */
  function Import(users: set<Id>, credentials: map<Id, Credential>, items: seq<Item>): Option<map<Id, Credential>>
    decreases |items|
  {
    if items == [] then Some(credentials)
    else
      var one :- ImportOne(users, credentials, items[0]);
      Import(users, one, items[1..])
  }

  function Count(users: set<Id>, credentials: map<Id, Credential>, items: seq<Item>, t: Tally): Tally
    decreases |items|
  {
    if items == [] || ImportOne(users, credentials, items[0]).None? then t
    else Count(users, ImportOne(users, credentials, items[0]).value, items[1..], CountOne(users, credentials, items[0], t))
  }

  /** Importing this item again would change nothing. */
  ghost predicate Absorbed(users: set<Id>, credentials: map<Id, Credential>, item: Item) {
    item.user in users ==> item.credential in credentials && credentials[item.credential].signCount >= item.signCount
  }

  /** Nothing goes, changes hands or counts back. */
  ghost predicate Advanced(before: map<Id, Credential>, after: map<Id, Credential>) {
    forall k :: k in before ==>
      k in after && after[k].user == before[k].user && after[k].publicKey == before[k].publicKey && after[k].signCount >= before[k].signCount
  }

  lemma {:induction false} ImportAdvances(users: set<Id>, credentials: map<Id, Credential>, items: seq<Item>)
    requires Import(users, credentials, items).Some?
    ensures var after := Import(users, credentials, items).value;
      Advanced(credentials, after) && forall k :: k in after && k !in credentials ==> after[k].user in users
    decreases |items|
  {
    hide PythonDecode;
    if items != [] {
      ImportAdvances(users, ImportOne(users, credentials, items[0]).value, items[1..]);
    }
  }

  lemma {:induction false} ImportAbsorbs(users: set<Id>, credentials: map<Id, Credential>, items: seq<Item>)
    requires Import(users, credentials, items).Some?
    ensures forall i :: 0 <= i < |items| ==> Absorbed(users, Import(users, credentials, items).value, items[i])
    decreases |items|
  {
    hide PythonDecode;
    if items != [] {
      var one, after := ImportOne(users, credentials, items[0]).value, Import(users, credentials, items).value;
      ImportAbsorbs(users, one, items[1..]);
      ImportAdvances(users, one, items[1..]);
      forall i | 0 <= i < |items| ensures Absorbed(users, after, items[i]) {
        if i > 0 { assert items[i] == items[1..][i - 1]; }
      }
    }
  }

  lemma {:induction false} AbsorbedChangesNothing(users: set<Id>, credentials: map<Id, Credential>, items: seq<Item>, t: Tally)
    requires forall i :: 0 <= i < |items| ==> Absorbed(users, credentials, items[i])
    ensures Import(users, credentials, items) == Some(credentials)
    ensures Count(users, credentials, items, t).added == t.added && Count(users, credentials, items, t).updated == t.updated
    decreases |items|
  {
    hide PythonDecode;
    if items != [] {
      assert Absorbed(users, credentials, items[0]);
      forall i | 0 <= i < |items[1..]| ensures Absorbed(users, credentials, items[1..][i]) {
        assert items[1..][i] == items[i + 1];
      }
      AbsorbedChangesNothing(users, credentials, items[1..], CountOne(users, credentials, items[0], t));
    }
  }

  /** A second import of the same file adds and updates nothing. */
  lemma ImportIsIdempotent(users: set<Id>, credentials: map<Id, Credential>, items: seq<Item>)
    requires Import(users, credentials, items).Some?
    ensures var after := Import(users, credentials, items).value;
      && Import(users, after, items) == Some(after)
      && Count(users, after, items, Tally(0, 0, 0)).added == 0 && Count(users, after, items, Tally(0, 0, 0)).updated == 0
  {
    ImportAbsorbs(users, credentials, items);
    AbsorbedChangesNothing(users, Import(users, credentials, items).value, items, Tally(0, 0, 0));
  }

  /** The counter an import leaves is the highest on offer, and the row's owner is never changed. */
  lemma {:induction false} ImportKeepsTheHighest(users: set<Id>, credentials: map<Id, Credential>, items: seq<Item>, k: Id)
    requires Import(users, credentials, items).Some? && k in Import(users, credentials, items).value
    ensures var n := Import(users, credentials, items).value[k].signCount;
      && (k in credentials ==> credentials[k].signCount <= n)
      && (forall i :: 0 <= i < |items| && items[i].credential == k && items[i].user in users ==> items[i].signCount <= n)
      && ((k in credentials && credentials[k].signCount == n)
          || exists i :: 0 <= i < |items| && items[i].credential == k && items[i].user in users && items[i].signCount == n)
    decreases |items|
  {
    hide PythonDecode;
    ImportAdvances(users, credentials, items);
    ImportAbsorbs(users, credentials, items);
    var n := Import(users, credentials, items).value[k].signCount;
    forall i | 0 <= i < |items| && items[i].credential == k && items[i].user in users ensures items[i].signCount <= n {
      assert Absorbed(users, Import(users, credentials, items).value, items[i]);
    }
    if items != [] {
      var one := ImportOne(users, credentials, items[0]).value;
      ImportKeepsTheHighest(users, one, items[1..], k);
      if !(k in one && one[k].signCount == n) {
        var i :| 0 <= i < |items[1..]| && items[1..][i].credential == k && items[1..][i].user in users && items[1..][i].signCount == n;
        assert items[i + 1] == items[1..][i];
      } else if k !in credentials || credentials[k].signCount != n {
        assert items[0].credential == k && items[0].signCount == n;
      }
    }
  }

  // ------------------------------------------------------------- export, then import

  function ItemOf(k: Id, row: Credential): Item { Item(k, row.user, Encode(row.publicKey), row.signCount) }

  /** The rows in some order (the source orders them by creation), each once. */
  ghost predicate Exports(items: seq<Item>, credentials: map<Id, Credential>) {
    && (forall i :: 0 <= i < |items| ==> items[i].credential in credentials && items[i] == ItemOf(items[i].credential, credentials[items[i].credential]))
    && (forall i, j :: 0 <= i < j < |items| ==> items[i].credential != items[j].credential)
    && (forall k :: k in credentials ==> exists i :: 0 <= i < |items| && items[i].credential == k)
  }

  /** Every item is new, of a user who is there, and the row it becomes is `rows`'. */
  ghost predicate AllNew(users: set<Id>, credentials: map<Id, Credential>, items: seq<Item>, rows: map<Id, Credential>) {
    && (forall i :: 0 <= i < |items| ==>
          items[i].user in users && items[i].credential !in credentials && items[i].credential in rows
          && items[i] == ItemOf(items[i].credential, rows[items[i].credential]))
    && (forall i, j :: 0 <= i < j < |items| ==> items[i].credential != items[j].credential)
  }

  ghost predicate Names(items: seq<Item>, k: Id) { exists i :: 0 <= i < |items| && items[i].credential == k }

  ghost function Named(items: seq<Item>, rows: map<Id, Credential>): map<Id, Credential> {
    map k | k in rows && Names(items, k) :: rows[k]
  }

  lemma NamedHead(credentials: map<Id, Credential>, items: seq<Item>, rows: map<Id, Credential>)
    requires items != [] && items[0].credential in rows
    ensures credentials + Named(items, rows) == credentials[items[0].credential := rows[items[0].credential]] + Named(items[1..], rows)
  {
  }

  lemma NamesNothing(rows: map<Id, Credential>)
    ensures Named([], rows) == map[]
  {
  }

  lemma {:induction false} ImportOfDistinct(users: set<Id>, credentials: map<Id, Credential>, items: seq<Item>, rows: map<Id, Credential>)
    requires AllNew(users, credentials, items, rows)
    ensures Import(users, credentials, items) == Some(credentials + Named(items, rows))
    decreases |items|
  {
    hide PythonDecode, Encode, Named;
    if items == [] {
      NamesNothing(rows);
      assert credentials + map[] == credentials;
    } else {
      var k0, rest := items[0].credential, items[1..];
      PythonReadsBoth(rows[k0].publicKey);
      var one := credentials[k0 := rows[k0]];
      assert ImportOne(users, credentials, items[0]) == Some(one);
      assert forall i :: 0 <= i < |rest| ==> rest[i] == items[i + 1];
      ImportOfDistinct(users, one, rest, rows);
      NamedHead(credentials, items, rows);
    }
  }

  /** Exporting and importing into a store with the same users and no passkeys restores every row. */
  lemma ImportRestoresExport(users: set<Id>, credentials: map<Id, Credential>, items: seq<Item>)
    requires Exports(items, credentials) && forall k :: k in credentials ==> credentials[k].user in users
    ensures Import(users, map[], items) == Some(credentials)
  {
    hide Import, Encode;
    ImportOfDistinct(users, map[], items, credentials);
    assert forall k :: k in credentials ==> Names(items, k);
    assert map[] + Named(items, credentials) == credentials;
  }

  // ------------------------------------------------------------- the import itself

  /** One transaction: every row, or none when a key does not decode. */
  method ImportPasskeys(db: Tables, items: seq<Item>) returns (r: Result<Tally>)
    modifies db
    ensures var after := Import(old(db.users).Keys, old(db.credentials), items);
      if after.None? then r.Err? && db.Snapshot() == old(db.Snapshot())
      else
        && r == Ok(Count(old(db.users).Keys, old(db.credentials), items, Tally(0, 0, 0)))
        && db.Snapshot() == old(db.Snapshot()).(auth := old(db.Logins()).(credentials := after.value))
  {
    hide PythonDecode;
    var saved := db.Snapshot();
    ghost var users, goal := db.users.Keys, Import(db.users.Keys, db.credentials, items);
    ghost var total := Count(users, db.credentials, items, Tally(0, 0, 0));
    var t := Tally(0, 0, 0);
    for i := 0 to |items|
      invariant db.Snapshot() == saved.(auth := saved.auth.(credentials := db.credentials))
      invariant Import(users, db.credentials, items[i..]) == goal && Count(users, db.credentials, items[i..], t) == total
    {
      var item := items[i];
      assert items[i..][0] == item && items[i..][1..] == items[i + 1..];
      if item.user !in db.users {
        t := t.(skipped := t.skipped + 1);
      } else if item.credential !in db.credentials {
        var key := PythonDecode(item.publicKey);
        if key.None? {
          db.Rollback(saved);
          return Err(500, "public key is not base64");
        }
        db.credentials := db.credentials[item.credential := Credential(item.user, key.value, item.signCount)];
        t := t.(added := t.added + 1);
      } else if item.signCount > db.credentials[item.credential].signCount {
        db.credentials := db.credentials[item.credential := db.credentials[item.credential].(signCount := item.signCount)];
        t := t.(updated := t.updated + 1);
      }
    }
    r := Ok(t);
  }
}
