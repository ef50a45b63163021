/** Profile rows and the batched lookup that fetches them.

    Both handlers ask the profile store for the rows whose `id` is one of
    two user ids.  The store answers with an error object, a set of rows,
    or neither, and returns the rows in no particular order; the handlers
    re-associate rows with roles by comparing `id` with the first-match
    search `users.find(u => u.id === key)`. */
module Profiles {
  import opened Js

  /** One row of `profiles`, projected to `id, full_name, fcm_token`. */
  datatype Profile = Profile(id: string, fullName: Option<string>, fcmToken: Option<string>)

  /** What `select(...).in('id', [...])` resolves to: `{ data: users, error }`. */
  datatype Lookup = Lookup(error: Option<string>, users: Option<seq<Profile>>)

  /** `error || !users`: an error object is always truthy, and an empty
      array is truthy too, so only a present error or an absent result
      set counts as a failure. */
  predicate LookupFailed(lookup: Lookup) {
    lookup.error.Some? || lookup.users.None?
  }

  /** `users.find(u => u.id === key)`: the first row whose id is `key`. */
  function FindById(rows: seq<Profile>, key: string): (r: Option<Profile>)
    ensures r.None? <==> forall p | p in rows :: p.id != key
    ensures r.Some? ==> r.value in rows && r.value.id == key
  {
    if rows == [] then None
    else if rows[0].id == key then Some(rows[0])
    else FindById(rows[1..], key)
  }

  /** The row found is the one at the first index that carries `key`. */
  lemma {:induction false} FindByIdIsFirstMatch(rows: seq<Profile>, key: string, i: nat)
    requires i < |rows| && rows[i].id == key
    requires forall j | 0 <= j < i :: rows[j].id != key
    ensures FindById(rows, key) == Some(rows[i])
  {
    if i > 0 {
      FindByIdIsFirstMatch(rows[1..], key, i - 1);
    }
  }

  /** `p?.fcm_token` is truthy: the row exists and carries a non-empty token. */
  predicate HasToken(p: Option<Profile>) {
    Truthy(FcmTokenOf(p))
  }

  /** `p?.fcm_token`, undefined when there is no row. */
  function FcmTokenOf(p: Option<Profile>): Option<string> {
    if p.Some? then p.value.fcmToken else None
  }

  function TokenOf(p: Option<Profile>): (token: string)
    requires HasToken(p)
    ensures token != "" && Some(token) == p.value.fcmToken
  {
    p.value.fcmToken.value
  }

  /** `p?.full_name`, undefined when there is no row. */
  function NameOf(p: Option<Profile>): Option<string> {
    if p.Some? then p.value.fullName else None
  }

  /** `p?.id`, undefined when there is no row. */
  function IdOf(p: Option<Profile>): Option<string> {
    if p.Some? then Some(p.value.id) else None
  }

  /** Rows that share an id are the same row: what a primary key on `id` guarantees. */
  predicate IdsAreKeys(rows: seq<Profile>) {
    forall p, q | p in rows && q in rows && p.id == q.id :: p == q
  }

  /** When ids are keys, the order in which the store returns the rows
      does not change which row the first-match search picks. */
  lemma {:induction false} FindByIdIgnoresOrder(rows: seq<Profile>, reordered: seq<Profile>, key: string)
    requires multiset(rows) == multiset(reordered)
    requires IdsAreKeys(rows)
    ensures FindById(rows, key) == FindById(reordered, key)
  {
    var found, foundThere := FindById(rows, key), FindById(reordered, key);
    forall p ensures p in rows <==> p in reordered {
      assert p in rows <==> p in multiset(rows);
      assert p in reordered <==> p in multiset(reordered);
    }
    if found.Some? {
      assert foundThere.Some?;
      assert foundThere.value in rows;
    } else {
      assert foundThere.None?;
    }
  }

  /** Without keys, order matters: two rows with one id swap the answer. */
  lemma FindByIdNeedsKeys()
    ensures var p, q := Profile("u1", Some("Ann"), None), Profile("u1", Some("Bea"), None);
            FindById([p, q], "u1") != FindById([q, p], "u1")
  {
  }

  /** The search for `key` looks only at the ids of the rows and at the
      rows whose id is `key`: rows that agree on all ids, and agree fully
      on the rows with id `key`, give the same answer; rows that agree
      only on ids find a row in the same cases. */
  lemma {:induction false} FindByIdReadsOnlyMatchingRows(rows: seq<Profile>, edited: seq<Profile>, key: string)
    requires |rows| == |edited|
    requires forall i | 0 <= i < |rows| :: edited[i].id == rows[i].id
    ensures FindById(rows, key).Some? <==> FindById(edited, key).Some?
    ensures (forall i | 0 <= i < |rows| && rows[i].id == key :: edited[i] == rows[i]) ==>
              FindById(rows, key) == FindById(edited, key)
  {
    if rows != [] {
      FindByIdReadsOnlyMatchingRows(rows[1..], edited[1..], key);
      if (forall i | 0 <= i < |rows| && rows[i].id == key :: edited[i] == rows[i]) {
        assert forall i | 0 <= i < |rows[1..]| && rows[1..][i].id == key :: edited[1..][i] == rows[1..][i] by {
          forall i | 0 <= i < |rows[1..]| && rows[1..][i].id == key ensures edited[1..][i] == rows[1..][i] {
            assert rows[1..][i] == rows[i + 1];
          }
        }
      }
    }
  }
}
