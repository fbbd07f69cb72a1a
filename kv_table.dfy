/**
 * The key/value table of src/database/kv.rs as a map from key to JSON value: upsert,
 * lookup, delete and listing, each with the validation the source applies first.
 */
module KvTable {
  import opened Wrappers
  import opened Json
  import opened DbErrors

  /** `kv::Model`: a key and its JSON value. */
  datatype Kv = Kv(key: string, value: Json)

  type Rows = map<string, Json>

  /** `set_kv`: reject an empty key, otherwise insert or overwrite and hand the pair back. */
  function SetKvSpec(rows: Rows, kv: Kv): (r: (Result<Kv, Error>, Rows))
    ensures kv.key == [] ==> r == (Failure(KvMissingKey), rows)
    ensures kv.key != [] ==> r.0 == Success(kv)
    ensures kv.key != [] ==> r.1.Keys == rows.Keys + {kv.key} && r.1[kv.key] == kv.value
    ensures forall k :: k in rows && k != kv.key ==> k in r.1 && r.1[k] == rows[k]
  {
    if kv.key == [] then (Failure(KvMissingKey), rows)
    else (Success(kv), rows[kv.key := kv.value])
  }

  /** `get_kv`: empty key, absent key, or the stored pair. */
  function GetKvSpec(rows: Rows, key: string): (r: Result<Kv, Error>)
    ensures key == [] ==> r == Failure(KvMissingKey)
    ensures key != [] && key !in rows ==> r == Failure(KvNotFound(key))
    ensures r.Success? <==> key != [] && key in rows
    ensures r.Success? ==> r.value == Kv(key, rows[key])
  {
    if key == [] then Failure(KvMissingKey)
    else if key !in rows then Failure(KvNotFound(key))
    else Success(Kv(key, rows[key]))
  }

  /** `delete_kv`: reject an empty key, otherwise remove it if present (absent is not an error). */
  function DeleteKvSpec(rows: Rows, key: string): (r: (Result<(), Error>, Rows))
    ensures key == [] ==> r == (Failure(KvMissingKey), rows)
    ensures key != [] ==> r.0 == Success(()) && r.1 == rows - {key}
    ensures key != [] && key !in rows ==> r.1 == rows
  {
    if key == [] then (Failure(KvMissingKey), rows)
    else (Success(()), rows - {key})
  }

  /** A set followed by a get of the same key returns what was set. */
  lemma SetThenGet(rows: Rows, kv: Kv)
    requires kv.key != []
    ensures GetKvSpec(SetKvSpec(rows, kv).1, kv.key) == Success(kv)
  {
  }

  /** Setting one key leaves every other key's lookup as it was. */
  lemma SetLeavesOthers(rows: Rows, kv: Kv, other: string)
    requires other != kv.key
    ensures GetKvSpec(SetKvSpec(rows, kv).1, other) == GetKvSpec(rows, other)
  {
  }

  /** After a delete the key is gone, and deleting again changes nothing. */
  lemma DeleteThenGet(rows: Rows, key: string)
    requires key != []
    ensures GetKvSpec(DeleteKvSpec(rows, key).1, key) == Failure(KvNotFound(key))
    ensures DeleteKvSpec(DeleteKvSpec(rows, key).1, key) == DeleteKvSpec(rows, key)
  {
  }

  /** An upsert is idempotent: setting the same pair twice is setting it once. */
  lemma SetIdempotent(rows: Rows, kv: Kv)
    ensures SetKvSpec(SetKvSpec(rows, kv).1, kv) == SetKvSpec(rows, kv)
  {
    if kv.key != [] {
      assert rows[kv.key := kv.value][kv.key := kv.value] == rows[kv.key := kv.value];
    }
  }

  /** A listing in progress: the pairs listed so far are stored, distinct, and exactly the keys no longer left. */
  predicate ListedSoFar(rows: Rows, r: seq<Kv>, left: set<string>) {
    && (forall i :: 0 <= i < |r| ==> r[i].key in rows && r[i].key !in left && rows[r[i].key] == r[i].value)
    && (forall k :: k in rows && k !in left ==> exists i :: 0 <= i < |r| && r[i].key == k)
    && (forall i, j :: 0 <= i < j < |r| ==> r[i].key != r[j].key)
  }

  lemma ListStep(rows: Rows, r: seq<Kv>, left: set<string>, k: string)
    requires ListedSoFar(rows, r, left) && k in left && left <= rows.Keys
    ensures ListedSoFar(rows, r + [Kv(k, rows[k])], left - {k})
  {
    var r', left' := r + [Kv(k, rows[k])], left - {k};
    forall k' | k' in rows && k' !in left' ensures exists i :: 0 <= i < |r'| && r'[i].key == k' {
      if k' == k {
        assert r'[|r'| - 1].key == k';
      } else {
        var i :| 0 <= i < |r| && r[i].key == k';
        assert r'[i].key == k';
      }
    }
  }

  /** The kv table, updated in place. */
  class KvStore {
    var rows: Rows

    constructor ()
      ensures rows == map[]
    {
      rows := map[];
    }

    /** `set_kv`. */
    method SetKv(kv: Kv) returns (r: Result<Kv, Error>)
      modifies this
      ensures (r, rows) == SetKvSpec(old(rows), kv)
    {
      if kv.key == [] {
        return Failure(KvMissingKey);
      }
      rows := rows[kv.key := kv.value];
      r := Success(kv);
    }

    /** `get_kv`. */
    method GetKv(key: string) returns (r: Result<Kv, Error>)
      ensures r == GetKvSpec(rows, key)
    {
      if key == [] {
        return Failure(KvMissingKey);
      }
      if key !in rows {
        return Failure(KvNotFound(key));
      }
      r := Success(Kv(key, rows[key]));
    }

    /** `delete_kv`. */
    method DeleteKv(key: string) returns (r: Result<(), Error>)
      modifies this
      ensures (r, rows) == DeleteKvSpec(old(rows), key)
    {
      if key == [] {
        return Failure(KvMissingKey);
      }
      if key in rows {
        rows := rows - {key};
      }
      r := Success(());
    }

    /** `list_kv`: every stored pair exactly once, in some order. */
    method ListKv() returns (r: seq<Kv>)
      ensures |r| == |rows|
      ensures forall i :: 0 <= i < |r| ==> r[i].key in rows && rows[r[i].key] == r[i].value
      ensures forall k :: k in rows ==> exists i :: 0 <= i < |r| && r[i].key == k
      ensures forall i, j :: 0 <= i < j < |r| ==> r[i].key != r[j].key
    {
      var left := rows.Keys;
      r := [];
      while left != {}
        invariant left <= rows.Keys
        invariant |r| + |left| == |rows.Keys|
        invariant ListedSoFar(rows, r, left)
        decreases |left|
      {
        var k :| k in left;
        ListStep(rows, r, left, k);
        r := r + [Kv(k, rows[k])];
        left := left - {k};
      }
      assert |rows.Keys| == |rows|;
    }
  }
}
