/**
 * The two typed settings of src/database/common.rs, kept in the kv table under the keys
 * "core_path" (a JSON string) and "auto_start" (a JSON bool). Each setter deletes its key
 * and inserts it again; each getter falls back to None / false on a missing or mistyped value.
 */
module CommonSettings {
  import opened Wrappers
  import opened Json
  import opened DbErrors
  import opened KvTable

  const KeyCorePath := "core_path"
  const KeyAutoStart := "auto_start"

  /** `get_core_path` on a table: the stored string, or None when absent or not a string. */
  function CorePathOf(rows: Rows): (r: Option<string>)
    ensures r.Some? <==> KeyCorePath in rows && rows[KeyCorePath].Str?
    ensures r.Some? ==> rows[KeyCorePath] == Str(r.value)
  {
    if KeyCorePath in rows && rows[KeyCorePath].Str? then Some(rows[KeyCorePath].s) else None
  }

  /** `get_auto_start` on a table: the stored bool, or false when absent or not a bool. */
  function AutoStartOf(rows: Rows): (r: bool)
    ensures r <==> KeyAutoStart in rows && rows[KeyAutoStart] == Bool(true)
  {
    if KeyAutoStart in rows && rows[KeyAutoStart].Bool? then rows[KeyAutoStart].b else false
  }

  /** `set_core_path`: an empty path is refused with "missing path"; otherwise the key is replaced. */
  function SetCorePathSpec(rows: Rows, path: string): (r: (Result<(), Error>, Rows))
    ensures path == [] ==> r == (Failure(CustomErr("missing path")), rows)
    ensures path != [] ==> r.0 == Success(())
    ensures path != [] ==> r.1.Keys == rows.Keys + {KeyCorePath} && r.1[KeyCorePath] == Str(path)
    ensures forall k :: k in rows && k != KeyCorePath ==> k in r.1 && r.1[k] == rows[k]
  {
    if path == [] then (Failure(CustomErr("missing path")), rows)
    else (Success(()), (rows - {KeyCorePath})[KeyCorePath := Str(path)])
  }

  /** `set_auto_start`: the key is replaced by the bool. */
  function SetAutoStartSpec(rows: Rows, enabled: bool): (r: Rows)
    ensures r.Keys == rows.Keys + {KeyAutoStart} && r[KeyAutoStart] == Bool(enabled)
    ensures forall k :: k in rows && k != KeyAutoStart ==> k in r && r[k] == rows[k]
  {
    (rows - {KeyAutoStart})[KeyAutoStart := Bool(enabled)]
  }

  /** A stored path is read back; storing it again is the same as storing it once. */
  lemma CorePathRoundTrip(rows: Rows, path: string)
    requires path != []
    ensures CorePathOf(SetCorePathSpec(rows, path).1) == Some(path)
    ensures SetCorePathSpec(SetCorePathSpec(rows, path).1, path) == SetCorePathSpec(rows, path)
  {
    var once := SetCorePathSpec(rows, path).1;
    assert (once - {KeyCorePath})[KeyCorePath := Str(path)] == once;
  }

  lemma AutoStartRoundTrip(rows: Rows, enabled: bool)
    ensures AutoStartOf(SetAutoStartSpec(rows, enabled)) == enabled
  {
  }

  /** The two settings are independent: setting one never changes what the other reads. */
  lemma SettersIndependent(rows: Rows, path: string, enabled: bool)
    ensures AutoStartOf(SetCorePathSpec(rows, path).1) == AutoStartOf(rows)
    ensures CorePathOf(SetAutoStartSpec(rows, enabled)) == CorePathOf(rows)
  {
    assert KeyCorePath != KeyAutoStart;
  }

  /** A path stored under the key by another writer as a non-string reads as unset. */
  lemma MistypedPathReadsNone(rows: Rows, v: Json)
    requires !v.Str?
    ensures CorePathOf(rows[KeyCorePath := v]) == None
  {
  }

  /** `set_core_path` on the kv table. */
  method SetCorePath(store: KvStore, path: string) returns (r: Result<(), Error>)
    modifies store
    ensures (r, store.rows) == SetCorePathSpec(old(store.rows), path)
  {
    if path == [] {
      return Failure(CustomErr("missing path"));
    }
    store.rows := store.rows - {KeyCorePath};
    store.rows := store.rows[KeyCorePath := Str(path)];
    r := Success(());
  }

  /** `get_core_path` on the kv table. */
  method GetCorePath(store: KvStore) returns (r: Option<string>)
    ensures r == CorePathOf(store.rows)
  {
    if KeyCorePath in store.rows && store.rows[KeyCorePath].Str? {
      r := Some(store.rows[KeyCorePath].s);
    } else {
      r := None;
    }
  }

  /** `set_auto_start` on the kv table. */
  method SetAutoStart(store: KvStore, enabled: bool)
    modifies store
    ensures store.rows == SetAutoStartSpec(old(store.rows), enabled)
  {
    store.rows := store.rows - {KeyAutoStart};
    store.rows := store.rows[KeyAutoStart := Bool(enabled)];
  }

  /** `get_auto_start` on the kv table. */
  method GetAutoStart(store: KvStore) returns (r: bool)
    ensures r == AutoStartOf(store.rows)
  {
    r := false;
    if KeyAutoStart in store.rows {
      match store.rows[KeyAutoStart] {
        case Bool(b) => r := b;
        case _ =>
      }
    }
  }
}
