/**
 * The configuration table of src/database/config.rs as a map from id to row: the
 * validation of new and patched documents, the generated id, the unique tag column,
 * bulk deletion through an OR-filter, and the single active configuration.
 */
module ConfigTable {
  import opened Wrappers
  import opened Strings
  import opened Json
  import opened DbErrors
  import opened IdFilter

  /** `config::Model`. */
  datatype Config = Config(id: string, tag: string, config: Json, actived: bool)

  type Rows = map<string, Config>

  /** The table's own constraints: rows are keyed by their id and the tag column is unique. */
  predicate Consistent(rows: Rows) {
    && (forall id :: id in rows ==> rows[id].id == id)
    && (forall a, b :: a in rows && b in rows && a != b ==> rows[a].tag != rows[b].tag)
  }

  /** The invariant `set_active_config` maintains: at most one row is active. */
  predicate AtMostOneActive(rows: Rows) {
    forall a, b :: a in rows && b in rows && rows[a].actived && rows[b].actived ==> a == b
  }

  /** Some row other than `except` already carries `tag`. */
  predicate TagTaken(rows: Rows, tag: string, except: string) {
    exists k :: k in rows && k != except && rows[k].tag == tag
  }

  /** The document check shared by add and modify: only objects are accepted. */
  function CheckDocument(doc: Json): (r: Option<Error>)
    ensures r.None? <==> doc.Object?
    ensures doc.Null? ==> r == Some(ConfigMissingConfig)
    ensures !doc.Null? && !doc.Object? ==> r == Some(ConfigInvalidConfig)
  {
    match doc
    case Object(_) => None
    case Null => Some(ConfigMissingConfig)
    case _ => Some(ConfigInvalidConfig)
  }

  /** The id a new row gets: the given one, or the generated token without dashes. */
  function NewId(id: string, uuid: string): (r: string)
    ensures id != [] ==> r == id
    ensures id == [] ==> '-' !in r
  {
    if id == [] then RemoveChar(uuid, '-') else id
  }

  /**
   * `add_config`: tag first, then the document, then the id (generated when empty),
   * then an existing id (reported as a duplicate tag), then the unique tag column.
   */
  function AddConfigSpec(rows: Rows, c: Config, uuid: string): (r: (Result<Config, Error>, Rows))
    ensures c.tag == [] ==> r == (Failure(ConfigMissingTag), rows)
    ensures c.tag != [] && CheckDocument(c.config).Some? ==> r == (Failure(CheckDocument(c.config).value), rows)
    ensures r.0.Failure? ==> r.1 == rows
    ensures r.0.Success? <==>
      c.tag != [] && c.config.Object? && NewId(c.id, uuid) !in rows && !TagTaken(rows, c.tag, NewId(c.id, uuid))
    ensures r.0.Success? ==> r.0.value == c.(id := NewId(c.id, uuid)) && r.1 == rows[r.0.value.id := r.0.value]
  {
    if c.tag == [] then (Failure(ConfigMissingTag), rows)
    else if CheckDocument(c.config).Some? then (Failure(CheckDocument(c.config).value), rows)
    else
      var id := NewId(c.id, uuid);
      if id in rows then (Failure(ConfigDuplicateTag), rows)
      else if TagTaken(rows, c.tag, id) then (Failure(DBError(UniqueViolation("config.tag"))), rows)
      else
        var row := c.(id := id);
        (Success(row), rows[id := row])
  }

  /** `get_config`. */
  function GetConfigSpec(rows: Rows, id: string): (r: Result<Config, Error>)
    ensures id == [] ==> r == Failure(ConfigMissingID)
    ensures id != [] && id !in rows ==> r == Failure(ConfigNotFound(id))
    ensures r.Success? <==> id != [] && id in rows
    ensures r.Success? ==> r.value == rows[id]
  {
    if id == [] then Failure(ConfigMissingID)
    else if id !in rows then Failure(ConfigNotFound(id))
    else Success(rows[id])
  }

  /** The columns a PATCH request sets. */
  datatype ConfigPatch = ConfigPatch(tag: Option<string>, config: Option<Json>)

  function Patched(row: Config, p: ConfigPatch): Config {
    row.(tag := p.tag.GetOr(row.tag), config := p.config.GetOr(row.config))
  }

  /**
   * `modify_config`: an empty id, then a document that is being set and is not an
   * object, then the update itself, which fails when no row has the id or the new tag
   * belongs to another row.
   */
  function ModifyConfigSpec(rows: Rows, id: string, p: ConfigPatch): (r: (Result<Config, Error>, Rows))
    ensures id == [] ==> r == (Failure(ConfigMissingID), rows)
    ensures id != [] && p.config.Some? && CheckDocument(p.config.value).Some? ==>
      r == (Failure(CheckDocument(p.config.value).value), rows)
    ensures r.0.Failure? ==> r.1 == rows
    ensures r.0.Success? <==>
      && id != [] && (p.config.Some? ==> p.config.value.Object?) && id in rows
      && (p.tag.Some? ==> !TagTaken(rows, p.tag.value, id))
    ensures r.0.Success? ==> r.0.value == Patched(rows[id], p) && r.1 == rows[id := r.0.value]
    ensures id != [] && (p.config.Some? ==> p.config.value.Object?) && id !in rows ==>
      r.0 == Failure(DBError(if p == ConfigPatch(None, None) then RecordNotFound else RecordNotUpdated))
  {
    if id == [] then (Failure(ConfigMissingID), rows)
    else if p.config.Some? && CheckDocument(p.config.value).Some? then
      (Failure(CheckDocument(p.config.value).value), rows)
    else if id !in rows then (Failure(DBError(MissingRow(p == ConfigPatch(None, None)))), rows)
    else if p.tag.Some? && TagTaken(rows, p.tag.value, id) then
      (Failure(DBError(UniqueViolation("config.tag"))), rows)
    else
      var row := Patched(rows[id], p);
      (Success(row), rows[id := row])
  }

  /** `delete_config`: an empty id is refused; an absent id is not an error. */
  function DeleteConfigSpec(rows: Rows, id: string): (r: (Result<(), Error>, Rows))
    ensures id == [] ==> r == (Failure(ConfigMissingID), rows)
    ensures id != [] ==> r == (Success(()), rows - {id})
  {
    if id == [] then (Failure(ConfigMissingID), rows) else (Success(()), rows - {id})
  }

  /** Every row's active flag cleared (the first `update_many`). */
  function ClearActive(rows: Rows): (r: Rows)
    ensures r.Keys == rows.Keys
    ensures forall k :: k in rows ==> r[k] == rows[k].(actived := false)
  {
    map k | k in rows :: rows[k].(actived := false)
  }

  /** The row with this id marked active (the second `update_many`, a no-op for an unknown id). */
  function Activate(rows: Rows, id: string): (r: Rows)
    ensures r.Keys == rows.Keys
    ensures forall k :: k in rows && k != id ==> r[k] == rows[k]
    ensures id in rows ==> r[id] == rows[id].(actived := true)
  {
    if id in rows then rows[id := rows[id].(actived := true)] else rows
  }

  /** `set_active_config`: both updates in one transaction. */
  function SetActiveSpec(rows: Rows, id: string): Rows {
    Activate(ClearActive(rows), id)
  }

  /** `bulk_delete_config` on the table: nothing for an empty list, else the listed ids go. */
  function BulkDeleteSpec(rows: Rows, ids: seq<string>): (r: Rows)
    ensures r.Keys == rows.Keys - set i | i in ids
    ensures forall k :: k in r ==> r[k] == rows[k]
  {
    map k | k in rows && k !in ids :: rows[k]
  }

  /** After activation exactly the named row is active, or none when the id is unknown. */
  lemma SetActiveExactlyOne(rows: Rows, id: string)
    ensures var after := SetActiveSpec(rows, id);
      && after.Keys == rows.Keys
      && (forall k :: k in after ==> (after[k].actived <==> k == id))
      && (forall k :: k in after ==> after[k].(actived := rows[k].actived) == rows[k])
      && AtMostOneActive(after)
  {
  }

  /** Activation never breaks the table's own constraints. */
  lemma SetActiveConsistent(rows: Rows, id: string)
    requires Consistent(rows)
    ensures Consistent(SetActiveSpec(rows, id))
  {
    var after := SetActiveSpec(rows, id);
    forall a, b | a in after && b in after && a != b ensures after[a].tag != after[b].tag {
      assert after[a].tag == rows[a].tag && after[b].tag == rows[b].tag;
    }
  }

  /** An added row keeps the constraints; an inactive one (as the HTTP handler adds) keeps "at most one active". */
  lemma AddPreserves(rows: Rows, c: Config, uuid: string)
    requires Consistent(rows)
    ensures Consistent(AddConfigSpec(rows, c, uuid).1)
    ensures AtMostOneActive(rows) && !c.actived ==> AtMostOneActive(AddConfigSpec(rows, c, uuid).1)
  {
    var r := AddConfigSpec(rows, c, uuid);
    if r.0.Success? {
      var id := r.0.value.id;
      var after := r.1;
      forall a, b | a in after && b in after && a != b ensures after[a].tag != after[b].tag {
        if a == id {
          assert !TagTaken(rows, c.tag, id);
          assert rows[b].tag != c.tag;
        } else if b == id {
          assert !TagTaken(rows, c.tag, id);
          assert rows[a].tag != c.tag;
        }
      }
    }
  }

  /** A patch keeps the constraints and never changes which row is active. */
  lemma ModifyPreserves(rows: Rows, id: string, p: ConfigPatch)
    requires Consistent(rows)
    ensures Consistent(ModifyConfigSpec(rows, id, p).1)
    ensures AtMostOneActive(rows) ==> AtMostOneActive(ModifyConfigSpec(rows, id, p).1)
  {
    var r := ModifyConfigSpec(rows, id, p);
    if r.0.Success? {
      var after := r.1;
      forall a, b | a in after && b in after && a != b ensures after[a].tag != after[b].tag {
        if a == id && p.tag.Some? {
          assert !TagTaken(rows, p.tag.value, id);
          assert rows[b].tag != p.tag.value;
        } else if b == id && p.tag.Some? {
          assert !TagTaken(rows, p.tag.value, id);
          assert rows[a].tag != p.tag.value;
        }
      }
    }
  }

  /** Deleting rows, one or many, keeps both invariants. */
  lemma DeletePreserves(rows: Rows, id: string, ids: seq<string>)
    requires Consistent(rows) && AtMostOneActive(rows)
    ensures Consistent(DeleteConfigSpec(rows, id).1) && AtMostOneActive(DeleteConfigSpec(rows, id).1)
    ensures Consistent(BulkDeleteSpec(rows, ids)) && AtMostOneActive(BulkDeleteSpec(rows, ids))
  {
  }

  /** Two tags cannot be stored under one id, and one tag cannot be added twice. */
  lemma AddTwiceRejected(rows: Rows, c: Config, uuid: string)
    requires Consistent(rows)
    requires AddConfigSpec(rows, c, uuid).0.Success?
    ensures var after := AddConfigSpec(rows, c, uuid).1;
      AddConfigSpec(after, c, uuid).0.Failure?
  {
    var row := AddConfigSpec(rows, c, uuid).0.value;
    assert row.id in AddConfigSpec(rows, c, uuid).1;
  }

  /** The config table, updated in place. */
  class ConfigStore {
    var rows: Rows

    constructor ()
      ensures rows == map[]
    {
      rows := map[];
    }

    /** `add_config`; `uuid` is the token `random_uuid` would return. */
    method AddConfig(c: Config, uuid: string) returns (r: Result<Config, Error>)
      modifies this
      ensures (r, rows) == AddConfigSpec(old(rows), c, uuid)
    {
      if c.tag == [] {
        return Failure(ConfigMissingTag);
      }
      match c.config {
        case Object(_) =>
        case Null => return Failure(ConfigMissingConfig);
        case _ => return Failure(ConfigInvalidConfig);
      }
      var row := c;
      if row.id == [] {
        row := row.(id := RemoveChar(uuid, '-'));
      }
      if row.id in rows {
        return Failure(ConfigDuplicateTag);
      }
      if exists k :: k in rows && k != row.id && rows[k].tag == row.tag {
        return Failure(DBError(UniqueViolation("config.tag")));
      }
      rows := rows[row.id := row];
      r := Success(row);
    }

    /** `get_config`. */
    method GetConfig(id: string) returns (r: Result<Config, Error>)
      ensures r == GetConfigSpec(rows, id)
      ensures r.Success? ==> r.value.config == rows[id].config && r.value.tag == rows[id].tag
    {
      if id == [] {
        return Failure(ConfigMissingID);
      }
      if id !in rows {
        return Failure(ConfigNotFound(id));
      }
      r := Success(rows[id]);
    }

    /** `modify_config`. */
    method ModifyConfig(id: string, p: ConfigPatch) returns (r: Result<Config, Error>)
      modifies this
      ensures (r, rows) == ModifyConfigSpec(old(rows), id, p)
    {
      if id == [] {
        return Failure(ConfigMissingID);
      }
      if p.config.Some? {
        match p.config.value {
          case Object(_) =>
          case Null => return Failure(ConfigMissingConfig);
          case _ => return Failure(ConfigInvalidConfig);
        }
      }
      if id !in rows {
        return Failure(DBError(MissingRow(p == ConfigPatch(None, None))));
      }
      var row := rows[id];
      if p.tag.Some? {
        if exists k :: k in rows && k != id && rows[k].tag == p.tag.value {
          return Failure(DBError(UniqueViolation("config.tag")));
        }
        row := row.(tag := p.tag.value);
      }
      if p.config.Some? {
        row := row.(config := p.config.value);
      }
      rows := rows[id := row];
      r := Success(row);
    }

    /** `delete_config`. */
    method DeleteConfig(id: string) returns (r: Result<(), Error>)
      modifies this
      ensures (r, rows) == DeleteConfigSpec(old(rows), id)
    {
      if id == [] {
        return Failure(ConfigMissingID);
      }
      if id in rows {
        rows := rows - {id};
      } else {
        assert rows - {id} == rows;
      }
      r := Success(());
    }

    /** `bulk_delete_config`: build the OR-filter in a loop, then delete what it matches. */
    method BulkDeleteConfig(ids: seq<string>)
      modifies this
      ensures rows == BulkDeleteSpec(old(rows), ids)
    {
      if |ids| == 0 {
        assert BulkDeleteSpec(rows, ids) == rows;
        return;
      }
      var f := BuildFilter(ids);
      rows := map k | k in rows && !Matches(f, k) :: rows[k];
    }

    /** `set_active_config`. */
    method SetActiveConfig(id: string)
      modifies this
      ensures rows == SetActiveSpec(old(rows), id)
    {
      rows := ClearActive(rows);
      if id in rows {
        rows := rows[id := rows[id].(actived := true)];
      }
    }

    /** `get_active_config`: some active row, or None when no row is active. */
    method GetActiveConfig() returns (r: Option<Config>)
      ensures r.None? <==> forall k :: k in rows ==> !rows[k].actived
      ensures r.Some? ==> r.value.actived && exists k :: k in rows && rows[k] == r.value
      ensures r.Some? && Consistent(rows) ==> r.value.id in rows && rows[r.value.id] == r.value
      ensures r.Some? && AtMostOneActive(rows) ==> forall k :: k in rows && rows[k].actived ==> rows[k] == r.value
    {
      if k :| k in rows && rows[k].actived {
        r := Some(rows[k]);
      } else {
        r := None;
      }
    }
  }
}
