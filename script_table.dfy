/**
 * The script table of src/database/script.rs as a map from id to row: the lifecycle
 * run-type codes, the row operations with their validation, and the run-type
 * assignment that keeps at most one script per lifecycle point.
 */
module ScriptTable {
  import opened Wrappers
  import opened Strings
  import opened DbErrors
  import opened IdFilter

  /** `ScriptRunType`: when a script runs, or never. */
  datatype ScriptRunType = Disabled | BeforeStart | AfterStart | BeforeClose | AfterClose

  /** `Into<u8> for ScriptRunType`. */
  function ToU8(t: ScriptRunType): (code: nat)
    ensures code < 5
    ensures code == 0 <==> t == Disabled
  {
    match t
    case Disabled => 0
    case BeforeStart => 1
    case AfterStart => 2
    case BeforeClose => 3
    case AfterClose => 4
  }

  /** Distinct run types are stored as distinct codes. */
  lemma ToU8Injective(a: ScriptRunType, b: ScriptRunType)
    ensures ToU8(a) == ToU8(b) ==> a == b
  {
  }

  /** `script::Model`; `runType` is the stored u8 code. */
  datatype Script = Script(id: string, tag: string, content: string, runType: nat)

  type Rows = map<string, Script>

  /** Rows are keyed by their id and the tag column is unique. */
  predicate Consistent(rows: Rows) {
    && (forall id :: id in rows ==> rows[id].id == id)
    && (forall a, b :: a in rows && b in rows && a != b ==> rows[a].tag != rows[b].tag)
  }

  /** At most one script holds each lifecycle point (every non-zero code). */
  predicate AtMostOneHolder(rows: Rows) {
    forall a, b :: a in rows && b in rows && rows[a].runType != 0 && rows[a].runType == rows[b].runType ==> a == b
  }

  predicate TagTaken(rows: Rows, tag: string, except: string) {
    exists k :: k in rows && k != except && rows[k].tag == tag
  }

  function NewId(id: string, uuid: string): (r: string)
    ensures id != [] ==> r == id
    ensures id == [] ==> '-' !in r
  {
    if id == [] then RemoveChar(uuid, '-') else id
  }

  /** `add_script`: tag, generated id, existing id (reported as a duplicate tag), unique tag column. */
  function AddScriptSpec(rows: Rows, s: Script, uuid: string): (r: (Result<Script, Error>, Rows))
    ensures s.tag == [] ==> r == (Failure(ScriptMissingTag), rows)
    ensures s.tag != [] && NewId(s.id, uuid) in rows ==> r == (Failure(ScriptDuplicateTag), rows)
    ensures r.0.Failure? ==> r.1 == rows
    ensures r.0.Success? <==> s.tag != [] && NewId(s.id, uuid) !in rows && !TagTaken(rows, s.tag, NewId(s.id, uuid))
    ensures r.0.Success? ==> r.0.value == s.(id := NewId(s.id, uuid)) && r.1 == rows[r.0.value.id := r.0.value]
  {
    if s.tag == [] then (Failure(ScriptMissingTag), rows)
    else
      var id := NewId(s.id, uuid);
      if id in rows then (Failure(ScriptDuplicateTag), rows)
      else if TagTaken(rows, s.tag, id) then (Failure(DBError(UniqueViolation("script.tag"))), rows)
      else
        var row := s.(id := id);
        (Success(row), rows[id := row])
  }

  /** `get_script`. */
  function GetScriptSpec(rows: Rows, id: string): (r: Result<Script, Error>)
    ensures id == [] ==> r == Failure(ScriptMissingID)
    ensures id != [] && id !in rows ==> r == Failure(ScriptNotFound(id))
    ensures r.Success? <==> id != [] && id in rows
    ensures r.Success? ==> r.value == rows[id]
  {
    if id == [] then Failure(ScriptMissingID)
    else if id !in rows then Failure(ScriptNotFound(id))
    else Success(rows[id])
  }

  /** The columns a PATCH request sets. */
  datatype ScriptPatch = ScriptPatch(tag: Option<string>, content: Option<string>)

  function Patched(row: Script, p: ScriptPatch): Script {
    row.(tag := p.tag.GetOr(row.tag), content := p.content.GetOr(row.content))
  }

  /** `modify_script`: an empty id, then the update (no row, or a tag that another row holds). */
  function ModifyScriptSpec(rows: Rows, id: string, p: ScriptPatch): (r: (Result<Script, Error>, Rows))
    ensures id == [] ==> r == (Failure(ScriptMissingID), rows)
    ensures r.0.Failure? ==> r.1 == rows
    ensures r.0.Success? <==> id != [] && id in rows && (p.tag.Some? ==> !TagTaken(rows, p.tag.value, id))
    ensures r.0.Success? ==> r.0.value == Patched(rows[id], p) && r.1 == rows[id := r.0.value]
    ensures r.0.Success? ==> r.0.value.runType == rows[id].runType
    ensures id != [] && id !in rows ==>
      r.0 == Failure(DBError(if p == ScriptPatch(None, None) then RecordNotFound else RecordNotUpdated))
  {
    if id == [] then (Failure(ScriptMissingID), rows)
    else if id !in rows then (Failure(DBError(MissingRow(p == ScriptPatch(None, None)))), rows)
    else if p.tag.Some? && TagTaken(rows, p.tag.value, id) then
      (Failure(DBError(UniqueViolation("script.tag"))), rows)
    else
      var row := Patched(rows[id], p);
      (Success(row), rows[id := row])
  }

  /** `delete_script`: an empty id is refused; an absent id is not an error. */
  function DeleteScriptSpec(rows: Rows, id: string): (r: (Result<(), Error>, Rows))
    ensures id == [] ==> r == (Failure(ScriptMissingID), rows)
    ensures id != [] ==> r == (Success(()), rows - {id})
  {
    if id == [] then (Failure(ScriptMissingID), rows) else (Success(()), rows - {id})
  }

  /** `bulk_delete_script` on the table. */
  function BulkDeleteSpec(rows: Rows, ids: seq<string>): (r: Rows)
    ensures r.Keys == rows.Keys - set i | i in ids
    ensures forall k :: k in r ==> r[k] == rows[k]
  {
    map k | k in rows && k !in ids :: rows[k]
  }

  /** `clean_script_type`: the row with this id, if any, goes back to Disabled. */
  function CleanSpec(rows: Rows, id: string): (r: Rows)
    ensures r.Keys == rows.Keys
    ensures forall k :: k in rows && k != id ==> r[k] == rows[k]
    ensures id in rows ==> r[id] == rows[id].(runType := 0)
  {
    if id in rows then rows[id := rows[id].(runType := 0)] else rows
  }

  /** Every row holding `code` reset to Disabled (the first `update_many` of the set macro). */
  function Release(rows: Rows, code: nat): (r: Rows)
    ensures r.Keys == rows.Keys
    ensures forall k :: k in rows ==> r[k] == if rows[k].runType == code then rows[k].(runType := 0) else rows[k]
  {
    map k | k in rows :: if rows[k].runType == code then rows[k].(runType := 0) else rows[k]
  }

  /** The set-run-type macro: release the point, then give it to the row with this id. */
  function SetRunTypeSpec(rows: Rows, point: ScriptRunType, id: string): Rows {
    var released := Release(rows, ToU8(point));
    if id in released then released[id := released[id].(runType := ToU8(point))] else released
  }

  /**
   * After set-run-type(point, id): the named script holds the point iff it exists, no
   * other script holds it, other labels are untouched, and only run types change.
   */
  lemma SetRunTypeExact(rows: Rows, point: ScriptRunType, id: string)
    requires point != Disabled
    ensures var after := SetRunTypeSpec(rows, point, id);
      && after.Keys == rows.Keys
      && (forall k :: k in after ==> (after[k].runType == ToU8(point) <==> k == id))
      && (forall k :: k in after && k != id && rows[k].runType != ToU8(point) ==> after[k] == rows[k])
      && (forall k :: k in after ==> after[k].(runType := rows[k].runType) == rows[k])
  {
  }

  /** Assigning a lifecycle point keeps "at most one holder per lifecycle point". */
  lemma SetKeepsHolders(rows: Rows, point: ScriptRunType, id: string)
    requires AtMostOneHolder(rows)
    ensures AtMostOneHolder(SetRunTypeSpec(rows, point, id))
  {
    var after := SetRunTypeSpec(rows, point, id);
    forall a, b | a in after && b in after && after[a].runType != 0 && after[a].runType == after[b].runType
      ensures a == b
    {
      if after[a].runType != ToU8(point) {
        assert a != id && b != id;
        assert after[a] == rows[a] && after[b] == rows[b];
      }
    }
  }

  /** Cleaning, deleting and bulk deleting only take holders away. */
  lemma RemovalsKeepHolders(rows: Rows, id: string, ids: seq<string>)
    requires AtMostOneHolder(rows)
    ensures AtMostOneHolder(CleanSpec(rows, id))
    ensures AtMostOneHolder(DeleteScriptSpec(rows, id).1)
    ensures AtMostOneHolder(BulkDeleteSpec(rows, ids))
  {
    var cleaned := CleanSpec(rows, id);
    forall a, b | a in cleaned && b in cleaned && cleaned[a].runType != 0 && cleaned[a].runType == cleaned[b].runType
      ensures a == b
    {
      assert cleaned[a] == rows[a] && cleaned[b] == rows[b];
    }
  }

  /** A modification never touches run types, and an add starting Disabled holds nothing. */
  lemma EditsKeepHolders(rows: Rows, id: string, p: ScriptPatch, s: Script, uuid: string)
    requires AtMostOneHolder(rows)
    ensures AtMostOneHolder(ModifyScriptSpec(rows, id, p).1)
    ensures s.runType == 0 ==> AtMostOneHolder(AddScriptSpec(rows, s, uuid).1)
  {
    var modified := ModifyScriptSpec(rows, id, p).1;
    forall a, b | a in modified && b in modified && modified[a].runType != 0 && modified[a].runType == modified[b].runType
      ensures a == b
    {
      assert modified[a].runType == rows[a].runType && modified[b].runType == rows[b].runType;
    }
    var added := AddScriptSpec(rows, s, uuid);
    if s.runType == 0 && added.0.Success? {
      var nid := added.0.value.id;
      forall a, b | a in added.1 && b in added.1 && added.1[a].runType != 0 && added.1[a].runType == added.1[b].runType
        ensures a == b
      {
        assert a != nid && b != nid;
      }
    }
  }

  /** A script can hold only one lifecycle point: giving it a second one takes the first away. */
  lemma OnePointPerScript(rows: Rows, first: ScriptRunType, second: ScriptRunType, id: string)
    requires first != Disabled && second != Disabled && first != second && id in rows
    ensures var after := SetRunTypeSpec(SetRunTypeSpec(rows, first, id), second, id);
      after[id].runType == ToU8(second) && forall k :: k in after ==> after[k].runType != ToU8(first) || k != id
  {
    ToU8Injective(first, second);
  }

  /** The script table, updated in place. */
  class ScriptStore {
    var rows: Rows

    constructor ()
      ensures rows == map[]
    {
      rows := map[];
    }

    /** `add_script`; `uuid` is the token `random_uuid` would return. */
    method AddScript(s: Script, uuid: string) returns (r: Result<Script, Error>)
      modifies this
      ensures (r, rows) == AddScriptSpec(old(rows), s, uuid)
    {
      if s.tag == [] {
        return Failure(ScriptMissingTag);
      }
      var row := s;
      if row.id == [] {
        row := row.(id := RemoveChar(uuid, '-'));
      }
      if row.id in rows {
        return Failure(ScriptDuplicateTag);
      }
      if exists k :: k in rows && k != row.id && rows[k].tag == row.tag {
        return Failure(DBError(UniqueViolation("script.tag")));
      }
      rows := rows[row.id := row];
      r := Success(row);
    }

    /** `get_script`. */
    method GetScript(id: string) returns (r: Result<Script, Error>)
      ensures r == GetScriptSpec(rows, id)
      ensures r.Success? ==> r.value.content == rows[id].content
    {
      if id == [] {
        return Failure(ScriptMissingID);
      }
      if id !in rows {
        return Failure(ScriptNotFound(id));
      }
      r := Success(rows[id]);
    }

    /** `modify_script`. */
    method ModifyScript(id: string, p: ScriptPatch) returns (r: Result<Script, Error>)
      modifies this
      ensures (r, rows) == ModifyScriptSpec(old(rows), id, p)
    {
      if id == [] {
        return Failure(ScriptMissingID);
      }
      if id !in rows {
        return Failure(DBError(MissingRow(p == ScriptPatch(None, None))));
      }
      var row := rows[id];
      if p.tag.Some? {
        if exists k :: k in rows && k != id && rows[k].tag == p.tag.value {
          return Failure(DBError(UniqueViolation("script.tag")));
        }
        row := row.(tag := p.tag.value);
      }
      if p.content.Some? {
        row := row.(content := p.content.value);
      }
      rows := rows[id := row];
      r := Success(row);
    }

    /** `delete_script`. */
    method DeleteScript(id: string) returns (r: Result<(), Error>)
      modifies this
      ensures (r, rows) == DeleteScriptSpec(old(rows), id)
    {
      if id == [] {
        return Failure(ScriptMissingID);
      }
      if id in rows {
        rows := rows - {id};
      } else {
        assert rows - {id} == rows;
      }
      r := Success(());
    }

    /** `bulk_delete_script`. */
    method BulkDeleteScript(ids: seq<string>)
      modifies this
      ensures rows == BulkDeleteSpec(old(rows), ids)
    {
      if |ids| == 0 {
        assert BulkDeleteSpec(rows, ids) == rows;
        return;
      }
      var f := BuildFilter(ids);
      rows := map k | k in rows && !Matches(f, k) :: rows[k];
    }

    /** `clean_script_type`. */
    method CleanScriptType(id: string)
      modifies this
      ensures rows == CleanSpec(old(rows), id)
    {
      if id in rows {
        rows := rows[id := rows[id].(runType := ToU8(Disabled))];
      }
    }

    /** `set_before_start_script` and its three siblings, one method for all four labels. */
    method SetRunTypeScript(point: ScriptRunType, id: string)
      modifies this
      ensures rows == SetRunTypeSpec(old(rows), point, id)
    {
      var code := ToU8(point);
      rows := map k | k in rows :: if rows[k].runType == code then rows[k].(runType := 0) else rows[k];
      if id in rows {
        rows := rows[id := rows[id].(runType := code)];
      }
    }

    /** `get_before_start_script` and its siblings: some script holding the point, or None. */
    method GetRunTypeScript(point: ScriptRunType) returns (r: Option<Script>)
      ensures r.None? <==> forall k :: k in rows ==> rows[k].runType != ToU8(point)
      ensures r.Some? ==> r.value.runType == ToU8(point) && exists k :: k in rows && rows[k] == r.value
      ensures r.Some? && point != Disabled && AtMostOneHolder(rows) ==>
        forall k :: k in rows && rows[k].runType == ToU8(point) ==> rows[k] == r.value
    {
      var code := ToU8(point);
      if k :| k in rows && rows[k].runType == code {
        r := Some(rows[k]);
      } else {
        r := None;
      }
    }
  }
}
