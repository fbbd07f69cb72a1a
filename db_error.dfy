/** The persistence layer's error values (src/database/error.rs) and their Display text. */
module DbErrors {
  import opened Strings

  /** The backend failures the table model can produce (`sea_orm::DbErr`). */
  datatype DbErr =
    | UniqueViolation(column: string)   // an insert or update would duplicate a unique column
    | RecordNotUpdated                  // `update` found no row with the given primary key
    | RecordNotFound                    // an `update` that sets no column looked the row up and found none
    | Backend(detail: string)           // anything else the database reports

  /**
   * What `ActiveModel::update` reports for a primary key with no row: an update that sets
   * no column only looks the row up again, and fails with `RecordNotFound`; any other
   * update fails with `RecordNotUpdated`.
   */
  function MissingRow(setsNoColumn: bool): (e: DbErr)
    ensures e.RecordNotFound? <==> setsNoColumn
    ensures e.RecordNotUpdated? <==> !setsNoColumn
  {
    if setsNoColumn then RecordNotFound else RecordNotUpdated
  }

  /** An abbreviation of the Debug text of a backend error. */
  function DbErrDebug(e: DbErr): string {
    match e
    case UniqueViolation(c) => "UNIQUE constraint failed: " + c
    case RecordNotUpdated => "RecordNotUpdated"
    case RecordNotFound => "RecordNotFound"
    case Backend(d) => d
  }

  datatype Error =
    | DBError(db: DbErr)
    | ConfigMissingID | ConfigMissingTag | ConfigMissingConfig | ConfigInvalidConfig
    | ConfigDuplicateTag | ConfigNotFound(id: string)
    | ScriptMissingID | ScriptMissingTag | ScriptDuplicateTag | ScriptNotFound(id: string)
    | KvMissingKey | KvNotFound(key: string)
    | CustomErr(message: string)

  predicate IsConfigError(e: Error) {
    e.ConfigMissingID? || e.ConfigMissingTag? || e.ConfigMissingConfig? || e.ConfigInvalidConfig?
    || e.ConfigDuplicateTag? || e.ConfigNotFound?
  }

  predicate IsScriptError(e: Error) {
    e.ScriptMissingID? || e.ScriptMissingTag? || e.ScriptDuplicateTag? || e.ScriptNotFound?
  }

  /** `impl Display for Error`. */
  function Display(e: Error): string {
    match e
    case DBError(d) => "database error: " + DbErrDebug(d)
    case ConfigMissingID => "config: " + "missing id"
    case ConfigMissingTag => "config: " + "missing tag"
    case ConfigMissingConfig => "config: " + "missing config"
    case ConfigInvalidConfig => "config: " + "invalid config"
    case ConfigDuplicateTag => "config: " + "duplicate tag"
    case ConfigNotFound(id) => "config: " + "not found, id: " + id
    case ScriptMissingID => "script: " + "missing id"
    case ScriptMissingTag => "script: " + "missing tag"
    case ScriptDuplicateTag => "script: " + "duplicate tag"
    case ScriptNotFound(id) => "script: " + "not found, id: " + id
    case KvMissingKey => "kv: " + "missing key"
    case KvNotFound(key) => "kv: " + "not found, key: " + key
    case CustomErr(m) => m
  }

  lemma Concat(p: string, q: string)
    ensures StartsWith(p + q, p) && EndsWith(p + q, q)
  {
    assert (p + q)[..|p|] == p;
    assert (p + q)[|p|..] == q;
  }

  /** Each table's errors are reported under that table's prefix, and not-found errors end in the id or key. */
  lemma DisplayPrefixes(e: Error)
    ensures IsConfigError(e) ==> StartsWith(Display(e), "config: ")
    ensures IsScriptError(e) ==> StartsWith(Display(e), "script: ")
    ensures e.KvMissingKey? || e.KvNotFound? ==> StartsWith(Display(e), "kv: ")
    ensures e.DBError? ==> StartsWith(Display(e), "database error: ")
    ensures e.ConfigNotFound? ==> EndsWith(Display(e), e.id)
    ensures e.ScriptNotFound? ==> EndsWith(Display(e), e.id)
    ensures e.KvNotFound? ==> EndsWith(Display(e), e.key)
  {
    if IsConfigError(e) {
      ConfigPrefix(e);
    } else if IsScriptError(e) {
      ScriptPrefix(e);
    } else if e.KvMissingKey? || e.KvNotFound? {
      KvPrefix(e);
    } else if e.DBError? {
      Concat("database error: ", DbErrDebug(e.db));
    }
  }

  lemma ConfigPrefix(e: Error)
    requires IsConfigError(e)
    ensures StartsWith(Display(e), "config: ")
    ensures e.ConfigNotFound? ==> EndsWith(Display(e), e.id)
  {
    var p := "config: ";
    match e {
      case ConfigMissingID => Concat(p, "missing id");
      case ConfigMissingTag => Concat(p, "missing tag");
      case ConfigMissingConfig => Concat(p, "missing config");
      case ConfigInvalidConfig => Concat(p, "invalid config");
      case ConfigDuplicateTag => Concat(p, "duplicate tag");
      case ConfigNotFound(id) =>
        Concat(p, "not found, id: " + id);
        Concat(p + "not found, id: ", id);
    }
  }

  lemma ScriptPrefix(e: Error)
    requires IsScriptError(e)
    ensures StartsWith(Display(e), "script: ")
    ensures e.ScriptNotFound? ==> EndsWith(Display(e), e.id)
  {
    var p := "script: ";
    match e {
      case ScriptMissingID => Concat(p, "missing id");
      case ScriptMissingTag => Concat(p, "missing tag");
      case ScriptDuplicateTag => Concat(p, "duplicate tag");
      case ScriptNotFound(id) =>
        Concat(p, "not found, id: " + id);
        Concat(p + "not found, id: ", id);
    }
  }

  lemma KvPrefix(e: Error)
    requires e.KvMissingKey? || e.KvNotFound?
    ensures StartsWith(Display(e), "kv: ")
    ensures e.KvNotFound? ==> EndsWith(Display(e), e.key)
  {
    var p := "kv: ";
    match e {
      case KvMissingKey => Concat(p, "missing key");
      case KvNotFound(key) =>
        Concat(p, "not found, key: " + key);
        Concat(p + "not found, key: ", key);
    }
  }

  /** The not-found messages give the id or key back: equal messages mean equal ids. */
  lemma NotFoundInjective(e1: Error, e2: Error)
    requires e1.ConfigNotFound? && e2.ConfigNotFound? && Display(e1) == Display(e2)
    ensures e1 == e2
  {
    var p := "config: not found, id: ";
    assert Display(e1)[|p|..] == e1.id;
    assert Display(e2)[|p|..] == e2.id;
  }
}
