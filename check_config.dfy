/**
 * `ServiceInner::check_config` (src/service/service.rs): before the proxy is started its
 * JSON configuration is normalised so that logs go to stdout without timestamps and the
 * proxy's control API is enabled, and the API's listen address and secret are read back.
 */
module ConfigCheck {
  import opened Wrappers
  import opened Strings
  import opened Json

  const KeyLog := "log"
  const KeyDisabled := "disabled"
  const KeyOutput := "output"
  const KeyTimestamp := "timestamp"
  const KeyExperimental := "experimental"
  const KeyClashApi := "clash_api"
  const KeyController := "external_controller"
  const KeySecret := "secret"

  /** `DEFAULT_CLASH_API_LISTEN`. */
  const DefaultListen := "127.0.0.1:9090"

  type Fields = map<string, Json>

  /** What a check found or set up: the document and the control API's listen address and secret. */
  datatype Checked = Checked(doc: Fields, listen: string, secret: Option<string>)

  /** The `log` object after the check: no "disabled" key, output to stdout, no timestamps. */
  function QuietLog(log: Fields): (r: Fields)
    ensures r.Keys == log.Keys - {KeyDisabled} + {KeyOutput, KeyTimestamp}
    ensures KeyDisabled !in r && r[KeyOutput] == Str("stdout") && r[KeyTimestamp] == Bool(false)
    ensures forall k :: k in log && k != KeyDisabled && k != KeyOutput && k != KeyTimestamp ==> r[k] == log[k]
  {
    (log - {KeyDisabled})[KeyOutput := Str("stdout")][KeyTimestamp := Bool(false)]
  }

  /** The listen address a clash_api object names, and the object with the default inserted when it names none. */
  function WithListen(api: Fields): (r: (Fields, string))
    ensures HasString(api, KeyController) ==> r == (api, api[KeyController].s)
    ensures !HasString(api, KeyController) ==> r == (api[KeyController := Str(DefaultListen)], DefaultListen)
  {
    if HasString(api, KeyController) then (api, api[KeyController].s)
    else (api[KeyController := Str(DefaultListen)], DefaultListen)
  }

  /**
   * The `init_clash_api_map` closure: the listen address (the default is inserted when
   * absent or not a string), then the secret: an existing string, else a fresh token
   * without dashes when `initSecret` (inserted too), else none.
   */
  function InitClashApi(api: Fields, initSecret: bool, uuid: string): (r: (Fields, string, Option<string>))
    ensures r.0.Keys == api.Keys + {KeyController} + (if initSecret then {KeySecret} else {})
    ensures HasString(r.0, KeyController) && r.0[KeyController] == Str(r.1)
    ensures HasString(api, KeyController) ==> r.1 == api[KeyController].s
    ensures !HasString(api, KeyController) ==> r.1 == DefaultListen
    ensures HasString(api, KeySecret) ==> r.2 == Some(api[KeySecret].s) && r.0[KeySecret] == api[KeySecret]
    ensures !HasString(api, KeySecret) && initSecret ==> r.2 == Some(RemoveChar(uuid, '-'))
    ensures !HasString(api, KeySecret) && !initSecret ==> r.2 == None
    ensures r.2.Some? ==> r.0[KeySecret] == Str(r.2.value)
    ensures !initSecret || HasString(api, KeySecret) ==> r.0 == WithListen(api).0
    ensures forall k :: k in api && k != KeyController && k != KeySecret ==> r.0[k] == api[k]
  {
    var (api, listen) := WithListen(api);
    if HasString(api, KeySecret) then (api, listen, Some(api[KeySecret].s))
    else if initSecret then
      var secret := RemoveChar(uuid, '-');
      (api[KeySecret := Str(secret)], listen, Some(secret))
    else (api, listen, None)
  }

  /** A clash_api object made from scratch: the default listen address and a fresh secret. */
  function FreshClashApi(uuid: string): Fields {
    map[KeyController := Str(DefaultListen), KeySecret := Str(RemoveChar(uuid, '-'))]
  }

  /** `check_config` on the top-level object of the document (the only shape the callers store). */
  function CheckConfig(doc: Fields, uuid: string): Checked {
    var doc := if HasObject(doc, KeyLog) then doc[KeyLog := Object(QuietLog(doc[KeyLog].fields))] else doc;
    if HasObject(doc, KeyExperimental) then
      var experimental := doc[KeyExperimental].fields;
      if HasObject(experimental, KeyClashApi) then
        var (api, listen, secret) := InitClashApi(experimental[KeyClashApi].fields, false, uuid);
        Checked(doc[KeyExperimental := Object(experimental[KeyClashApi := Object(api)])], listen, secret)
      else
        var (api, listen, secret) := InitClashApi(map[], true, uuid);
        Checked(doc[KeyExperimental := Object(experimental[KeyClashApi := Object(api)])], listen, secret)
    else
      var (api, listen, secret) := InitClashApi(map[], true, uuid);
      Checked(doc[KeyExperimental := Object(map[KeyClashApi := Object(api)])], listen, secret)
  }

  /** The clash_api object a checked document holds. */
  function ClashApiOf(doc: Fields): Fields
    requires HasObject(doc, KeyExperimental) && HasObject(doc[KeyExperimental].fields, KeyClashApi)
  {
    doc[KeyExperimental].fields[KeyClashApi].fields
  }

  lemma FreshInit(uuid: string)
    ensures InitClashApi(map[], true, uuid) == (FreshClashApi(uuid), DefaultListen, Some(RemoveChar(uuid, '-')))
  {
    var r := InitClashApi(map[], true, uuid);
    assert r.0 == FreshClashApi(uuid);
  }

  /**
   * After the check the control API is configured: `experimental.clash_api.external_controller`
   * is the returned listen address, which is the configured string or the default.
   */
  lemma ListenIsConfigured(doc: Fields, uuid: string)
    ensures var c := CheckConfig(doc, uuid);
      && HasObject(c.doc, KeyExperimental) && HasObject(c.doc[KeyExperimental].fields, KeyClashApi)
      && ClashApiOf(c.doc)[KeyController] == Str(c.listen)
      && (c.secret.Some? ==> ClashApiOf(c.doc)[KeySecret] == Str(c.secret.value))
  {
  }

  /**
   * The secret: an existing clash_api object keeps what it has (its string secret, or none
   * at all), while a clash_api the check creates gets a fresh token without dashes.
   */
  lemma SecretCases(doc: Fields, uuid: string)
    ensures var c := CheckConfig(doc, uuid);
      if HasObject(doc, KeyExperimental) && HasObject(doc[KeyExperimental].fields, KeyClashApi) then
        var api := doc[KeyExperimental].fields[KeyClashApi].fields;
        && c.secret == (if HasString(api, KeySecret) then Some(api[KeySecret].s) else None)
        && ClashApiOf(c.doc) == WithListen(api).0
        && c.listen == WithListen(api).1
      else
        && c.secret == Some(RemoveChar(uuid, '-'))
        && ClashApiOf(c.doc) == FreshClashApi(uuid)
        && c.listen == DefaultListen
  {
    FreshInit(uuid);
  }

  /** A missing or non-object `experimental` is replaced by an object holding only the new clash_api. */
  lemma ExperimentalReplaced(doc: Fields, uuid: string)
    requires !HasObject(doc, KeyExperimental)
    ensures CheckConfig(doc, uuid).doc[KeyExperimental] == Object(map[KeyClashApi := Object(FreshClashApi(uuid))])
  {
    FreshInit(uuid);
  }

  /**
   * The log object is rewritten iff there is one; every other top-level key is untouched,
   * and inside `experimental` only `clash_api` changes.
   */
  lemma OnlyLogAndApiChange(doc: Fields, uuid: string)
    ensures var c := CheckConfig(doc, uuid);
      && c.doc.Keys == doc.Keys + {KeyExperimental}
      && (HasObject(doc, KeyLog) ==> c.doc[KeyLog] == Object(QuietLog(doc[KeyLog].fields)))
      && (!HasObject(doc, KeyLog) && KeyLog in doc ==> c.doc[KeyLog] == doc[KeyLog])
      && (forall k :: k in doc && k != KeyLog && k != KeyExperimental ==> c.doc[k] == doc[k])
      && (HasObject(doc, KeyExperimental) ==>
            var before := doc[KeyExperimental].fields;
            var after := c.doc[KeyExperimental].fields;
            && after.Keys == before.Keys + {KeyClashApi}
            && forall k :: k in before && k != KeyClashApi ==> after[k] == before[k])
  {
    assert KeyLog != KeyExperimental;
  }

  /** Quieting the log twice is quieting it once. */
  lemma QuietLogIdempotent(log: Fields)
    ensures QuietLog(QuietLog(log)) == QuietLog(log)
  {
    var once := QuietLog(log);
    assert QuietLog(once) == once;
  }

  /** The clash_api step twice is the step once: a second pass finds the listen address (and any secret) in place. */
  lemma InitClashApiIdempotent(api: Fields, initSecret: bool, uuid: string, uuid2: string)
    ensures var r := InitClashApi(api, initSecret, uuid);
      InitClashApi(r.0, false, uuid2) == r
  {
    var r := InitClashApi(api, initSecret, uuid);
    assert HasString(r.0, KeyController);
    assert r.0[KeyController := Str(r.1)] == r.0;
  }

  /**
   * The check is idempotent: checking a checked document again, with any fresh token,
   * changes nothing and reads back the same listen address and secret.
   */
  lemma CheckConfigIdempotent(doc: Fields, uuid: string, uuid2: string)
    ensures var c := CheckConfig(doc, uuid);
      CheckConfig(c.doc, uuid2) == c
  {
    var c := CheckConfig(doc, uuid);
    var logged := if HasObject(doc, KeyLog) then doc[KeyLog := Object(QuietLog(doc[KeyLog].fields))] else doc;
    assert logged.Keys <= c.doc.Keys;
    if HasObject(doc, KeyLog) {
      QuietLogIdempotent(doc[KeyLog].fields);
      assert c.doc[KeyLog := Object(QuietLog(c.doc[KeyLog].fields))] == c.doc;
    }
    var logged2 := if HasObject(c.doc, KeyLog) then c.doc[KeyLog := Object(QuietLog(c.doc[KeyLog].fields))] else c.doc;
    assert logged2 == c.doc;
    var experimental := c.doc[KeyExperimental].fields;
    var api := experimental[KeyClashApi].fields;
    if HasObject(logged, KeyExperimental) && HasObject(logged[KeyExperimental].fields, KeyClashApi) {
      InitClashApiIdempotent(logged[KeyExperimental].fields[KeyClashApi].fields, false, uuid, uuid2);
    } else {
      InitClashApiIdempotent(map[], true, uuid, uuid2);
    }
    var r2 := InitClashApi(api, false, uuid2);
    assert r2 == (api, c.listen, c.secret);
    assert experimental[KeyClashApi := Object(api)] == experimental;
    assert c.doc[KeyExperimental := Object(experimental)] == c.doc;
  }

  /**
   * `check_config` as the source performs it, editing the document's maps in place: the
   * `log` object first, then the clash_api object inside `experimental`, creating either
   * one when it is missing.
   */
  method CheckConfigInPlace(config: Json, uuid: string) returns (checked: Json, listen: string, secret: Option<string>)
    requires config.Object?
    ensures checked.Object? && Checked(checked.fields, listen, secret) == CheckConfig(config.fields, uuid)
  {
    var root := config.fields;
    if KeyLog in root && root[KeyLog].Object? {
      var log := root[KeyLog].fields;
      log := log - {KeyDisabled};
      log := log[KeyOutput := Str("stdout")];
      log := log[KeyTimestamp := Bool(false)];
      root := root[KeyLog := Object(log)];
    }
    var api: Fields;
    var initSecret: bool;
    var experimental: Fields;
    if KeyExperimental in root && root[KeyExperimental].Object? {
      experimental := root[KeyExperimental].fields;
      if KeyClashApi in experimental && experimental[KeyClashApi].Object? {
        api, initSecret := experimental[KeyClashApi].fields, false;
      } else {
        api, initSecret := map[], true;
      }
    } else {
      experimental, api, initSecret := map[], map[], true;
    }
    if KeyController in api && api[KeyController].Str? {
      listen := api[KeyController].s;
    } else {
      api := api[KeyController := Str(DefaultListen)];
      listen := DefaultListen;
    }
    if KeySecret in api && api[KeySecret].Str? {
      secret := Some(api[KeySecret].s);
    } else if initSecret {
      var token := RemoveChar(uuid, '-');
      api := api[KeySecret := Str(token)];
      secret := Some(token);
    } else {
      secret := None;
    }
    experimental := experimental[KeyClashApi := Object(api)];
    root := root[KeyExperimental := Object(experimental)];
    checked := Object(root);
  }
}
