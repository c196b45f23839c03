/**
 * The validators and converters of the harvest source and harvest object
 * schemas: URL normalisation and the duplicate-URL check, the harvester-type,
 * config, active-flag, frequency and object-extras checks, the extras
 * whitelist and config merge, and the duplicate-name check.
 *
 * Form data is navl's flattened dictionary: keys are tuples of field names,
 * values are Python values.  The validators that write into that dictionary
 * (or into its error dictionary) are methods of `Flattened`; the others are
 * functions, or methods where the code loops.
 */
module Validators {
  import opened Wrappers
  import opened PyStr
  import opened HarvestModel

  /** The Python values the validators see; `Missing` is navl's `missing` marker. */
  datatype Value =
    | Missing
    | Null
    | Bool(b: bool)
    | Int(i: int)
    | Str(s: string)
    | List(items: seq<Value>)
    | Dict(entries: map<string, Value>)

  /** Python truthiness; navl's `missing` marker counts as false. */
  predicate Truthy(v: Value) {
    match v
    case Missing => false
    case Null => false
    case Bool(b) => b
    case Int(i) => i != 0
    case Str(s) => s != ""
    case List(items) => items != []
    case Dict(entries) => entries != map[]
  }

  /** A flattened navl key: the tuple of field names leading to a value. */
  type Key = seq<string>

  /** What a validator raises. */
  datatype Error = Invalid(message: string) | KeyError | ValueError

  /** `key[:-1]`. */
  function Parent(key: Key): (p: Key)
    ensures key != [] ==> key == p + [key[|key| - 1]]
  {
    if key == [] then [] else key[..|key| - 1]
  }

  /** `data.get(k, default)`. */
  function Get(data: map<Key, Value>, k: Key, default: Value): Value {
    if k in data then data[k] else default
  }

  // ---------------------------------------------------------------------
  // URL normalisation
  // ---------------------------------------------------------------------

  /** The six fields `urlparse` splits a URL into. */
  datatype Url = Url(scheme: string, netloc: string, path: string, params: string, query: string, fragment: string)

  /** The port a scheme implies: 80 for http and 443 for https. */
  predicate IsDefaultPort(scheme: string, port: string) {
    (scheme == "http" && port == "80") || (scheme == "https" && port == "443")
  }

  /**
   * The netloc `_normalize_url` keeps: the text before the first ':' when the
   * text between the first and the second ':' is the scheme's default port,
   * and the netloc as it was otherwise.
   */
  function NormalizeNetloc(scheme: string, netloc: string): string {
    if ':' in netloc then
      SplitPieces(netloc, ':');
      var parts := Split(netloc, ':');
      if IsDefaultPort(scheme, parts[1]) then parts[0] else Join(parts, ':')
    else netloc
  }

  /** `_normalize_url` on the parsed URL: port normalised, trailing '/' stripped, the rest dropped. */
  function NormalizeUrl(u: Url): (r: Url)
    ensures r.scheme == u.scheme
    ensures r.params == "" && r.query == "" && r.fragment == ""
    ensures r.path <= u.path && (r.path == "" || r.path[|r.path| - 1] != '/')
    ensures forall i | |r.path| <= i < |u.path| :: u.path[i] == '/'
  {
    Url(u.scheme, NormalizeNetloc(u.scheme, u.netloc), RStrip(u.path, '/'), "", "", "")
  }

  /** A netloc is left as it is unless its first port field is the scheme's default port. */
  lemma NormalizeNetlocKeeps(scheme: string, netloc: string)
    ensures ':' !in netloc ==> NormalizeNetloc(scheme, netloc) == netloc
    ensures ':' in netloc ==> |Split(netloc, ':')| >= 2
    ensures ':' in netloc ==>
      (NormalizeNetloc(scheme, netloc) == netloc <==> !IsDefaultPort(scheme, Split(netloc, ':')[1]))
  {
    if ':' in netloc {
      SplitPieces(netloc, ':');
      JoinSplit(netloc, ':');
      var parts := Split(netloc, ':');
      if IsDefaultPort(scheme, parts[1]) {
        assert ':' !in parts[0];
      }
    }
  }

  /** For a plain `host:port` netloc the port goes exactly when it is the scheme's default one. */
  lemma NormalizeNetlocHostPort(scheme: string, host: string, port: string)
    requires ':' !in host && ':' !in port
    ensures NormalizeNetloc(scheme, host + ":" + port)
         == if IsDefaultPort(scheme, port) then host else host + ":" + port
  {
    var parts := [host, port];
    assert Join(parts, ':') == host + ":" + port by {
      assert Join(parts[1..], ':') == port;
    }
    SplitJoin(parts, ':');
    assert ':' in host + ":" + port by {
      assert (host + ":" + port)[|host|] == ':';
    }
  }

  /** Normalising a normalised URL changes nothing. */
  lemma NormalizeUrlIdempotent(u: Url)
    ensures NormalizeUrl(NormalizeUrl(u)) == NormalizeUrl(u)
  {
    var n := NormalizeNetloc(u.scheme, u.netloc);
    if ':' in u.netloc {
      SplitPieces(u.netloc, ':');
      JoinSplit(u.netloc, ':');
      var parts := Split(u.netloc, ':');
      if IsDefaultPort(u.scheme, parts[1]) {
        assert ':' !in n;
      } else {
        assert n == u.netloc;
      }
    }
    NormalizeNetlocKeeps(u.scheme, n);
    var p := RStrip(u.path, '/');
    assert RStrip(p, '/') == p;
  }

  /** The text `_normalize_url` returns, given the URL library as `parse` and `unparse`. */
  function NormalizedText(parse: string -> Url, unparse: Url -> string, url: string): string {
    unparse(NormalizeUrl(parse(url)))
  }

  // ---------------------------------------------------------------------
  // Duplicate URL
  // ---------------------------------------------------------------------

  /** The edit filter `HarvestSource.id != source_id` applies and removes `row`. */
  predicate OwnRow(sourceId: Value, row: Source) {
    Truthy(sourceId) && sourceId == Str(row.id)
  }

  /** A stored source that makes `newUrl` a duplicate; its `active` flag plays no part. */
  predicate Clashes(row: Source, sourceId: Value, newUrl: string, parse: string -> Url, unparse: Url -> string) {
    !OwnRow(sourceId, row) && NormalizedText(parse, unparse, row.url) == newUrl
  }

  function DuplicateUrlMessage(url: string): string {
    "There already is a Harvest Source for this URL: " + url
  }

  /**
   * `harvest_source_url_validator`: raises when some stored source other than
   * the one being edited normalises to the same URL, and returns the value as
   * it was given otherwise.
   */
  method SourceUrlValidator(key: Key, data: map<Key, Value>, sources: seq<Source>,
                            parse: string -> Url, unparse: Url -> string)
    returns (r: Result<Value, Error>)
    requires key in data && data[key].Str?
    ensures var newUrl := NormalizedText(parse, unparse, data[key].s);
      var sourceId := Get(data, ["id"], Str(""));
      && (r.Failure? <==> exists i | 0 <= i < |sources| :: Clashes(sources[i], sourceId, newUrl, parse, unparse))
      && (r.Success? ==> r.value == data[key])
      && (r.Failure? ==> r.error == Invalid(DuplicateUrlMessage(newUrl)))
  {
    var newUrl := NormalizedText(parse, unparse, data[key].s);
    var sourceId := Get(data, ["id"], Str(""));
    var i := 0;
    while i < |sources|
      invariant 0 <= i <= |sources|
      invariant forall j | 0 <= j < i :: !Clashes(sources[j], sourceId, newUrl, parse, unparse)
    {
      var row := sources[i];
      if !OwnRow(sourceId, row) {
        var url := NormalizedText(parse, unparse, row.url);
        if url == newUrl {
          return Failure(Invalid(DuplicateUrlMessage(url)));
        }
      }
      i := i + 1;
    }
    return Success(data[key]);
  }

  // ---------------------------------------------------------------------
  // Harvester plugins: type and config
  // ---------------------------------------------------------------------

  /** An extra schema: field name to the names of its validators. */
  type Schema = map<string, seq<string>>

  /**
   * What the validators ask of one registered harvester: its `info()` (an
   * empty map for a falsy response), its `validate_config` when it has one
   * (failing with the text of the exception it raises) and its
   * `extra_schema()` when it has one.
   */
  datatype Plugin = Plugin(
    info: map<string, string>,
    validateConfig: Option<Value -> Result<Value, string>>,
    extraSchema: Option<Schema>)

  /** The plugin's `info()` gives a name and it is `t`. */
  predicate Names(p: Plugin, t: string) {
    "name" in p.info && p.info["name"] == t
  }

  /** `available_types`: the names the plugins give, plugins without one skipped. */
  function AvailableTypes(plugins: seq<Plugin>): (types: seq<string>)
    ensures forall t :: t in types <==> exists i | 0 <= i < |plugins| :: Names(plugins[i], t)
    decreases |plugins|
  {
    if plugins == [] then []
    else
      var rest := AvailableTypes(plugins[1..]);
      assert forall i | 1 <= i < |plugins| :: plugins[i] == plugins[1..][i - 1];
      if "name" in plugins[0].info then [plugins[0].info["name"]] + rest else rest
  }

  function UnknownTypeMessage(value: string): string {
    "Unknown harvester type: " + value + ". Have you registered a harvester for this type?"
  }

  /** `harvest_source_type_exists`: the type is accepted exactly when some plugin names it. */
  function SourceTypeExists(value: string, plugins: seq<Plugin>): (r: Result<string, Error>)
    ensures r.Success? <==> exists i | 0 <= i < |plugins| :: Names(plugins[i], value)
    ensures r.Success? ==> r.value == value
    ensures r.Failure? ==> r.error == Invalid(UnknownTypeMessage(value))
  {
    if value in AvailableTypes(plugins) then Success(value)
    else Failure(Invalid(UnknownTypeMessage(value)))
  }

  function ConfigErrorMessage(e: string): string {
    "Error parsing the configuration options: " + e
  }

  /**
   * What `harvest_source_config_validator` returns or raises: the first plugin
   * named `harvesterType` validates the config, or passes it through when it
   * has no `validate_config`; a plugin without a name before it raises
   * KeyError; with no such plugin the result is None.
   */
  function ConfigOutcome(plugins: seq<Plugin>, harvesterType: Value, config: Value): Result<Value, Error>
    decreases |plugins|
  {
    if plugins == [] then Success(Null)
    else if "name" !in plugins[0].info then Failure(KeyError)
    else if Str(plugins[0].info["name"]) == harvesterType then
      match plugins[0].validateConfig
      case None => Success(config)
      case Some(validate) =>
        match validate(config)
        case Success(v) => Success(v)
        case Failure(e) => Failure(Invalid(ConfigErrorMessage(e)))
    else ConfigOutcome(plugins[1..], harvesterType, config)
  }

  /** `harvest_source_config_validator`: walks the plugins until one is named like the source type. */
  method SourceConfigValidator(key: Key, data: map<Key, Value>, plugins: seq<Plugin>)
    returns (r: Result<Value, Error>)
    requires key in data
    ensures r == ConfigOutcome(plugins, Get(data, ["type"], Str("")), data[key])
  {
    var harvesterType := Get(data, ["type"], Str(""));
    var i := 0;
    while i < |plugins|
      invariant 0 <= i <= |plugins|
      invariant ConfigOutcome(plugins, harvesterType, data[key])
             == ConfigOutcome(plugins[i..], harvesterType, data[key])
    {
      assert plugins[i..][1..] == plugins[i + 1..];
      var info := plugins[i].info;
      if "name" !in info {
        return Failure(KeyError);
      }
      if Str(info["name"]) == harvesterType {
        match plugins[i].validateConfig
        case None =>
          return Success(data[key]);
        case Some(validate) =>
          var v := validate(data[key]);
          if v.Failure? {
            return Failure(Invalid(ConfigErrorMessage(v.error)));
          }
          return Success(v.value);
      }
      i := i + 1;
    }
    return Success(Null);
  }

  /** Every plugin gives a name: the config is checked by the first plugin of the source's type. */
  lemma {:induction false} ConfigFirstMatch(plugins: seq<Plugin>, m: nat, harvesterType: string, config: Value)
    requires m < |plugins| && Names(plugins[m], harvesterType)
    requires forall j | 0 <= j < m :: "name" in plugins[j].info && plugins[j].info["name"] != harvesterType
    ensures ConfigOutcome(plugins, Str(harvesterType), config)
         == match plugins[m].validateConfig
            case None => Success(config)
            case Some(validate) =>
              if validate(config).Success? then Success(validate(config).value)
              else Failure(Invalid(ConfigErrorMessage(validate(config).error)))
    decreases m
  {
    if m > 0 {
      assert forall j | 0 <= j < m - 1 :: plugins[1..][j] == plugins[j + 1];
      ConfigFirstMatch(plugins[1..], m - 1, harvesterType, config);
    }
  }

  /** Every plugin gives a name and none is the source's type: the validator returns None. */
  lemma {:induction false} ConfigNoMatch(plugins: seq<Plugin>, harvesterType: Value, config: Value)
    requires forall j | 0 <= j < |plugins| :: "name" in plugins[j].info && Str(plugins[j].info["name"]) != harvesterType
    ensures ConfigOutcome(plugins, harvesterType, config) == Success(Null)
    decreases |plugins|
  {
    if plugins != [] {
      assert forall j | 0 <= j < |plugins| - 1 :: plugins[1..][j] == plugins[j + 1];
      ConfigNoMatch(plugins[1..], harvesterType, config);
    }
  }

  /** A plugin without a name, met before any plugin of the source's type, makes the validator raise KeyError. */
  lemma {:induction false} ConfigUnnamedPlugin(plugins: seq<Plugin>, m: nat, harvesterType: Value, config: Value)
    requires m < |plugins| && "name" !in plugins[m].info
    requires forall j | 0 <= j < m :: "name" in plugins[j].info && Str(plugins[j].info["name"]) != harvesterType
    ensures ConfigOutcome(plugins, harvesterType, config) == Failure(KeyError)
    decreases m
  {
    if m > 0 {
      assert forall j | 0 <= j < m - 1 :: plugins[1..][j] == plugins[j + 1];
      ConfigUnnamedPlugin(plugins[1..], m - 1, harvesterType, config);
    }
  }

  // ---------------------------------------------------------------------
  // Active flag, frequency, object extras, id lookups
  // ---------------------------------------------------------------------

  /** `harvest_source_active_validator`. */
  function SourceActiveValidator(value: Value): bool {
    if value.Str? then Lower(value.s) == "true" else Truthy(value)
  }

  /** Text is read without regard to case: a text and its lower-case form give the same flag. */
  lemma ActiveIgnoresCase(s: string)
    ensures SourceActiveValidator(Str(s)) == SourceActiveValidator(Str(Lower(s)))
    ensures SourceActiveValidator(Str(s)) <==> Lower(s) == "true"
  {
    LowerIdempotent(s);
  }

  /** Feeding the flag back in gives the same flag; a non-text value gives its truthiness. */
  lemma ActiveIdempotent(v: Value)
    ensures SourceActiveValidator(Bool(SourceActiveValidator(v))) == SourceActiveValidator(v)
    ensures !v.Str? ==> SourceActiveValidator(v) == Truthy(v)
  {
  }

  function UnknownFrequencyMessage(value: string): string {
    "Frequency " + value + " not recognised"
  }

  /** `harvest_source_frequency_exists`, given `UPDATE_FREQUENCIES`. */
  function SourceFrequencyExists(value: string, frequencies: set<string>): (r: Result<string, Error>)
    ensures var v := if value == "" then "MANUAL" else value;
      && (r.Success? <==> Upper(v) in frequencies)
      && (r.Success? ==> r.value == Upper(v) && r.value in frequencies)
      && (r.Failure? ==> r.error == Invalid(UnknownFrequencyMessage(v)))
  {
    var v := if value == "" then "MANUAL" else value;
    if Upper(v) !in frequencies then Failure(Invalid(UnknownFrequencyMessage(v))) else Success(Upper(v))
  }

  /** An accepted frequency is accepted again, unchanged. */
  lemma FrequencyIdempotent(value: string, frequencies: set<string>)
    requires SourceFrequencyExists(value, frequencies).Success?
    ensures var f := SourceFrequencyExists(value, frequencies).value;
      SourceFrequencyExists(f, frequencies) == Success(f)
  {
    var v := if value == "" then "MANUAL" else value;
    UpperIdempotent(v);
  }

  /** A dict whose values are all strings. */
  predicate DictOfStrings(value: Value) {
    value.Dict? && forall k | k in value.entries :: value.entries[k].Str?
  }

  /** `harvest_object_extras_validator`. */
  function ObjectExtrasValidator(value: Value): (r: Result<Value, Error>)
    ensures r.Success? <==> DictOfStrings(value)
    ensures r.Success? ==> r.value == value
    ensures !value.Dict? ==> r == Failure(Invalid("extras must be a dict"))
    ensures value.Dict? && !DictOfStrings(value) ==> r == Failure(Invalid("extras must be a dict of strings"))
  {
    if !value.Dict? then Failure(Invalid("extras must be a dict"))
    else if exists k | k in value.entries :: !value.entries[k].Str? then Failure(Invalid("extras must be a dict of strings"))
    else Success(value)
  }

  /** `harvest_source_id_exists`: the id of a stored source is returned as given. */
  function SourceIdExists(value: string, sources: map<Id, Source>): (r: Result<string, Error>)
    ensures r.Success? <==> value in sources
    ensures r.Success? ==> r.value == value
    ensures r.Failure? ==> r.error == Invalid("Harvest Source with id '" + value + "' does not exist.")
  {
    if value !in sources then Failure(Invalid("Harvest Source with id '" + value + "' does not exist."))
    else Success(value)
  }

  /** `harvest_job_exists`: the stored job with that id is returned. */
  function JobExists(value: string, jobs: map<Id, Job>): (r: Result<Job, Error>)
    ensures r.Success? <==> value in jobs
    ensures r.Success? ==> r.value == jobs[value]
    ensures r.Failure? ==> r.error == Invalid("Harvest Job with id '" + value + "' does not exist.")
  {
    if value !in jobs then Failure(Invalid("Harvest Job with id '" + value + "' does not exist."))
    else Success(jobs[value])
  }

  // ---------------------------------------------------------------------
  // Writes into the flattened form
  // ---------------------------------------------------------------------

  /** `{(k,): v for k, v in m}`: entries as the form holds them at its top level. */
  function TopLevel<V>(m: map<string, V>): (t: map<Key, V>)
    ensures forall k | k in m :: [k] in t && t[[k]] == m[k]
    ensures forall k | k in t :: |k| == 1 && k[0] in m
  {
    map k | k in m :: [k] := m[k]
  }

  /** One more entry written at the top level. */
  lemma TopLevelAdd<V>(m: map<string, V>, k: string)
    requires k in m
    ensures TopLevel(m) == TopLevel(m - {k})[[k] := m[k]]
  {
    var a := TopLevel(m);
    var b := TopLevel(m - {k})[[k] := m[k]];
    assert forall x | x in a :: x in b && a[x] == b[x];
    assert forall x | x in b :: x in a;
  }

  /** Updating a union updates its right-hand side. */
  lemma UnionUpdate<K, V>(a: map<K, V>, b: map<K, V>, k: K, v: V)
    ensures (a + b)[k := v] == a + b[k := v]
  {
  }

  /** One more top-level write of the loop over `m`. */
  lemma PutOneMore<V>(base: map<Key, V>, m: map<string, V>, todo: set<string>, k: string)
    requires k in todo && todo <= m.Keys
    ensures (base + TopLevel(m - todo))[[k] := m[k]] == base + TopLevel(m - (todo - {k}))
  {
    TopLevelAdd(m - (todo - {k}), k);
    assert (m - (todo - {k})) - {k} == m - todo;
    UnionUpdate(base, TopLevel(m - todo), [k], m[k]);
  }

  /** Before the first top-level write. */
  lemma PutNothing<V>(base: map<Key, V>, m: map<string, V>)
    ensures base + TopLevel(m - m.Keys) == base
  {
    assert TopLevel(m - m.Keys) == map[];
  }

  /** After the last top-level write. */
  lemma PutEverything<V>(m: map<string, V>)
    ensures m - {} == m
  {
  }

  /** `data.pop(key, {})`, for a value that is a dict when present. */
  function ExtrasAt(data: map<Key, Value>, key: Key): map<string, Value>
    requires key !in data || data[key].Dict?
  {
    if key in data then data[key].entries else map[]
  }

  /** `k` is where `keep_not_empty_extras` puts a truthy extra found under `pre`'s child. */
  predicate WrittenExtra(pre: Key, extras: map<string, Value>, k: Key) {
    |k| == |pre| + 1 && k[..|pre|] == pre && k[|pre|] in extras && Truthy(extras[k[|pre|]])
  }

  /**
   * `out` is `data` after `keep_not_empty_extras` took `extras` out of `key`:
   * every truthy extra sits under `pre`, `key` and the falsy extras are gone,
   * and every other entry is as it was.
   */
  ghost predicate KeptExtras(data: map<Key, Value>, key: Key, pre: Key, extras: map<string, Value>, out: map<Key, Value>) {
    && (forall e | e in extras && Truthy(extras[e]) :: pre + [e] in out && out[pre + [e]] == extras[e])
    && (forall k | k in out && !WrittenExtra(pre, extras, k) :: k in data && k != key && out[k] == data[k])
    && (forall k | k in data && k != key :: k in out)
  }

  /** Distinct last fields make distinct keys. */
  lemma ExtendInjective(pre: Key)
    ensures forall a: string, b: string | pre + [a] == pre + [b] :: a == b
  {
    forall a: string, b: string | pre + [a] == pre + [b]
      ensures a == b
    {
      assert (pre + [a])[|pre|] == a && (pre + [b])[|pre|] == b;
    }
  }

  /** One more extra handled by the `keep_not_empty_extras` loop. */
  lemma KeepOneMore(data: map<Key, Value>, key: Key, pre: Key, extras: map<string, Value>, todo: set<string>,
                    e: string, cur: map<Key, Value>)
    requires e in todo && todo <= extras.Keys
    requires KeptExtras(data, key, pre, extras - todo, cur)
    ensures KeptExtras(data, key, pre, extras - (todo - {e}), if Truthy(extras[e]) then cur[pre + [e] := extras[e]] else cur)
  {
    var done := extras - todo;
    var done' := extras - (todo - {e});
    var out := if Truthy(extras[e]) then cur[pre + [e] := extras[e]] else cur;
    ExtendInjective(pre);
    forall x | x in done' && Truthy(done'[x])
      ensures pre + [x] in out && out[pre + [x]] == done'[x]
    {
      if x != e {
        assert x in done;
      }
    }
    if Truthy(extras[e]) {
      assert (pre + [e])[..|pre|] == pre && (pre + [e])[|pre|] == e;
      assert WrittenExtra(pre, done', pre + [e]);
    }
    forall k | k in out && !WrittenExtra(pre, done', k)
      ensures k in data && k != key && out[k] == data[k]
    {
      assert k in cur && out[k] == cur[k];
      assert !WrittenExtra(pre, done, k);
    }
  }

  /** The description of `keep_not_empty_extras` leaves one possible result. */
  lemma KeptExtrasUnique(data: map<Key, Value>, key: Key, pre: Key, extras: map<string, Value>, out1: map<Key, Value>, out2: map<Key, Value>)
    requires KeptExtras(data, key, pre, extras, out1) && KeptExtras(data, key, pre, extras, out2)
    ensures out1 == out2
  {
    forall k | k in out1
      ensures k in out2 && out1[k] == out2[k]
    {
      if WrittenExtra(pre, extras, k) {
        assert k == pre + [k[|pre|]];
      }
    }
    forall k | k in out2
      ensures k in out1
    {
      if WrittenExtra(pre, extras, k) {
        assert k == pre + [k[|pre|]];
      }
    }
  }

  /** `json.loads(config)` of the stored config when it is set, and the form after `harvest_source_convert_from_config`. */
  function ConvertedFromConfig(data: map<Key, Value>, key: Key, loads: Value -> Option<map<string, Value>>)
    : Result<map<Key, Value>, Error>
    requires key in data
  {
    if !Truthy(data[key]) then Success(data)
    else match loads(data[key])
      case None => Failure(ValueError)
      case Some(config) => Success(data + TopLevel(config))
  }

  /** An entry of the package extras list: a dict with a `key`. */
  predicate ExtraItem(item: Value) {
    item.Dict? && "key" in item.entries
  }

  /** The package extras entry holding the source config. */
  predicate IsConfigExtra(item: Value)
    requires ExtraItem(item)
  {
    item.entries["key"] == Str("config")
  }

  /** `data[('extras',)]`, when present, is a list of extras entries. */
  predicate ExtrasShape(data: map<Key, Value>) {
    ["extras"] in data ==>
      data[["extras"]].List? && forall i | 0 <= i < |data[["extras"]].items| :: ExtraItem(data[["extras"]].items[i])
  }

  /** `data.get(('extras',), [])`. */
  function PackageExtras(data: map<Key, Value>): (items: seq<Value>)
    requires ExtrasShape(data)
    ensures forall i | 0 <= i < |items| :: ExtraItem(items[i])
  {
    if ["extras"] in data then data[["extras"]].items else []
  }

  /** The position of the first config entry in the extras list, if any. */
  function FirstConfigIndex(items: seq<Value>): (n: Option<nat>)
    requires forall i | 0 <= i < |items| :: ExtraItem(items[i])
    ensures n.Some? ==> n.value < |items| && IsConfigExtra(items[n.value])
    ensures n.Some? ==> forall j | 0 <= j < n.value :: !IsConfigExtra(items[j])
    ensures n.None? ==> forall j | 0 <= j < |items| :: !IsConfigExtra(items[j])
    decreases |items|
  {
    if items == [] then None
    else if IsConfigExtra(items[0]) then Some(0)
    else
      var rest := FirstConfigIndex(items[1..]);
      assert forall j | 1 <= j < |items| :: items[j] == items[1..][j - 1];
      if rest.Some? then Some(rest.value + 1) else None
  }

  /** The extras list without its first config entry. */
  function WithoutConfig(items: seq<Value>): (rest: seq<Value>)
    requires forall i | 0 <= i < |items| :: ExtraItem(items[i])
  {
    match FirstConfigIndex(items)
    case None => items
    case Some(n) => items[..n] + items[n + 1..]
  }

  /** `json.loads(extra.get('value') or '{}')`, malformed JSON counting as `{}`. */
  function LoadedConfig(extra: Value, loads: Value -> Option<map<string, Value>>): map<string, Value>
    requires ExtraItem(extra)
  {
    var raw := if "value" in extra.entries && Truthy(extra.entries["value"]) then extra.entries["value"] else Str("{}");
    match loads(raw)
    case None => map[]
    case Some(config) => config
  }

  /** The config the first config entry holds, `{}` without one. */
  function StoredConfig(items: seq<Value>, loads: Value -> Option<map<string, Value>>): map<string, Value>
    requires forall i | 0 <= i < |items| :: ExtraItem(items[i])
  {
    match FirstConfigIndex(items)
    case None => map[]
    case Some(n) => LoadedConfig(items[n], loads)
  }

  /** `dict(key='config', value=config)`. */
  function ConfigExtra(config: string): Value {
    Dict(map["key" := Str("config"), "value" := Str(config)])
  }

  /** The form's data and errors together. */
  datatype Forms = Forms(data: map<Key, Value>, errors: map<Key, seq<string>>)

  /**
   * The form's data after the package-extras part of
   * `harvest_source_extra_validator`, given the whitelisted extra data and
   * the extra errors: the stored config entry is taken out of the package
   * extras and merged under the extra data, and the merged config is written
   * back as the `config` field and as a new config entry when it is non-empty
   * and there are no extra errors.  The package extras list, when the form
   * holds one, is the list changed in place, so the form holds the changed
   * list whatever its length.
   */
  function WithConfig(data: map<Key, Value>, extraData: map<string, Value>, extraErrors: map<string, seq<string>>,
                      loads: Value -> Option<map<string, Value>>, dumps: map<string, Value> -> string): map<Key, Value>
    requires ExtrasShape(data)
  {
    var items := PackageExtras(data);
    var merged := StoredConfig(items, loads) + extraData;
    var written := merged != map[] && extraErrors == map[];
    var rest := if written then WithoutConfig(items) + [ConfigExtra(dumps(merged))] else WithoutConfig(items);
    var data2 := if written then data[["config"] := Str(dumps(merged))] else data;
    if ["extras"] in data || rest != [] then data2[["extras"] := List(rest)] else data2
  }

  /**
   * The part of `harvest_source_extra_validator` after navl validation: the
   * whitelisted extra data and the extra errors go to the top level of the
   * form, then the config is merged.
   */
  function ApplyExtras(f: Forms, extraData: map<string, Value>, extraErrors: map<string, seq<string>>,
                       loads: Value -> Option<map<string, Value>>, dumps: map<string, Value> -> string): Forms
    requires ExtrasShape(f.data + TopLevel(extraData))
  {
    Forms(WithConfig(f.data + TopLevel(extraData), extraData, extraErrors, loads, dumps),
          f.errors + TopLevel(extraErrors))
  }

  /** Outside the extras and config fields, only extra fields are written, with the extras' values. */
  lemma ExtraWritesFrame(base: map<Key, Value>, extraData: map<string, Value>, extraErrors: map<string, seq<string>>,
                         loads: Value -> Option<map<string, Value>>, dumps: map<string, Value> -> string)
    requires ExtrasShape(base + TopLevel(extraData))
    ensures var out := WithConfig(base + TopLevel(extraData), extraData, extraErrors, loads, dumps);
      && (forall k | k in out && k != ["config"] && k != ["extras"]
            :: if |k| == 1 && k[0] in extraData then out[k] == extraData[k[0]] else k in base && out[k] == base[k])
      && (forall k | k in base :: k in out)
  {
    var data1 := base + TopLevel(extraData);
    var out := WithConfig(data1, extraData, extraErrors, loads, dumps);
    OutsideConfigAndExtras(data1, extraData, extraErrors, loads, dumps);
    forall k | k in out && k != ["config"] && k != ["extras"] && |k| == 1 && k[0] in extraData
      ensures out[k] == extraData[k[0]]
    {
      assert k == [k[0]];
    }
  }

  /** Every extra field other than config and extras ends at the top level with the extras' value. */
  lemma ExtraWritesOverride(base: map<Key, Value>, extraData: map<string, Value>, extraErrors: map<string, seq<string>>,
                            loads: Value -> Option<map<string, Value>>, dumps: map<string, Value> -> string)
    requires ExtrasShape(base + TopLevel(extraData))
    ensures var out := WithConfig(base + TopLevel(extraData), extraData, extraErrors, loads, dumps);
      forall x | x in extraData && x != "config" && x != "extras" :: [x] in out && out[[x]] == extraData[x]
  {
    OutsideConfigAndExtras(base + TopLevel(extraData), extraData, extraErrors, loads, dumps);
  }

  /** The extra errors are written at the top level of the error dictionary and nothing else changes there. */
  lemma ApplyExtrasErrors(f: Forms, extraData: map<string, Value>, extraErrors: map<string, seq<string>>,
                          loads: Value -> Option<map<string, Value>>, dumps: map<string, Value> -> string)
    requires ExtrasShape(f.data + TopLevel(extraData))
    ensures var out := ApplyExtras(f, extraData, extraErrors, loads, dumps);
      && (forall k | k in out.errors :: if |k| == 1 && k[0] in extraErrors then out.errors[k] == extraErrors[k[0]] else k in f.errors && out.errors[k] == f.errors[k])
      && (forall x | x in extraErrors :: [x] in out.errors && out.errors[[x]] == extraErrors[x])
  {
    var out := ApplyExtras(f, extraData, extraErrors, loads, dumps);
    assert out.errors == f.errors + TopLevel(extraErrors);
    forall k | k in out.errors && |k| == 1 && k[0] in extraErrors
      ensures out.errors[k] == extraErrors[k[0]]
    {
      assert k == [k[0]];
    }
  }

  /** Merging the config changes no entry but the config and extras ones, and removes none. */
  lemma OutsideConfigAndExtras(data: map<Key, Value>, extraData: map<string, Value>, extraErrors: map<string, seq<string>>,
                               loads: Value -> Option<map<string, Value>>, dumps: map<string, Value> -> string)
    requires ExtrasShape(data)
    ensures var out := WithConfig(data, extraData, extraErrors, loads, dumps);
      && data.Keys <= out.Keys
      && (forall k | k in out && k != ["config"] && k != ["extras"] :: k in data && out[k] == data[k])
  {
  }

  /**
   * The stored config entry goes and the merged config comes back exactly when
   * it is non-empty and navl reported no errors; the extras override the
   * stored config's keys.
   */
  lemma WithConfigMerge(data: map<Key, Value>, extraData: map<string, Value>, extraErrors: map<string, seq<string>>,
                        loads: Value -> Option<map<string, Value>>, dumps: map<string, Value> -> string)
    requires ExtrasShape(data)
    ensures var out := WithConfig(data, extraData, extraErrors, loads, dumps);
      var items := PackageExtras(data);
      var stored := StoredConfig(items, loads);
      var merged := stored + extraData;
      && (forall x | x in merged :: merged[x] == if x in extraData then extraData[x] else stored[x])
      && (merged != map[] && extraErrors == map[] ==>
            && out[["config"]] == Str(dumps(merged))
            && out[["extras"]] == List(WithoutConfig(items) + [ConfigExtra(dumps(merged))]))
      && (!(merged != map[] && extraErrors == map[]) ==>
            && (["config"] in out <==> ["config"] in data)
            && (["config"] in out ==> out[["config"]] == data[["config"]])
            && (["extras"] in out <==> ["extras"] in data || WithoutConfig(items) != [])
            && (["extras"] in out ==> out[["extras"]] == List(WithoutConfig(items))))
  {
  }

  /** The first config entry is the one removed; any later one stays. */
  lemma WithoutConfigDropsFirst(items: seq<Value>)
    requires forall i | 0 <= i < |items| :: ExtraItem(items[i])
    ensures var rest := WithoutConfig(items);
      && (FirstConfigIndex(items).None? ==> rest == items)
      && (FirstConfigIndex(items).Some? ==>
            var n := FirstConfigIndex(items).value;
            && |rest| == |items| - 1
            && (forall j | 0 <= j < n :: rest[j] == items[j])
            && (forall j | n < j < |items| :: rest[j - 1] == items[j]))
  {
    if FirstConfigIndex(items).Some? {
      var n := FirstConfigIndex(items).value;
      var rest := items[..n] + items[n + 1..];
      assert |rest| == |items| - 1;
      assert forall j | 0 <= j < n :: rest[j] == items[..n][j];
      forall j | n < j < |items|
        ensures rest[j - 1] == items[j]
      {
        assert rest[j - 1] == items[n + 1..][j - 1 - n];
      }
    }
  }

  /** A config entry whose JSON does not load counts as `{}`, and so does no config entry. */
  lemma StoredConfigMalformed(items: seq<Value>, loads: Value -> Option<map<string, Value>>)
    requires forall i | 0 <= i < |items| :: ExtraItem(items[i])
    ensures FirstConfigIndex(items).None? ==> StoredConfig(items, loads) == map[]
    ensures FirstConfigIndex(items).Some? ==>
      var e := items[FirstConfigIndex(items).value].entries;
      var raw := if "value" in e && Truthy(e["value"]) then e["value"] else Str("{}");
      (loads(raw).None? ==> StoredConfig(items, loads) == map[])
      && (loads(raw).Some? ==> StoredConfig(items, loads) == loads(raw).value)
  {
  }

  /** The fields of one extra schema, none when the plugin has no `extra_schema`. */
  function SchemaFields(p: Plugin): set<string> {
    if p.extraSchema.Some? then p.extraSchema.value.Keys else {}
  }

  /** `all_extra_fields`: every field of every plugin's extra schema. */
  function AllExtraFields(plugins: seq<Plugin>): (fields: set<string>)
    ensures forall x :: x in fields <==> exists i | 0 <= i < |plugins| :: x in SchemaFields(plugins[i])
    decreases |plugins|
  {
    if plugins == [] then {}
    else
      var init := plugins[..|plugins| - 1];
      assert forall i | 0 <= i < |init| :: init[i] == plugins[i];
      AllExtraFields(init) + SchemaFields(plugins[|plugins| - 1])
  }

  /** The schema navl checks the extras against: `__extras` and nothing else. */
  const BaseExtraSchema: Schema := map["__extras" := ["keep_not_empty_extras"]]

  /**
   * `extra_schema` after its loop: the base schema updated with the schema of
   * the first plugin that has one and is named like the source type; a plugin
   * with a schema and no name before it raises KeyError.
   */
  function ExtraSchemaFor(plugins: seq<Plugin>, harvesterType: Value): Result<Schema, Error>
    decreases |plugins|
  {
    if plugins == [] then Success(BaseExtraSchema)
    else if plugins[0].extraSchema.None? then ExtraSchemaFor(plugins[1..], harvesterType)
    else if "name" !in plugins[0].info then Failure(KeyError)
    else if Str(plugins[0].info["name"]) == harvesterType then Success(BaseExtraSchema + plugins[0].extraSchema.value)
    else ExtraSchemaFor(plugins[1..], harvesterType)
  }

  /**
   * The schema comes from the first plugin that has an extra schema and is
   * named like the source type; plugins without a schema are skipped.
   */
  lemma {:induction false} ExtraSchemaFirstMatch(plugins: seq<Plugin>, m: nat, harvesterType: string)
    requires m < |plugins| && plugins[m].extraSchema.Some? && Names(plugins[m], harvesterType)
    requires forall j | 0 <= j < m ::
      plugins[j].extraSchema.None? || ("name" in plugins[j].info && plugins[j].info["name"] != harvesterType)
    ensures ExtraSchemaFor(plugins, Str(harvesterType)) == Success(BaseExtraSchema + plugins[m].extraSchema.value)
    decreases m
  {
    if m > 0 {
      assert forall j | 0 <= j < m - 1 :: plugins[1..][j] == plugins[j + 1];
      ExtraSchemaFirstMatch(plugins[1..], m - 1, harvesterType);
    }
  }

  /** No plugin with an extra schema is named like the source type: only `__extras` is checked. */
  lemma {:induction false} ExtraSchemaNoMatch(plugins: seq<Plugin>, harvesterType: Value)
    requires forall j | 0 <= j < |plugins| ::
      plugins[j].extraSchema.None? || ("name" in plugins[j].info && Str(plugins[j].info["name"]) != harvesterType)
    ensures ExtraSchemaFor(plugins, harvesterType) == Success(BaseExtraSchema)
    decreases |plugins|
  {
    if plugins != [] {
      assert forall j | 0 <= j < |plugins| - 1 :: plugins[1..][j] == plugins[j + 1];
      ExtraSchemaNoMatch(plugins[1..], harvesterType);
    }
  }

  /** What navl's `validate` returns: the converted data and the errors, by field name. */
  datatype Validated = Validated(data: map<string, Value>, errors: map<string, seq<string>>)

  /** The extra data left after dropping every key no plugin's extra schema lists. */
  function Whitelist(m: map<string, Value>, fields: set<string>): (r: map<string, Value>)
    ensures r.Keys == m.Keys * fields
    ensures forall k | k in r :: r[k] == m[k]
  {
    map k | k in m && k in fields :: m[k]
  }

  /**
   * The form after `harvest_source_extra_validator(key, ...)`, navl's
   * `validate` given as `navl`, JSON as `loads` and `dumps`.
   */
  function ExtraValidated(f: Forms, key: Key, plugins: seq<Plugin>, navl: (Value, Schema) -> Validated,
                          loads: Value -> Option<map<string, Value>>, dumps: map<string, Value> -> string)
    : Result<Forms, Error>
    requires ExtrasShape(f.data) && "extras" !in AllExtraFields(plugins)
  {
    match ExtraSchemaFor(plugins, Get(f.data, ["type"], Str("")))
    case Failure(e) => Failure(e)
    case Success(schema) =>
      var v := navl(Get(f.data, key, Dict(map[])), schema);
      var extraData := Whitelist(v.data, AllExtraFields(plugins));
      assert f.data + TopLevel(extraData) == f.data || ["extras"] !in TopLevel(extraData);
      Success(ApplyExtras(f, extraData, v.errors, loads, dumps))
  }

  /** Only fields that some plugin's extra schema lists reach the top level of the form. */
  lemma ExtraValidatedWhitelist(f: Forms, key: Key, plugins: seq<Plugin>, navl: (Value, Schema) -> Validated,
                                loads: Value -> Option<map<string, Value>>, dumps: map<string, Value> -> string)
    requires ExtrasShape(f.data) && "extras" !in AllExtraFields(plugins)
    requires ExtraValidated(f, key, plugins, navl, loads, dumps).Success?
    ensures var out := ExtraValidated(f, key, plugins, navl, loads, dumps).value;
      forall k | k in out.data && k != ["config"] && k != ["extras"] && (k !in f.data || out.data[k] != f.data[k])
        :: |k| == 1 && k[0] in AllExtraFields(plugins)
  {
    var schema := ExtraSchemaFor(plugins, Get(f.data, ["type"], Str(""))).value;
    var v := navl(Get(f.data, key, Dict(map[])), schema);
    var extraData := Whitelist(v.data, AllExtraFields(plugins));
    ExtraWritesFrame(f.data, extraData, v.errors, loads, dumps);
  }

  /**
   * With `dumps` and `loads` inverse to each other, converting the config the
   * extra validator wrote brings every merged key back to the top level of
   * the form, with the merged value.
   */
  lemma ConfigRoundTrip(data: map<Key, Value>, extraData: map<string, Value>, extraErrors: map<string, seq<string>>,
                        loads: Value -> Option<map<string, Value>>, dumps: map<string, Value> -> string)
    requires ExtrasShape(data)
    requires forall m :: loads(Str(dumps(m))) == Some(m)
    requires forall m :: dumps(m) != ""
    requires StoredConfig(PackageExtras(data), loads) + extraData != map[]
    requires extraErrors == map[]
    ensures var out := WithConfig(data, extraData, extraErrors, loads, dumps);
      var merged := StoredConfig(PackageExtras(data), loads) + extraData;
      ConvertedFromConfig(out, ["config"], loads) == Success(out + TopLevel(merged))
  {
    var items := PackageExtras(data);
    var merged := StoredConfig(items, loads) + extraData;
    var rest := WithoutConfig(items) + [ConfigExtra(dumps(merged))];
    var out := data[["config"] := Str(dumps(merged))][["extras"] := List(rest)];
    assert WithConfig(data, extraData, extraErrors, loads, dumps) == out;
    assert out[["config"]] == Str(dumps(merged)) && Truthy(out[["config"]]);
    assert loads(Str(dumps(merged))) == Some(merged);
  }

  // ---------------------------------------------------------------------
  // The loops of the extra validator
  // ---------------------------------------------------------------------

  /** The `all_extra_fields` loop. */
  method CollectExtraFields(plugins: seq<Plugin>) returns (fields: set<string>)
    ensures fields == AllExtraFields(plugins)
  {
    fields := {};
    var i := 0;
    while i < |plugins|
      invariant 0 <= i <= |plugins|
      invariant fields == AllExtraFields(plugins[..i])
    {
      assert plugins[..i + 1][..i] == plugins[..i];
      if plugins[i].extraSchema.Some? {
        fields := fields + plugins[i].extraSchema.value.Keys;
      }
      i := i + 1;
    }
    assert plugins[..i] == plugins;
  }

  /** The `extra_schema` loop, stopping at the first plugin named like the source type. */
  method PickExtraSchema(plugins: seq<Plugin>, harvesterType: Value) returns (r: Result<Schema, Error>)
    ensures r == ExtraSchemaFor(plugins, harvesterType)
  {
    var schema := BaseExtraSchema;
    var i := 0;
    while i < |plugins|
      invariant 0 <= i <= |plugins|
      invariant ExtraSchemaFor(plugins, harvesterType) == ExtraSchemaFor(plugins[i..], harvesterType)
    {
      assert plugins[i..][1..] == plugins[i + 1..];
      if plugins[i].extraSchema.Some? {
        var info := plugins[i].info;
        if "name" !in info {
          return Failure(KeyError);
        }
        if Str(info["name"]) == harvesterType {
          schema := schema + plugins[i].extraSchema.value;
          return Success(schema);
        }
      }
      i := i + 1;
    }
    return Success(schema);
  }

  /** The loop popping every key of the extra data that is not a whitelisted field. */
  method DropUnlisted(extraData: map<string, Value>, fields: set<string>) returns (r: map<string, Value>)
    ensures r == Whitelist(extraData, fields)
  {
    r := extraData;
    var todo := extraData.Keys;
    while todo != {}
      invariant todo <= extraData.Keys
      invariant r.Keys == extraData.Keys * fields + todo
      invariant forall k | k in r :: r[k] == extraData[k]
      decreases |todo|
    {
      var k :| k in todo;
      if k !in fields {
        r := r - {k};
      }
      todo := todo - {k};
    }
  }

  /** The `for num, extra in enumerate(...)` search for the config entry. */
  method FindConfigExtra(items: seq<Value>) returns (n: Option<nat>)
    requires forall i | 0 <= i < |items| :: ExtraItem(items[i])
    ensures n == FirstConfigIndex(items)
  {
    var num := 0;
    while num < |items|
      invariant 0 <= num <= |items|
      invariant forall j | 0 <= j < num :: !IsConfigExtra(items[j])
    {
      if items[num].entries["key"] == Str("config") {
        FirstConfigUnique(items, num);
        return Some(num);
      }
      num := num + 1;
    }
    FirstConfigUnique(items, |items|);
    return None;
  }

  /** The first config entry is determined by its position: none before it, and it is one (or the list ends). */
  lemma FirstConfigUnique(items: seq<Value>, n: nat)
    requires forall i | 0 <= i < |items| :: ExtraItem(items[i])
    requires n <= |items| && forall j | 0 <= j < n :: !IsConfigExtra(items[j])
    requires n < |items| ==> IsConfigExtra(items[n])
    ensures FirstConfigIndex(items) == if n < |items| then Some(n) else None
  {
  }

  // ---------------------------------------------------------------------
  // Duplicate name
  // ---------------------------------------------------------------------

  const NameInUseMessage := "That name is already in use."

  function NameTooShortMessage(name: string, minLength: nat): string {
    "Name \"" + name + "\" length is less than minimum " + NatToString(minLength)
  }

  function NameTooLongMessage(name: string, maxLength: nat): string {
    "Name \"" + name + "\" length is more than maximum " + NatToString(maxLength)
  }

  /** The id the name query leaves out: the source being edited, from the context or from the form. */
  function EditedId(key: Key, data: map<Key, Value>, harvestSource: Option<Source>): Value {
    if harvestSource.Some? then Str(harvestSource.value.id) else Get(data, Parent(key) + ["id"], Null)
  }

  /** Some stored source other than the one being edited has the name. */
  predicate NameTaken(sources: seq<Source>, name: string, sourceId: Value) {
    exists i | 0 <= i < |sources| ::
      sources[i].name == name && !(Truthy(sourceId) && sourceId != Missing && sourceId == Str(sources[i].id))
  }

  /** A source keeps its own name when edited; any other source with the name makes it taken. */
  lemma NameTakenByOthers(sources: seq<Source>, name: string, edited: Source)
    requires edited.id != ""
    ensures NameTaken(sources, name, Str(edited.id))
        <==> exists i | 0 <= i < |sources| :: sources[i].name == name && sources[i].id != edited.id
  {
  }

  /** navl's flattened form under validation: its data and its errors, both changed in place. */
  class Flattened {
    var data: map<Key, Value>
    var errors: map<Key, seq<string>>

    constructor (data: map<Key, Value>, errors: map<Key, seq<string>>)
      ensures this.data == data && this.errors == errors
    {
      this.data := data;
      this.errors := errors;
    }

    /** `for k, v in m.iteritems(): data[(k,)] = v`. */
    method PutTopLevel(m: map<string, Value>)
      modifies this
      ensures data == old(data) + TopLevel(m)
      ensures errors == old(errors)
    {
      var todo := m.Keys;
      PutNothing(data, m);
      while todo != {}
        invariant todo <= m.Keys
        invariant data == old(data) + TopLevel(m - todo)
        invariant errors == old(errors)
        decreases |todo|
      {
        var k :| k in todo;
        PutOneMore(old(data), m, todo, k);
        data := data[[k] := m[k]];
        todo := todo - {k};
      }
      PutEverything(m);
    }

    /** `for k, v in m.iteritems(): errors[(k,)] = v`. */
    method PutTopLevelErrors(m: map<string, seq<string>>)
      modifies this
      ensures errors == old(errors) + TopLevel(m)
      ensures data == old(data)
    {
      var todo := m.Keys;
      PutNothing(errors, m);
      while todo != {}
        invariant todo <= m.Keys
        invariant errors == old(errors) + TopLevel(m - todo)
        invariant data == old(data)
        decreases |todo|
      {
        var k :| k in todo;
        PutOneMore(old(errors), m, todo, k);
        errors := errors[[k] := m[k]];
        todo := todo - {k};
      }
      PutEverything(m);
    }

    /** `keep_not_empty_extras(key, data, errors, context)`. */
    method KeepNotEmptyExtras(key: Key)
      requires key !in data || data[key].Dict?
      modifies this
      ensures KeptExtras(old(data), key, Parent(key), ExtrasAt(old(data), key), data)
      ensures errors == old(errors)
    {
      var extras := ExtrasAt(data, key);
      data := data - {key};
      var pre := Parent(key);
      var todo := extras.Keys;
      while todo != {}
        invariant todo <= extras.Keys
        invariant KeptExtras(old(data), key, pre, extras - todo, data)
        invariant errors == old(errors)
        decreases |todo|
      {
        var e :| e in todo;
        KeepOneMore(old(data), key, pre, extras, todo, e, data);
        if Truthy(extras[e]) {
          data := data[pre + [e] := extras[e]];
        }
        todo := todo - {e};
      }
      assert extras - todo == extras;
    }

    /** `harvest_source_extra_validator(key, data, errors, context)`. */
    method SourceExtraValidator(key: Key, plugins: seq<Plugin>, navl: (Value, Schema) -> Validated,
                                loads: Value -> Option<map<string, Value>>, dumps: map<string, Value> -> string)
      returns (err: Option<Error>)
      requires ExtrasShape(data) && "extras" !in AllExtraFields(plugins)
      modifies this
      ensures var out := ExtraValidated(Forms(old(data), old(errors)), key, plugins, navl, loads, dumps);
        && (out.Success? ==> err == None && data == out.value.data && errors == out.value.errors)
        && (out.Failure? ==> err == Some(out.error) && data == old(data) && errors == old(errors))
    {
      var harvesterType := Get(data, ["type"], Str(""));
      var allExtraFields := CollectExtraFields(plugins);
      var extraSchema := PickExtraSchema(plugins, harvesterType);
      if extraSchema.Failure? {
        return Some(extraSchema.error);
      }
      var validated := navl(Get(data, key, Dict(map[])), extraSchema.value);
      var extraData := DropUnlisted(validated.data, allExtraFields);
      PutTopLevel(extraData);
      assert ["extras"] !in TopLevel(extraData);
      PutTopLevelErrors(validated.errors);
      MergeConfig(extraData, validated.errors, loads, dumps);
      return None;
    }

    /** The package-extras part of `harvest_source_extra_validator`. */
    method MergeConfig(extraData: map<string, Value>, extraErrors: map<string, seq<string>>,
                       loads: Value -> Option<map<string, Value>>, dumps: map<string, Value> -> string)
      requires ExtrasShape(data)
      modifies this
      ensures data == WithConfig(old(data), extraData, extraErrors, loads, dumps)
      ensures errors == old(errors)
    {
      var hadExtras := ["extras"] in data;
      var packageExtras := PackageExtras(data);
      var n := FindConfigExtra(packageExtras);
      var configDict: map<string, Value> := map[];
      if n.Some? {
        var extra := packageExtras[n.value];
        packageExtras := packageExtras[..n.value] + packageExtras[n.value + 1..];
        var raw := if "value" in extra.entries && Truthy(extra.entries["value"]) then extra.entries["value"] else Str("{}");
        var loaded := loads(raw);
        configDict := if loaded.Some? then loaded.value else map[];
      }
      configDict := configDict + extraData;
      if configDict != map[] && extraErrors == map[] {
        var config := dumps(configDict);
        packageExtras := packageExtras + [ConfigExtra(config)];
        data := data[["config"] := Str(config)];
      }
      // The stored list is the one changed in place: the form holds it even when it ends empty.
      if hadExtras || packageExtras != [] {
        data := data[["extras"] := List(packageExtras)];
      }
    }

    /** `harvest_source_convert_from_config(key, data, errors, context)`. */
    method SourceConvertFromConfig(key: Key, loads: Value -> Option<map<string, Value>>) returns (err: Option<Error>)
      requires key in data
      modifies this
      ensures var out := ConvertedFromConfig(old(data), key, loads);
        && (out.Success? ==> err == None && data == out.value)
        && (out.Failure? ==> err == Some(out.error) && data == old(data))
      ensures errors == old(errors)
    {
      var config := data[key];
      if Truthy(config) {
        var configDict := loads(config);
        if configDict.None? {
          return Some(ValueError);
        }
        PutTopLevel(configDict.value);
      }
      return None;
    }

    /** `harvest_name_validator(key, data, errors, context)`. */
    method NameValidator(key: Key, sources: seq<Source>, harvestSource: Option<Source>, minLength: nat, maxLength: nat)
      returns (err: Option<Error>)
      requires key in data && data[key].Str? && key in errors
      modifies this
      ensures data == old(data)
      ensures var name := data[key].s;
        errors == if NameTaken(sources, name, EditedId(key, data, harvestSource))
                  then old(errors)[key := old(errors)[key] + [NameInUseMessage]]
                  else old(errors)
      ensures var name := data[key].s;
        err == if |name| < minLength then Some(Invalid(NameTooShortMessage(name, minLength)))
               else if |name| > maxLength then Some(Invalid(NameTooLongMessage(name, maxLength)))
               else None
    {
      var name := data[key].s;
      var sourceId := EditedId(key, data, harvestSource);
      if NameTaken(sources, name, sourceId) {
        errors := errors[key := errors[key] + [NameInUseMessage]];
      }
      if |name| < minLength {
        return Some(Invalid(NameTooShortMessage(name, minLength)));
      }
      if |name| > maxLength {
        return Some(Invalid(NameTooLongMessage(name, maxLength)));
      }
      return None;
    }
  }
}
