/**
 The KS3 provider's typed configuration: Values prints it into strings, ParseConfig reads
 it back, and readConfig is the second reader, used when a request is served. What
 validateEndpoint asks of net/url is the parameter endpointOk.
 */
module Ks3Codec {
  import opened Wrappers
  import opened ConfigTypes
  import opened Strconv

  const NAME := "ks3"
  const BUCKET := "bucket"
  const ENDPOINT := "endpoint"
  const ACCESS_KEY := "access_key"
  const SECRET_KEY := "secret_key"
  const PROTOCOL := "protocol"
  const USER_AGENT := "user_agent"
  const MAX_CONNECTIONS := "max_connections"
  const TIMEOUT := "timeout"
  const CREATE_BUCKET := "create_bucket_if_not_exists"

  datatype Config = Config(
    bucket: string, endpoint: string, accessKey: string, secretKey: string, protocol: string, userAgent: string,
    maxConnections: int64, timeout: int64, createBucketIfNotExists: bool)

  datatype ParseError = WrongBackend(got: string) | NotABoolean(key: string) | NotAnInteger(key: string)

  type Values = map<string, string>

  /** Config.Values */
  function Print(c: Config): Values {
    map[
      BUCKET := c.bucket, ENDPOINT := c.endpoint, ACCESS_KEY := c.accessKey, SECRET_KEY := c.secretKey,
      PROTOCOL := c.protocol, USER_AGENT := c.userAgent,
      MAX_CONNECTIONS := Itoa(c.maxConnections), TIMEOUT := Itoa(c.timeout),
      CREATE_BUCKET := FormatBool(c.createBucketIfNotExists)]
  }

  /** An absent or empty integer reads as zero. */
  function ReadInt(raw: string): Option<int64> {
    if raw == "" then Some(0) else Atoi(raw)
  }

  /** An absent or empty boolean reads as false. */
  function ReadBool(raw: string): Option<bool> {
    if raw == "" then Some(false) else ParseBool(raw)
  }

  function ParseConfig(config: ContainerConfig): Result<Config, ParseError> {
    var v := config.values;
    if config.backend != NAME then Err(WrongBackend(config.backend))
    else
      var create := ReadBool(ValueAt(v, CREATE_BUCKET));
      if create.None? then Err(NotABoolean(CREATE_BUCKET))
      else
        var maxConnections := ReadInt(ValueAt(v, MAX_CONNECTIONS));
        if maxConnections.None? then Err(NotAnInteger(MAX_CONNECTIONS))
        else
          var timeout := ReadInt(ValueAt(v, TIMEOUT));
          if timeout.None? then Err(NotAnInteger(TIMEOUT))
          else
            Ok(Config(
              ValueAt(v, BUCKET), ValueAt(v, ENDPOINT), ValueAt(v, ACCESS_KEY), ValueAt(v, SECRET_KEY),
              ValueAt(v, PROTOCOL), ValueAt(v, USER_AGENT),
              maxConnections.value, timeout.value, create.value))
  }

  // ----- readConfig -----

  datatype ReadError =
    | Required(key: string)
    | BadEndpoint
    | BadProtocol
    | BadMaxConnections
    | BadTimeout
    | BadCreateBucket

  const REQUIRED: set<string> := {BUCKET, ENDPOINT, ACCESS_KEY, SECRET_KEY}

  /** The required keys without a value; readConfig reports any one of them. */
  function Missing(v: Values): set<string> {
    set key | key in REQUIRED && ValueAt(v, key) == ""
  }

  /** A non-negative integer, or absent. */
  function ReadCount(raw: string): Option<int64> {
    var n := ReadInt(raw);
    if n.Some? && 0 <= n.value then n else None
  }

  function Scheme(raw: string): string {
    if raw == "" then "https" else raw
  }

  /** What readConfig answers once no required key is missing. */
  function ReadComplete(v: Values, endpointOk: string -> bool): Result<Config, ReadError> {
    var protocol := Scheme(ValueAt(v, PROTOCOL));
    var maxConnections, timeout := ReadCount(ValueAt(v, MAX_CONNECTIONS)), ReadCount(ValueAt(v, TIMEOUT));
    var create := ReadBool(ValueAt(v, CREATE_BUCKET));
    if !endpointOk(ValueAt(v, ENDPOINT)) then Err(BadEndpoint)
    else if protocol != "http" && protocol != "https" then Err(BadProtocol)
    else if maxConnections.None? then Err(BadMaxConnections)
    else if timeout.None? then Err(BadTimeout)
    else if create.None? then Err(BadCreateBucket)
    else
      Ok(Config(
        ValueAt(v, BUCKET), ValueAt(v, ENDPOINT), ValueAt(v, ACCESS_KEY), ValueAt(v, SECRET_KEY),
        protocol, ValueAt(v, USER_AGENT), maxConnections.value, timeout.value, create.value))
  }

  /** The answers readConfig may give; the map of required keys is iterated in any order. */
  predicate MayRead(v: Values, endpointOk: string -> bool, r: Result<Config, ReadError>) {
    if Missing(v) != {} then r.Err? && r.error.Required? && r.error.key in Missing(v)
    else r == ReadComplete(v, endpointOk)
  }

  method ReadConfig(v: Values, endpointOk: string -> bool) returns (r: Result<Config, ReadError>)
    ensures MayRead(v, endpointOk, r)
  {
    var cfg := Config(
      ValueAt(v, BUCKET), ValueAt(v, ENDPOINT), ValueAt(v, ACCESS_KEY), ValueAt(v, SECRET_KEY),
      ValueAt(v, PROTOCOL), ValueAt(v, USER_AGENT), 0, 0, false);
    var unchecked := REQUIRED;
    while unchecked != {}
      invariant unchecked <= REQUIRED
      invariant Missing(v) <= unchecked
      decreases unchecked
    {
      var key :| key in unchecked;
      if ValueAt(v, key) == "" {
        return Err(Required(key));
      }
      unchecked := unchecked - {key};
    }
    if !endpointOk(cfg.endpoint) {
      return Err(BadEndpoint);
    }
    if cfg.protocol == "" {
      cfg := cfg.(protocol := "https");
    }
    if cfg.protocol != "http" && cfg.protocol != "https" {
      return Err(BadProtocol);
    }
    var value := ValueAt(v, MAX_CONNECTIONS);
    if value != "" {
      var maxConnections := Atoi(value);
      if maxConnections.None? || maxConnections.value < 0 {
        return Err(BadMaxConnections);
      }
      cfg := cfg.(maxConnections := maxConnections.value);
    }
    value := ValueAt(v, TIMEOUT);
    if value != "" {
      var timeout := Atoi(value);
      if timeout.None? || timeout.value < 0 {
        return Err(BadTimeout);
      }
      cfg := cfg.(timeout := timeout.value);
    }
    value := ValueAt(v, CREATE_BUCKET);
    if value != "" {
      var create := ParseBool(value);
      if create.None? {
        return Err(BadCreateBucket);
      }
      cfg := cfg.(createBucketIfNotExists := create.value);
    }
    return Ok(cfg);
  }

  // ----- The two readers and the printer -----

  lemma KeysAreDistinct()
    ensures
      |{BUCKET, ENDPOINT, ACCESS_KEY, SECRET_KEY, PROTOCOL, USER_AGENT, MAX_CONNECTIONS, TIMEOUT, CREATE_BUCKET}| == 9
  {
    assert BUCKET[0] == 'b' && ENDPOINT[0] == 'e' && ACCESS_KEY[0] == 'a' && SECRET_KEY[0] == 's';
    assert PROTOCOL[0] == 'p' && USER_AGENT[0] == 'u' && MAX_CONNECTIONS[0] == 'm' && TIMEOUT[0] == 't';
    assert CREATE_BUCKET[0] == 'c';
  }

  /** Reading back a printed field. */
  lemma PrintedFields(c: Config)
    ensures
      var v := Print(c);
      && ValueAt(v, BUCKET) == c.bucket && ValueAt(v, ENDPOINT) == c.endpoint
      && ValueAt(v, ACCESS_KEY) == c.accessKey && ValueAt(v, SECRET_KEY) == c.secretKey
      && ValueAt(v, PROTOCOL) == c.protocol && ValueAt(v, USER_AGENT) == c.userAgent
      && ReadInt(ValueAt(v, MAX_CONNECTIONS)) == Some(c.maxConnections)
      && ReadInt(ValueAt(v, TIMEOUT)) == Some(c.timeout)
      && ReadBool(ValueAt(v, CREATE_BUCKET)) == Some(c.createBucketIfNotExists)
  {
    KeysAreDistinct();
    AtoiItoa(c.maxConnections);
    AtoiItoa(c.timeout);
    ParseBoolFormatBool(c.createBucketIfNotExists);
  }

  /** Parsing what was printed returns the configuration, for all 64-bit integers. */
  lemma PrintThenParse(c: Config, mode: TenantMode)
    ensures ParseConfig(ContainerConfig(NAME, mode, Print(c))) == Ok(c)
  {
    PrintedFields(c);
  }

  /** Two maps in which every field reads the same. */
  predicate ReadAlike(v: Values, w: Values) {
    && ValueAt(v, BUCKET) == ValueAt(w, BUCKET) && ValueAt(v, ENDPOINT) == ValueAt(w, ENDPOINT)
    && ValueAt(v, ACCESS_KEY) == ValueAt(w, ACCESS_KEY) && ValueAt(v, SECRET_KEY) == ValueAt(w, SECRET_KEY)
    && ValueAt(v, PROTOCOL) == ValueAt(w, PROTOCOL) && ValueAt(v, USER_AGENT) == ValueAt(w, USER_AGENT)
    && ReadInt(ValueAt(v, MAX_CONNECTIONS)) == ReadInt(ValueAt(w, MAX_CONNECTIONS))
    && ReadInt(ValueAt(v, TIMEOUT)) == ReadInt(ValueAt(w, TIMEOUT))
    && ReadBool(ValueAt(v, CREATE_BUCKET)) == ReadBool(ValueAt(w, CREATE_BUCKET))
  }

  lemma AlikeMapsAnswerAlike(v: Values, w: Values, endpointOk: string -> bool)
    requires ReadAlike(v, w)
    ensures Missing(v) == Missing(w)
    ensures ReadComplete(v, endpointOk) == ReadComplete(w, endpointOk)
  {
  }

  lemma ParsedPrintsAlike(config: ContainerConfig)
    requires ParseConfig(config).Ok?
    ensures ReadAlike(config.values, Print(ParseConfig(config).value))
  {
    PrintedFields(ParseConfig(config).value);
  }

  lemma AlikeMapsReadAlike(v: Values, w: Values, endpointOk: string -> bool, r: Result<Config, ReadError>)
    requires ReadAlike(v, w)
    ensures MayRead(v, endpointOk, r) <==> MayRead(w, endpointOk, r)
  {
    AlikeMapsAnswerAlike(v, w, endpointOk);
  }

  /** Normalizing a configuration through ParseConfig and Values never changes what readConfig may answer. */
  lemma {:induction false} NormalizingKeepsReading(
    config: ContainerConfig, endpointOk: string -> bool, r: Result<Config, ReadError>
  )
    requires ParseConfig(config).Ok?
    ensures MayRead(Print(ParseConfig(config).value), endpointOk, r) <==> MayRead(config.values, endpointOk, r)
  {
    ParsedPrintsAlike(config);
    AlikeMapsReadAlike(config.values, Print(ParseConfig(config).value), endpointOk, r);
  }

  /** The configurations readConfig accepts, in terms of ParseConfig. */
  predicate Servable(c: Config, endpointOk: string -> bool) {
    && c.bucket != "" && c.endpoint != "" && c.accessKey != "" && c.secretKey != ""
    && endpointOk(c.endpoint)
    && c.protocol in {"", "http", "https"}
    && 0 <= c.maxConnections && 0 <= c.timeout
  }

  /**
   readConfig succeeds exactly when ParseConfig does and the parsed configuration is
   servable; the two results then differ at most in the defaulted protocol.
   */
  lemma ReadersAgree(config: ContainerConfig, endpointOk: string -> bool, r: Result<Config, ReadError>)
    requires config.backend == NAME
    requires MayRead(config.values, endpointOk, r)
    ensures r.Ok? <==> ParseConfig(config).Ok? && Servable(ParseConfig(config).value, endpointOk)
    ensures r.Ok? ==> r.value == ParseConfig(config).value.(protocol := Scheme(ParseConfig(config).value.protocol))
  {
    var v := config.values;
    assert Missing(v) == {} <==>
      && ValueAt(v, BUCKET) != "" && ValueAt(v, ENDPOINT) != ""
      && ValueAt(v, ACCESS_KEY) != "" && ValueAt(v, SECRET_KEY) != "" by {
      assert forall key :: key in Missing(v) <==> key in REQUIRED && ValueAt(v, key) == "";
    }
  }

  // ----- The fields, in plain words -----

  /** The text under the key; the empty text when there is none. */
  predicate Says(v: Values, key: string, text: string) {
    text == if key in v then v[key] else ""
  }

  /** Absent and empty integers are zero. */
  predicate SaysInt(v: Values, key: string, n: int64) {
    if key !in v || v[key] == "" then n == 0 else Atoi(v[key]) == Some(n)
  }

  /** Absent and empty booleans are false. */
  predicate SaysBool(v: Values, key: string, b: bool) {
    if key !in v || v[key] == "" then b == false else ParseBool(v[key]) == Some(b)
  }

  /** Every field from its own key, with the defaults for numbers and flags. */
  predicate FieldsOf(v: Values, c: Config) {
    && Says(v, "bucket", c.bucket) && Says(v, "endpoint", c.endpoint)
    && Says(v, "access_key", c.accessKey) && Says(v, "secret_key", c.secretKey)
    && Says(v, "user_agent", c.userAgent)
    && SaysInt(v, "max_connections", c.maxConnections) && SaysInt(v, "timeout", c.timeout)
    && SaysBool(v, "create_bucket_if_not_exists", c.createBucketIfNotExists)
  }

  /**
   ParseConfig takes every field from its key, and fails exactly for another backend or a
   malformed number or flag.
   */
  lemma ParsedFields(config: ContainerConfig, c: Config)
    ensures ParseConfig(config) == Ok(c) <==>
      config.backend == "ks3" && FieldsOf(config.values, c) && Says(config.values, "protocol", c.protocol)
  {
  }

  lemma ParsingNeedsTheBackend(config: ContainerConfig)
    ensures config.backend != "ks3" <==> ParseConfig(config) == Err(WrongBackend(config.backend))
  {
  }

  /** readConfig's protocol: https unless the configuration names one. */
  predicate ProtocolOf(v: Values, protocol: string) {
    protocol == if "protocol" !in v || v["protocol"] == "" then "https" else v["protocol"]
  }

  /**
   What readConfig accepts, field by field: the four required texts, an endpoint that
   validates, http or https and by default https, and counts that are not negative.
   */
  lemma ReadFields(v: Values, endpointOk: string -> bool, r: Result<Config, ReadError>, c: Config)
    requires MayRead(v, endpointOk, r)
    ensures r == Ok(c) <==>
      && FieldsOf(v, c) && ProtocolOf(v, c.protocol)
      && c.bucket != "" && c.endpoint != "" && c.accessKey != "" && c.secretKey != ""
      && endpointOk(c.endpoint) && c.protocol in ["http", "https"]
      && 0 <= c.maxConnections && 0 <= c.timeout
  {
    MissingExactly(v);
  }

  lemma MissingExactly(v: Values)
    ensures Missing(v) == {} <==>
      && ValueAt(v, "bucket") != "" && ValueAt(v, "endpoint") != ""
      && ValueAt(v, "access_key") != "" && ValueAt(v, "secret_key") != ""
    ensures forall key :: key in Missing(v) ==> key in ["bucket", "endpoint", "access_key", "secret_key"]
    ensures forall key :: key in Missing(v) ==> key !in v || v[key] == ""
  {
    assert forall key :: key in Missing(v) <==> key in REQUIRED && ValueAt(v, key) == "";
  }

  /** A missing required key is reported before anything else, and then the checks in their order. */
  lemma ReadErrors(v: Values, endpointOk: string -> bool, r: Result<Config, ReadError>)
    requires MayRead(v, endpointOk, r)
    ensures r.Err? && r.error.Required? <==>
      "" in [ValueAt(v, "bucket"), ValueAt(v, "endpoint"), ValueAt(v, "access_key"), ValueAt(v, "secret_key")]
    ensures r.Err? && r.error.Required? ==>
      && r.error.key in ["bucket", "endpoint", "access_key", "secret_key"]
      && (r.error.key !in v || v[r.error.key] == "")
    ensures r == Err(BadEndpoint) ==> !endpointOk(ValueAt(v, "endpoint"))
    ensures r == Err(BadProtocol) ==>
      endpointOk(ValueAt(v, "endpoint")) && ValueAt(v, "protocol") !in ["", "http", "https"]
    ensures r == Err(BadMaxConnections) ==>
      && endpointOk(ValueAt(v, "endpoint")) && ValueAt(v, "protocol") in ["", "http", "https"]
      && ValueAt(v, "max_connections") != ""
      && (Atoi(ValueAt(v, "max_connections")).None? || Atoi(ValueAt(v, "max_connections")).value < 0)
    ensures r == Err(BadTimeout) ==>
      && endpointOk(ValueAt(v, "endpoint")) && ValueAt(v, "protocol") in ["", "http", "https"]
      && ValueAt(v, "timeout") != ""
      && (Atoi(ValueAt(v, "timeout")).None? || Atoi(ValueAt(v, "timeout")).value < 0)
    ensures r == Err(BadCreateBucket) ==>
      && endpointOk(ValueAt(v, "endpoint")) && ValueAt(v, "protocol") in ["", "http", "https"]
      && ValueAt(v, "create_bucket_if_not_exists") != ""
      && ParseBool(ValueAt(v, "create_bucket_if_not_exists")).None?
  {
    MissingExactly(v);
    var four := [ValueAt(v, "bucket"), ValueAt(v, "endpoint"), ValueAt(v, "access_key"), ValueAt(v, "secret_key")];
    assert "" in four <==> four[0] == "" || four[1] == "" || four[2] == "" || four[3] == "";
  }
}
