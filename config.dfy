/**
 * The configuration layer of config.py: the credential record (FirebaseConfig)
 * and how it is read from the environment, the operational settings
 * (FrameworkConfig) with their defaults, and the ConfigManager that validates
 * the credentials and reloads the settings from a JSON file.
 */
module Config {
  import opened Wrappers

  // ---------------------------------------------------------------------------
  // Credential record
  // ---------------------------------------------------------------------------

  const DefaultAuthUri: string := "https://accounts.google.com/o/oauth2/auth"
  const DefaultTokenUri: string := "https://oauth2.googleapis.com/token"
  const DefaultAuthProviderCertUrl: string := "https://www.googleapis.com/oauth2/v1/certs"
  const DefaultClientCertUrl: string :=
    "https://www.googleapis.com/robot/v1/metadata/x509/firebase-adminsdk.iam.gserviceaccount.com"

  /** The dataclass FirebaseConfig; the four endpoint URLs default to the fixed constants. */
  datatype FirebaseConfig = FirebaseConfig(
    projectId: string,
    privateKeyId: string,
    privateKey: string,
    clientEmail: string,
    clientId: string,
    authUri: string := DefaultAuthUri,
    tokenUri: string := DefaultTokenUri,
    authProviderX509CertUrl: string := DefaultAuthProviderCertUrl,
    clientX509CertUrl: string := DefaultClientCertUrl)

  /** A FirebaseConfig built from the five required fields alone carries the four default URLs. */
  lemma DefaultUrls(projectId: string, privateKeyId: string, privateKey: string, clientEmail: string, clientId: string)
    ensures var c := FirebaseConfig(projectId, privateKeyId, privateKey, clientEmail, clientId);
      && c.authUri == "https://accounts.google.com/o/oauth2/auth"
      && c.tokenUri == "https://oauth2.googleapis.com/token"
      && c.authProviderX509CertUrl == "https://www.googleapis.com/oauth2/v1/certs"
      && c.clientX509CertUrl == "https://www.googleapis.com/robot/v1/metadata/x509/firebase-adminsdk.iam.gserviceaccount.com"
  {
  }

  // ---------------------------------------------------------------------------
  // The private key's escaped line breaks
  // ---------------------------------------------------------------------------

  /** True when some backslash in `s` is immediately followed by the letter n. */
  predicate HasEscapedNewline(s: string) {
    exists i :: 0 <= i < |s| - 1 && s[i] == '\\' && s[i + 1] == 'n'
  }

  /**
   * Python's `s.replace('\\n', '\n')`: scanning from the left, every
   * backslash-n pair (not overlapping a pair already taken) becomes one line break.
   */
  function Unescape(s: string): string
    decreases |s|
  {
    if |s| >= 2 && s[0] == '\\' && s[1] == 'n' then "\n" + Unescape(s[2..])
    else if s == [] then []
    else [s[0]] + Unescape(s[1..])
  }

  /** The reverse direction: every line break written as a backslash-n pair. */
  function Escape(s: string): string {
    if s == [] then []
    else (if s[0] == '\n' then "\\n" else [s[0]]) + Escape(s[1..])
  }

  /** The number of line breaks in `s`. */
  function Newlines(s: string): nat {
    if s == [] then 0 else (if s[0] == '\n' then 1 else 0) + Newlines(s[1..])
  }

  /** The first character Unescape produces: a line break for a leading pair, else the first character. */
  lemma {:induction false} UnescapeHead(s: string)
    requires s != []
    ensures Unescape(s) != []
    ensures Unescape(s)[0] == if |s| >= 2 && s[0] == '\\' && s[1] == 'n' then '\n' else s[0]
  {
  }

  /** After unescaping, no backslash-n pair is left. */
  lemma {:induction false} UnescapeLeavesNoPair(s: string)
    ensures !HasEscapedNewline(Unescape(s))
    decreases |s|
  {
    if |s| >= 2 && s[0] == '\\' && s[1] == 'n' {
      UnescapeLeavesNoPair(s[2..]);
      var r := Unescape(s);
      assert r == "\n" + Unescape(s[2..]);
      forall i | 0 <= i < |r| - 1 && r[i] == '\\'
        ensures r[i + 1] != 'n'
      {
        assert i >= 1 && r[i] == Unescape(s[2..])[i - 1];
      }
    } else if s != [] {
      UnescapeLeavesNoPair(s[1..]);
      var tail := Unescape(s[1..]);
      var r := Unescape(s);
      assert r == [s[0]] + tail;
      forall i | 0 <= i < |r| - 1 && r[i] == '\\'
        ensures r[i + 1] != 'n'
      {
        if i == 0 {
          UnescapeHead(s[1..]);
        } else {
          assert r[i] == tail[i - 1] && r[i + 1] == tail[i];
        }
      }
    }
  }

  /** A value without backslash-n pairs is left exactly as it was. */
  lemma {:induction false} UnescapeWithoutPairs(s: string)
    requires !HasEscapedNewline(s)
    ensures Unescape(s) == s
    decreases |s|
  {
    if s != [] {
      assert !HasEscapedNewline(s[1..]) by {
        forall i | 0 <= i < |s[1..]| - 1
          ensures !(s[1..][i] == '\\' && s[1..][i + 1] == 'n')
        {
          assert s[1..][i] == s[i + 1] && s[1..][i + 1] == s[i + 2];
        }
      }
      UnescapeWithoutPairs(s[1..]);
    }
  }

  /** Escape works character by character. */
  lemma EscapeCons(c: char, s: string)
    ensures Escape([c] + s) == (if c == '\n' then "\\n" else [c]) + Escape(s)
  {
    assert ([c] + s)[1..] == s;
  }

  /**
   * Unescaping only forgets which line breaks were written as pairs: escaping
   * the result gives the same text as escaping the input, so each pair became
   * exactly one line break and nothing else changed.
   */
  lemma {:induction false} EscapeAfterUnescape(s: string)
    ensures Escape(Unescape(s)) == Escape(s)
    decreases |s|
  {
    if |s| >= 2 && s[0] == '\\' && s[1] == 'n' {
      EscapeAfterUnescape(s[2..]);
      EscapeCons('\n', Unescape(s[2..]));
      EscapeCons('n', s[2..]);
      EscapeCons('\\', s[1..]);
      assert s == ['\\'] + s[1..] && s[1..] == ['n'] + s[2..];
    } else if s != [] {
      EscapeAfterUnescape(s[1..]);
      EscapeCons(s[0], Unescape(s[1..]));
      EscapeCons(s[0], s[1..]);
      assert s == [s[0]] + s[1..];
    }
  }

  /** Each replaced pair shortens the text by one character and adds one line break. */
  lemma {:induction false} UnescapeLength(s: string)
    ensures |s| - |Unescape(s)| == Newlines(Unescape(s)) - Newlines(s)
    decreases |s|
  {
    if |s| >= 2 && s[0] == '\\' && s[1] == 'n' {
      UnescapeLength(s[2..]);
      assert ("\n" + Unescape(s[2..]))[1..] == Unescape(s[2..]);
      assert s[1..][1..] == s[2..];
    } else if s != [] {
      UnescapeLength(s[1..]);
      assert ([s[0]] + Unescape(s[1..]))[1..] == Unescape(s[1..]);
    }
  }

  // ---------------------------------------------------------------------------
  // FirebaseConfig.from_env
  // ---------------------------------------------------------------------------

  /** The process environment, as the values of the variables that are set. */
  type Env = map<string, string>

  /**
   * FirebaseConfig.from_env: every field from its variable
   * (`os.getenv(name, '')`), the private key unescaped, the client cert URL from its variable too, and the other three
   * URLs at their defaults.
   */
  function FromEnv(env: Env): FirebaseConfig {
    FirebaseConfig(
      projectId := Lookup(env, "FIREBASE_PROJECT_ID", ""),
      privateKeyId := Lookup(env, "FIREBASE_PRIVATE_KEY_ID", ""),
      privateKey := Unescape(Lookup(env, "FIREBASE_PRIVATE_KEY", "")),
      clientEmail := Lookup(env, "FIREBASE_CLIENT_EMAIL", ""),
      clientId := Lookup(env, "FIREBASE_CLIENT_ID", ""),
      clientX509CertUrl := Lookup(env, "FIREBASE_CLIENT_CERT_URL", ""))
  }

  /**
   * The private key read from the environment holds no backslash-n pair; it is
   * the variable's value with each pair turned into one line break, and a value
   * without pairs comes through unchanged.
   */
  lemma FromEnvPrivateKey(env: Env)
    ensures !HasEscapedNewline(FromEnv(env).privateKey)
    ensures Escape(FromEnv(env).privateKey) == Escape(Lookup(env, "FIREBASE_PRIVATE_KEY", ""))
    ensures !HasEscapedNewline(Lookup(env, "FIREBASE_PRIVATE_KEY", "")) ==>
      FromEnv(env).privateKey == Lookup(env, "FIREBASE_PRIVATE_KEY", "")
  {
    var key := Lookup(env, "FIREBASE_PRIVATE_KEY", "");
    UnescapeLeavesNoPair(key);
    EscapeAfterUnescape(key);
    if !HasEscapedNewline(key) {
      UnescapeWithoutPairs(key);
    }
  }

  /**
   * Every unset variable yields ''. The client cert URL is always the
   * variable's value or '', never the class default; the other three URLs keep
   * their defaults.
   */
  lemma FromEnvUnsetFields(env: Env)
    ensures var c := FromEnv(env);
      && ("FIREBASE_PROJECT_ID" !in env ==> c.projectId == "")
      && ("FIREBASE_PRIVATE_KEY_ID" !in env ==> c.privateKeyId == "")
      && ("FIREBASE_PRIVATE_KEY" !in env ==> c.privateKey == "")
      && ("FIREBASE_CLIENT_EMAIL" !in env ==> c.clientEmail == "")
      && ("FIREBASE_CLIENT_ID" !in env ==> c.clientId == "")
      && c.clientX509CertUrl == Lookup(env, "FIREBASE_CLIENT_CERT_URL", "")
      && c.authUri == DefaultAuthUri && c.tokenUri == DefaultTokenUri
      && c.authProviderX509CertUrl == DefaultAuthProviderCertUrl
  {
  }

  /** The dataclass's `__dict__`: its fields under their Python names. */
  function AsDict(c: FirebaseConfig): (d: map<string, string>)
    ensures d.Keys == {"project_id", "private_key_id", "private_key", "client_email", "client_id",
                       "auth_uri", "token_uri", "auth_provider_x509_cert_url", "client_x509_cert_url"}
  {
    map[
      "project_id" := c.projectId,
      "private_key_id" := c.privateKeyId,
      "private_key" := c.privateKey,
      "client_email" := c.clientEmail,
      "client_id" := c.clientId,
      "auth_uri" := c.authUri,
      "token_uri" := c.tokenUri,
      "auth_provider_x509_cert_url" := c.authProviderX509CertUrl,
      "client_x509_cert_url" := c.clientX509CertUrl]
  }

  /** Validation of the credentials: present, with a non-empty project id. */
  predicate IsComplete(c: Option<FirebaseConfig>) {
    c.Some? && c.value.projectId != ""
  }

  /** Only the project id is consulted: the key and the e-mail address may be anything. */
  lemma CompletenessIgnoresKeyAndEmail(c: FirebaseConfig, key: string, email: string)
    ensures IsComplete(Some(c)) == IsComplete(Some(c.(privateKey := key, clientEmail := email)))
    ensures IsComplete(Some(c)) <==> c.projectId != ""
  {
  }

  // ---------------------------------------------------------------------------
  // FrameworkConfig
  // ---------------------------------------------------------------------------

  /** A value as json.load produces it; a JSON float is taken as an exact real. */
  datatype Json =
    | JNull
    | JBool(b: bool)
    | JNum(n: int)
    | JReal(x: real)
    | JStr(s: string)
    | JArr(items: seq<Json>)
    | JObj(fields: map<string, Json>)

  /** The keyword parameters of FrameworkConfig's generated __init__. */
  const FieldNames: set<string> := {
    "learning_rate", "exploration_rate", "memory_size", "batch_size",
    "max_retries", "retry_delay", "timeout_seconds",
    "strategy_evaluation_interval", "performance_threshold", "adaptation_threshold",
    "firebase_collections"}

  /** The five logical collection roles. */
  const CollectionRoles: seq<string> :=
    ["integration_logs", "strategies", "performance_metrics", "adaptation_history", "platform_configs"]

  /** The mapping __post_init__ installs: every role names a backend collection of the same name. */
  function DefaultCollections(): map<string, Json> {
    map[
      "integration_logs" := JStr("integration_logs"),
      "strategies" := JStr("strategies"),
      "performance_metrics" := JStr("performance_metrics"),
      "adaptation_history" := JStr("adaptation_history"),
      "platform_configs" := JStr("platform_configs")]
  }

  /** The default mapping has exactly the five roles as keys, each mapped to its own name. */
  lemma DefaultCollectionsRoles()
    ensures DefaultCollections().Keys == set r | r in CollectionRoles
    ensures |DefaultCollections()| == 5
    ensures forall r :: r in DefaultCollections() ==> DefaultCollections()[r] == JStr(r)
  {
  }


  /**
   * The dataclass FrameworkConfig. The fields hold whatever value was passed,
   * as the dataclass does no type checking; the floating-point fields are not
   * part of this model.
   */
  class FrameworkConfig {
    var memorySize: Json
    var batchSize: Json
    var maxRetries: Json
    var timeoutSeconds: Json
    var strategyEvaluationInterval: Json
    var firebaseCollections: Json

    /** The state `FrameworkConfig(**args)` ends in, after __post_init__. */
    ghost predicate BuiltFrom(args: map<string, Json>)
      reads this
    {
      && memorySize == Lookup(args, "memory_size", JNum(10000))
      && batchSize == Lookup(args, "batch_size", JNum(32))
      && maxRetries == Lookup(args, "max_retries", JNum(3))
      && timeoutSeconds == Lookup(args, "timeout_seconds", JNum(30))
      && strategyEvaluationInterval == Lookup(args, "strategy_evaluation_interval", JNum(3600))
      && firebaseCollections ==
           (if Lookup(args, "firebase_collections", JNull) == JNull then JObj(DefaultCollections())
            else args["firebase_collections"])
    }

    /** `FrameworkConfig(**args)`; an unknown keyword is a TypeError, which callers must avoid. */
    constructor (args: map<string, Json>)
      requires args.Keys <= FieldNames
      ensures BuiltFrom(args)
      ensures args == map[] ==>
        && maxRetries == JNum(3) && timeoutSeconds == JNum(30)
        && firebaseCollections == JObj(DefaultCollections())
    {
      memorySize := Lookup(args, "memory_size", JNum(10000));
      batchSize := Lookup(args, "batch_size", JNum(32));
      maxRetries := Lookup(args, "max_retries", JNum(3));
      timeoutSeconds := Lookup(args, "timeout_seconds", JNum(30));
      strategyEvaluationInterval := Lookup(args, "strategy_evaluation_interval", JNum(3600));
      firebaseCollections := Lookup(args, "firebase_collections", JNull);
      new;
      PostInit();
    }

    /** __post_init__: an absent (None) collection mapping gets the five defaults; any other value stays. */
    method PostInit()
      modifies this`firebaseCollections
      ensures old(firebaseCollections) == JNull ==> firebaseCollections == JObj(DefaultCollections())
      ensures old(firebaseCollections) != JNull ==> firebaseCollections == old(firebaseCollections)
    {
      if firebaseCollections == JNull {
        firebaseCollections := JObj(DefaultCollections());
      }
    }
  }

  // ---------------------------------------------------------------------------
  // ConfigManager
  // ---------------------------------------------------------------------------

  const ConfigFileName: string := ".aief_config.json"

  /** What reading the configuration file yields: an open or JSON error, or a parsed document. */
  datatype ConfigFile = Unreadable | Document(doc: Json)

  /** The files that exist, by path. */
  type FileSystem = map<string, ConfigFile>

  /** What load() does with the file it finds. */
  datatype LoadStep =
    | NotFound                            // no file: return False
    | Failed                              // an exception was caught: return False
    | Keep                                // no framework section: return True, settings kept
    | Replace(args: map<string, Json>)    // return True with FrameworkConfig(**args)

  /** `needle` occurs in `s` as a contiguous substring (Python's `in` on strings). */
  predicate Contains(s: string, needle: string)
    decreases |s|
  {
    needle <= s || (s != [] && Contains(s[1..], needle))
  }

  /** `FrameworkConfig(**v)`: a TypeError unless `v` is an object whose keys are all field names. */
  function ArgsStep(v: Json): (step: LoadStep)
    ensures step.Replace? ==> v == JObj(step.args) && step.args.Keys <= FieldNames
    ensures !step.Replace? ==> step == Failed
  {
    if v.JObj? && v.fields.Keys <= FieldNames then Replace(v.fields) else Failed
  }

  /**
   * The decision load() takes. `'framework' in config_data` is a key test on an
   * object, an element test on a list, a substring test on a string and a
   * TypeError on a number, boolean or null; indexing a list or string with
   * 'framework' is a TypeError too.
   */
  function LoadPlan(file: Option<ConfigFile>): (step: LoadStep)
    ensures file.None? <==> step == NotFound
    ensures file == Some(Unreadable) ==> step == Failed
    ensures (file.Some? && file.value.Document? && file.value.doc.JObj?) ==>
              ("framework" !in file.value.doc.fields <==> step == Keep)
    ensures step.Replace? ==> step.args.Keys <= FieldNames
    ensures step.Replace? ==>
              (file.Some? && file.value.Document? && file.value.doc.JObj? &&
               "framework" in file.value.doc.fields && file.value.doc.fields["framework"] == JObj(step.args))
  {
    match file
    case None => NotFound
    case Some(Unreadable) => Failed
    case Some(Document(doc)) =>
      match doc
      case JObj(m) => if "framework" in m then ArgsStep(m["framework"]) else Keep
      case JArr(items) => if JStr("framework") in items then Failed else Keep
      case JStr(s) => if Contains(s, "framework") then Failed else Keep
      case _ => Failed
  }

  /** The ConfigManager object: where its file lives and the two settings it holds. */
  class ConfigManager {
    var configPath: string
    var frameworkConfig: FrameworkConfig
    var firebaseConfig: Option<FirebaseConfig>

    /**
     * `ConfigManager(config_path)`: an empty or missing path means the default file
     * in the home directory; the settings start at their defaults and the
     * credentials are read from the environment.
     */
    constructor (configPath: Option<string>, home: string, env: Env)
      ensures this.configPath ==
        (if configPath.Some? && configPath.value != "" then configPath.value else home + "/" + ConfigFileName)
      ensures fresh(frameworkConfig) && frameworkConfig.BuiltFrom(map[])
      ensures firebaseConfig == Some(FromEnv(env))
    {
      this.configPath :=
        if configPath.Some? && configPath.value != "" then configPath.value else home + "/" + ConfigFileName;
      frameworkConfig := new FrameworkConfig(map[]);
      firebaseConfig := Some(FromEnv(env));
    }

    /** validate(): reads the credentials only and changes nothing. */
    method Validate() returns (ok: bool)
      ensures ok <==> firebaseConfig.Some? && firebaseConfig.value.projectId != ""
      ensures ok == IsComplete(firebaseConfig)
    {
      if firebaseConfig.None? {
        return false;
      }
      if firebaseConfig.value.projectId == "" {
        return false;
      }
      return true;
    }

    /**
     * load(): the credentials are never touched; the settings are replaced only
     * when the file holds a usable framework section.
     */
    method Load(fs: FileSystem) returns (ok: bool)
      modifies this
      ensures configPath == old(configPath) && firebaseConfig == old(firebaseConfig)
      ensures var step := LoadPlan(if configPath in fs then Some(fs[configPath]) else None);
        && (ok <==> step == Keep || step.Replace?)
        && (step.Replace? ==> fresh(frameworkConfig) && frameworkConfig.BuiltFrom(step.args))
        && (!step.Replace? ==> frameworkConfig == old(frameworkConfig))
      ensures configPath !in fs ==> !ok && frameworkConfig == old(frameworkConfig)
      ensures !ok ==> frameworkConfig == old(frameworkConfig)
    {
      var step := LoadPlan(if configPath in fs then Some(fs[configPath]) else None);
      match step
      case NotFound => ok := false;
      case Failed => ok := false;
      case Keep => ok := true;
      case Replace(args) =>
        frameworkConfig := new FrameworkConfig(args);
        ok := true;
    }
  }
}
