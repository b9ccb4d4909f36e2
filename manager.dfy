/**
 * The connection lifecycle of firebase_manager.py: the process-wide
 * FirebaseManager singleton and its initialize() step. The firebase_admin
 * library is reduced to its app registry (an AppRegistry object) and to the
 * outcome of each foreign call (a Backend value given as input).
 */
module Manager {
  import opened Wrappers
  import Config

  /** A plain configuration mapping as initialize() receives it. */
  type ConfigDict = map<string, string>

  /** The mandatory keys, in the order they are checked. */
  const RequiredKeys: seq<string> := ["project_id", "private_key", "client_email"]

  /** The optional keys of the credential map and the value each takes when absent. */
  const OptionalDefaults: map<string, string> := map[
    "private_key_id" := "",
    "client_id" := "",
    "auth_uri" := Config.DefaultAuthUri,
    "token_uri" := Config.DefaultTokenUri,
    "auth_provider_x509_cert_url" := Config.DefaultAuthProviderCertUrl,
    "client_x509_cert_url" := Config.DefaultClientCertUrl]

  /** The keys of the service-account credential initialize() builds: the optional ones and four more. */
  const CredentialKeys: set<string> := OptionalDefaults.Keys + {"type", "project_id", "private_key", "client_email"}

  // ---------------------------------------------------------------------------
  // Key validation
  // ---------------------------------------------------------------------------

  /** `keys[i]` is missing from `config` and every key before it is present. */
  ghost predicate FirstMissingAt(config: ConfigDict, keys: seq<string>, i: int) {
    0 <= i < |keys| && keys[i] !in config && forall j :: 0 <= j < i ==> keys[j] in config
  }

  /** The first key of `keys` that `config` lacks, if any. */
  function FirstMissing(config: ConfigDict, keys: seq<string>): (r: Option<string>)
    ensures r.None? <==> forall k :: k in keys ==> k in config
    ensures r.Some? ==> exists i :: FirstMissingAt(config, keys, i) && keys[i] == r.value
  {
    if keys == [] then None
    else if keys[0] !in config then
      assert FirstMissingAt(config, keys, 0);
      Some(keys[0])
    else
      var r := FirstMissing(config, keys[1..]);
      assert r.Some? ==> exists i :: FirstMissingAt(config, keys, i) && keys[i] == r.value by {
        if r.Some? {
          var i :| FirstMissingAt(config, keys[1..], i) && keys[1..][i] == r.value;
          assert FirstMissingAt(config, keys, i + 1);
        }
      }
      r
  }

  /** The validation loop of initialize(): the first required key that is missing, if any. */
  method CheckRequiredKeys(config: ConfigDict) returns (missing: Option<string>)
    ensures missing == FirstMissing(config, RequiredKeys)
    ensures missing.None? <==> "project_id" in config && "private_key" in config && "client_email" in config
    ensures missing.Some? ==> missing.value !in config && missing.value in RequiredKeys
  {
    var i := 0;
    while i < |RequiredKeys|
      invariant 0 <= i <= |RequiredKeys|
      invariant forall j :: 0 <= j < i ==> RequiredKeys[j] in config
      invariant FirstMissing(config, RequiredKeys) == FirstMissing(config, RequiredKeys[i..])
    {
      var key := RequiredKeys[i];
      if key !in config {
        assert RequiredKeys[i..][0] == key;
        return Some(key);
      }
      assert RequiredKeys[i..][1..] == RequiredKeys[i + 1..];
      i := i + 1;
    }
    return None;
  }

  /** Only the presence of keys matters to validation, never their values. */
  lemma {:induction false} FirstMissingPresenceOnly(config: ConfigDict, other: ConfigDict, keys: seq<string>)
    requires config.Keys == other.Keys
    ensures FirstMissing(config, keys) == FirstMissing(other, keys)
    decreases |keys|
  {
    if keys != [] {
      assert keys[0] in config <==> keys[0] in other;
      FirstMissingPresenceOnly(config, other, keys[1..]);
    }
  }

  /** A present but empty project id passes validation. */
  lemma EmptyProjectIdPasses(privateKey: string, clientEmail: string)
    ensures FirstMissing(map["project_id" := "", "private_key" := privateKey, "client_email" := clientEmail],
                         RequiredKeys).None?
  {
  }

  // ---------------------------------------------------------------------------
  // Credential map and app options
  // ---------------------------------------------------------------------------

  /** The service-account dictionary initialize() hands to the credential loader. */
  function CredentialMap(config: ConfigDict): map<string, string>
    requires forall k :: k in RequiredKeys ==> k in config
  {
    var optional := map k | k in OptionalDefaults :: Lookup(config, k, OptionalDefaults[k]);
    var cred := optional + map[
      "type" := "service_account",
      "project_id" := config["project_id"],
      "private_key" := config["private_key"],
      "client_email" := config["client_email"]];
    cred
  }

  /** The credential map has exactly the ten service-account keys, with the fixed type. */
  lemma CredentialMapKeys(config: ConfigDict)
    requires forall k :: k in RequiredKeys ==> k in config
    ensures CredentialMap(config).Keys == CredentialKeys
    ensures CredentialMap(config)["type"] == "service_account"
  {
    var fixed := map[
      "type" := "service_account",
      "project_id" := config["project_id"],
      "private_key" := config["private_key"],
      "client_email" := config["client_email"]];
    assert fixed.Keys == {"type", "project_id", "private_key", "client_email"};
    assert CredentialMap(config) == (map k | k in OptionalDefaults :: Lookup(config, k, OptionalDefaults[k])) + fixed;
  }

  /** The three required fields are copied verbatim. */
  lemma CredentialMapRequired(config: ConfigDict)
    requires forall k :: k in RequiredKeys ==> k in config
    ensures forall k :: k in RequiredKeys ==> k in CredentialMap(config) && CredentialMap(config)[k] == config[k]
  {
  }

  /** Every optional field comes from the input when present and from its default otherwise. */
  lemma CredentialMapOptional(config: ConfigDict)
    requires forall k :: k in RequiredKeys ==> k in config
    ensures forall k :: k in OptionalDefaults ==>
      k in CredentialMap(config) && CredentialMap(config)[k] == Lookup(config, k, OptionalDefaults[k])
  {
  }

  /** Keys the credential map does not read (a "type" entry among them) make no difference. */
  lemma CredentialMapIgnoresOtherKeys(config: ConfigDict, key: string, value: string)
    requires forall k :: k in RequiredKeys ==> k in config
    requires key !in RequiredKeys && key !in OptionalDefaults
    ensures CredentialMap(config[key := value]) == CredentialMap(config)
  {
    var other := config[key := value];
    assert forall k :: k in OptionalDefaults ==> Lookup(other, k, OptionalDefaults[k]) == Lookup(config, k, OptionalDefaults[k]);
    assert forall k :: k in RequiredKeys ==> other[k] == config[k];
  }

  /**
   * The mapping a FirebaseConfig turns into passes validation, and its three
   * required fields reach the credential unchanged.
   */
  lemma CredentialOfFirebaseConfig(c: Config.FirebaseConfig)
    ensures FirstMissing(Config.AsDict(c), RequiredKeys).None?
    ensures var cred := CredentialMap(Config.AsDict(c));
      && cred["project_id"] == c.projectId
      && cred["private_key"] == c.privateKey
      && cred["client_email"] == c.clientEmail
  {
    assert forall k :: k in RequiredKeys ==> k in Config.AsDict(c);
    CredentialMapRequired(Config.AsDict(c));
  }

  /**
   * Every optional field of a FirebaseConfig is present in its mapping, so the
   * credential carries the record's value and never the fallback.
   */
  lemma CredentialOptionalsOfFirebaseConfig(c: Config.FirebaseConfig)
    ensures forall k :: k in RequiredKeys ==> k in Config.AsDict(c)
    ensures var cred := CredentialMap(Config.AsDict(c));
      && cred["private_key_id"] == c.privateKeyId
      && cred["client_id"] == c.clientId
      && cred["auth_uri"] == c.authUri
      && cred["token_uri"] == c.tokenUri
      && cred["auth_provider_x509_cert_url"] == c.authProviderX509CertUrl
      && cred["client_x509_cert_url"] == c.clientX509CertUrl
  {
    var d := Config.AsDict(c);
    assert forall k :: k in RequiredKeys ==> k in d;
    assert OptionalDefaults.Keys <= d.Keys;
    CredentialMapOptional(d);
  }

  const UrlScheme: string := "https://"
  const UrlHost: string := ".firebaseio.com"

  /** The realtime database URL derived from the project id. */
  function DatabaseUrl(projectId: string): (url: string)
    ensures UrlScheme <= url && |url| == |UrlScheme| + |projectId| + |UrlHost|
    ensures url[|UrlScheme|..|UrlScheme| + |projectId|] == projectId
    ensures url[|UrlScheme| + |projectId|..] == UrlHost
  {
    UrlScheme + projectId + UrlHost
  }

  /** Recovers the project id from a database URL, when it has the expected shape. */
  function ProjectIdOfUrl(url: string): Option<string> {
    if |url| >= |UrlScheme| + |UrlHost| && UrlScheme <= url && url[|url| - |UrlHost|..] == UrlHost
    then Some(url[|UrlScheme|..|url| - |UrlHost|])
    else None
  }

  /** The database URL determines its project id, so distinct projects get distinct URLs. */
  lemma {:induction false} DatabaseUrlRoundTrip(projectId: string)
    ensures ProjectIdOfUrl(DatabaseUrl(projectId)) == Some(projectId)
  {
    var url := DatabaseUrl(projectId);
    assert |url| - |UrlHost| == |UrlScheme| + |projectId|;
  }

  /** The options passed to initialize_app. */
  function AppOptions(projectId: string): (options: map<string, string>)
    ensures options.Keys == {"projectId", "databaseURL"}
    ensures options["projectId"] == projectId
    ensures ProjectIdOfUrl(options["databaseURL"]) == Some(projectId)
  {
    DatabaseUrlRoundTrip(projectId);
    map["projectId" := projectId, "databaseURL" := DatabaseUrl(projectId)]
  }

  // ---------------------------------------------------------------------------
  // The firebase_admin library, reduced to what initialize() observes
  // ---------------------------------------------------------------------------

  /** `credentials.Certificate(cred_dict)`. */
  datatype Credential = ServiceAccount(info: map<string, string>)

  /** An initialised app: the credential and options it was created with. */
  datatype App = App(credential: Credential, options: map<string, string>)

  /** `firestore.client()` and `db.reference()`, both views of the default app. */
  datatype FirestoreClient = FirestoreClient(app: App)
  datatype DbReference = DbReference(app: App, path: string)

  /** The foreign call that raised. */
  datatype Step = CertificateStep | InitializeAppStep | FirestoreStep | DatabaseStep

  /**
   * The outcome of each foreign call: Some(cause) when it raises. This stands
   * for the behaviour of the library and the network, which are not modelled.
   */
  datatype Backend = Backend(
    certificate: Option<string>,
    initializeApp: Option<string>,
    firestore: Option<string>,
    database: Option<string>)

  /** What initialize() raises: a missing key, or an error out of the library. */
  datatype InitError = ConfigError(missingKey: string) | BackendError(step: Step, cause: string)

  /**
   * The result of initialize() given the first missing key, whether an app
   * already existed and how the foreign calls behave: the missing key, else the
   * first foreign call that raised (creating the app is only attempted when
   * none exists), else true.
   */
  function InitOutcome(missing: Option<string>, appExists: bool, backend: Backend): (r: Result<bool, InitError>)
    ensures r.Success? ==> r.value
    ensures missing.Some? ==> r == Failure(ConfigError(missing.value))
    ensures r.Success? <==>
      && missing.None?
      && backend.certificate.None?
      && (!appExists ==> backend.initializeApp.None?)
      && backend.firestore.None? && backend.database.None?
    ensures r.Failure? && r.error.BackendError? ==> missing.None?
    ensures r.Failure? && r.error.BackendError? && r.error.step == InitializeAppStep ==> !appExists
  {
    if missing.Some? then Failure(ConfigError(missing.value))
    else if backend.certificate.Some? then Failure(BackendError(CertificateStep, backend.certificate.value))
    else if !appExists && backend.initializeApp.Some? then Failure(BackendError(InitializeAppStep, backend.initializeApp.value))
    else if backend.firestore.Some? then Failure(BackendError(FirestoreStep, backend.firestore.value))
    else if backend.database.Some? then Failure(BackendError(DatabaseStep, backend.database.value))
    else Success(true)
  }

  /**
   * A configuration error names a key that is required and absent, and every
   * key checked before it is present.
   */
  lemma ConfigErrorNamesFirstMissing(config: ConfigDict, appExists: bool, backend: Backend)
    ensures var r := InitOutcome(FirstMissing(config, RequiredKeys), appExists, backend);
      r.Failure? && r.error.ConfigError? ==>
        exists i :: FirstMissingAt(config, RequiredKeys, i) && RequiredKeys[i] == r.error.missingKey
  {
  }

  /**
   * Once an app exists, and every foreign call (the certificate included) has
   * the same outcome, the result depends only on which keys are present: not on
   * the credentials' values and not on app creation. The certificate outcome is
   * shared because `credentials.Certificate` runs on those values before the
   * reuse test.
   */
  lemma {:induction false} ReuseIgnoresCredentials(config: ConfigDict, other: ConfigDict, backend: Backend, creation: Option<string>)
    requires config.Keys == other.Keys
    ensures InitOutcome(FirstMissing(config, RequiredKeys), true, backend)
         == InitOutcome(FirstMissing(other, RequiredKeys), true, backend.(initializeApp := creation))
  {
    FirstMissingPresenceOnly(config, other, RequiredKeys);
  }

  /** The outcomes after which the app field has been bound. */
  predicate BoundApp(r: Result<bool, InitError>) {
    r.Success? || (r.error.BackendError? && r.error.step in {FirestoreStep, DatabaseStep})
  }

  /** `firebase_admin._apps`: the default app once it exists. */
  class AppRegistry {
    var apps: seq<App>

    ghost predicate Valid()
      reads this
    {
      |apps| <= 1
    }

    constructor ()
      ensures Valid() && apps == []
    {
      apps := [];
    }
  }

  /** The app initialize() creates when none exists yet. */
  function NewApp(config: ConfigDict): (app: App)
    requires forall k :: k in RequiredKeys ==> k in config
    ensures app.credential.info == CredentialMap(config)
    ensures "projectId" in app.options && app.options["projectId"] == config["project_id"]
    ensures "databaseURL" in app.options
    ensures ProjectIdOfUrl(app.options["databaseURL"]) == Some(config["project_id"])
  {
    App(ServiceAccount(CredentialMap(config)), AppOptions(config["project_id"]))
  }

  // ---------------------------------------------------------------------------
  // The manager
  // ---------------------------------------------------------------------------

  class FirebaseManager {
    var app: Option<App>
    var firestoreClient: Option<FirestoreClient>
    var realtimeDb: Option<DbReference>
    /** `_listeners`: no code of the manager ever adds to it. */
    var listeners: map<string, nat>
    /** `_initialized`: read from the class (False) until __init__ first sets it on the instance. */
    var initialized: bool

    /** The fields as the first __init__ leaves them. */
    ghost predicate IsReset()
      reads this
    {
      app.None? && firestoreClient.None? && realtimeDb.None? && listeners == map[]
    }

    /** `object.__new__`: a bare instance that has not run __init__. */
    constructor Allocate()
      ensures !initialized
    {
      initialized := false;
    }

    /** __init__: resets the fields the first time only. */
    method Init()
      modifies this
      ensures initialized
      ensures old(initialized) ==> unchanged(this)
      ensures !old(initialized) ==> IsReset()
    {
      if !initialized {
        app := None;
        firestoreClient := None;
        realtimeDb := None;
        listeners := map[];
        initialized := true;
      }
    }

    /**
     * initialize(firebase_config), with the result InitOutcome describes. A
     * missing key or a failing credential or app creation changes nothing; a
     * failure in a later foreign call leaves the fields the earlier calls set.
     * An existing app is reused whatever the credentials, so there is never
     * more than one.
     */
    method Initialize(config: ConfigDict, registry: AppRegistry, backend: Backend)
      returns (r: Result<bool, InitError>)
      requires registry.Valid()
      modifies this, registry
      ensures r == InitOutcome(FirstMissing(config, RequiredKeys), old(registry.apps) != [], backend)
      ensures registry.Valid()
      ensures listeners == old(listeners) && initialized == old(initialized)
      ensures old(registry.apps) != [] ==> registry.apps == old(registry.apps)
      ensures old(registry.apps) == [] && registry.apps != [] ==>
        FirstMissing(config, RequiredKeys).None? && registry.apps == [NewApp(config)]
      ensures !BoundApp(r) ==> unchanged(this) && unchanged(registry)
      ensures BoundApp(r) ==> registry.apps != [] && app == Some(registry.apps[0])
      ensures r.Success? || (r.Failure? && r.error.BackendError? && r.error.step == DatabaseStep)
        ==> firestoreClient == Some(FirestoreClient(app.value))
      ensures r.Failure? && r.error.BackendError? && r.error.step == FirestoreStep
        ==> firestoreClient == old(firestoreClient)
      ensures r.Failure? ==> realtimeDb == old(realtimeDb)
      ensures r.Success? ==> realtimeDb == Some(DbReference(app.value, "/"))
    {
      var missing := CheckRequiredKeys(config);
      if missing.Some? {
        return Failure(ConfigError(missing.value));
      }
      var info := CredentialMap(config);
      if backend.certificate.Some? {
        return Failure(BackendError(CertificateStep, backend.certificate.value));
      }
      var failure := BindApp(ServiceAccount(info), config["project_id"], registry, backend.initializeApp);
      if failure.Some? {
        return Failure(BackendError(InitializeAppStep, failure.value));
      }
      if backend.firestore.Some? {
        return Failure(BackendError(FirestoreStep, backend.firestore.value));
      }
      firestoreClient := Some(FirestoreClient(app.value));
      if backend.database.Some? {
        return Failure(BackendError(DatabaseStep, backend.database.value));
      }
      realtimeDb := Some(DbReference(app.value, "/"));
      return Success(true);
    }

    /**
     * The app step of initialize(): create the default app from the credential
     * when none exists, otherwise bind the existing one. The result is the cause
     * when creating the app raised, in which case nothing has changed.
     */
    method BindApp(cred: Credential, projectId: string, registry: AppRegistry, creation: Option<string>)
      returns (failure: Option<string>)
      requires registry.Valid()
      modifies this`app, registry
      ensures registry.Valid()
      ensures failure.Some? <==> old(registry.apps) == [] && creation.Some?
      ensures failure.Some? ==> failure == creation && app == old(app) && unchanged(registry)
      ensures failure.None? ==> registry.apps != [] && app == Some(registry.apps[0])
      ensures old(registry.apps) != [] ==> registry.apps == old(registry.apps)
      ensures old(registry.apps) == [] && failure.None? ==> registry.apps == [App(cred, AppOptions(projectId))]
    {
      if registry.apps == [] {
        if creation.Some? {
          return creation;
        }
        var created := App(cred, AppOptions(projectId));
        registry.apps := [created];
        app := Some(created);
      } else {
        app := Some(registry.apps[0]);
      }
      return None;
    }
  }

  /** The class object of FirebaseManager, holding the class attribute `_instance`. */
  class FirebaseManagerClass {
    var instance: FirebaseManager?

    ghost predicate Valid()
      reads this, instance
    {
      instance != null ==> instance.initialized
    }

    constructor ()
      ensures Valid() && instance == null
    {
      instance := null;
    }

    /**
     * `FirebaseManager()`: __new__ returns the one shared instance, creating it
     * on the first call, and __init__ resets its fields only that first time.
     */
    method Construct() returns (m: FirebaseManager)
      requires Valid()
      modifies this, instance
      ensures Valid() && instance == m
      ensures old(instance) != null ==> m == old(instance) && unchanged(m)
      ensures old(instance) == null ==> fresh(m) && m.IsReset()
    {
      if instance == null {
        instance := new FirebaseManager.Allocate();
      }
      m := instance;
      m.Init();
    }
  }

  /**
   * Two constructions in a row yield the same object, and a connection set up
   * through the first is what the second sees; a second initialize() with any
   * credentials binds the app the first one created, and when the first one's
   * app creation raised, the second creates the app from its own credentials.
   */
  method SharedConnection(cls: FirebaseManagerClass, registry: AppRegistry,
                          first: ConfigDict, second: ConfigDict, backend1: Backend, backend2: Backend)
    returns (a: FirebaseManager, b: FirebaseManager, r1: Result<bool, InitError>, r2: Result<bool, InitError>)
    requires cls.Valid() && registry.Valid()
    modifies cls, cls.instance, registry
    ensures a == b && cls.instance == a
    ensures r1.Success? && r2.Success? ==> |registry.apps| == 1 && b.app == Some(registry.apps[0])
    ensures r1.Success? && old(registry.apps) == [] ==>
      (forall k :: k in RequiredKeys ==> k in first) && registry.apps == [NewApp(first)]
    ensures r1.Failure? && r1.error.BackendError? && r1.error.step == InitializeAppStep &&
            r2.Success? && old(registry.apps) == [] ==>
      (forall k :: k in RequiredKeys ==> k in second) && registry.apps == [NewApp(second)]
  {
    a := cls.Construct();
    r1 := a.Initialize(first, registry, backend1);
    b := cls.Construct();
    r2 := b.Initialize(second, registry, backend2);
  }
}
