# Firebase configuration and connection set-up, modelled in Dafny

This project models the configuration and connection-setup layer of a
Firebase-backed client (the Autonomous Integration Evolution Framework). It
covers two Python files:

- `config.py`:
  - the `FirebaseConfig` credential record and how `from_env` fills it from
    environment variables, including unescaping the private key;
  - the `FrameworkConfig` operational settings with their defaults;
  - the `ConfigManager` object, which validates the credentials and reloads the
    settings from a JSON file.
- `firebase_manager.py`:
  - the process-wide `FirebaseManager` singleton;
  - its `initialize` step. This step checks the required keys, builds the
    service-account credential map, derives the database URL, reuses an
    existing app or creates the first one, and binds the Firestore and
    Realtime Database clients.

Files:

- `wrappers.dfy` (module `Wrappers`): `Option` and `Result`. These stand in for
  Python's `None` and for raised exceptions.
- `config.dfy` (module `Config`): `config.py`.
  - `FirebaseConfig` is a datatype whose four URL fields default to the fixed
    endpoints.
  - `FrameworkConfig` and `ConfigManager` are classes, because the source
    assigns their fields.
  - The environment is a `map<string, string>`. The file system is a map from
    path to `ConfigFile`: either unreadable, or a parsed JSON value.
- `manager.dfy` (module `Manager`): `firebase_manager.py`.
  - `FirebaseManagerClass` is the class object. It holds the class attribute
    `_instance`.
  - `FirebaseManager` is the instance, with its four fields and its
    `_initialized` flag.
  - `AppRegistry` is `firebase_admin._apps`.
  - A `Backend` value says which foreign call raises, if any (certificate
    loading, app creation, the Firestore client or the database reference).

Errors are a tagged `InitError`. `ConfigError(key)` is a missing required key.
`BackendError(step, cause)` is an error raised by the library.
`initialize` returns `Success(true)` or one of these failures, never `false`.

Where the type hints and docstrings suggest otherwise, the model follows the code:

- `from_env` is annotated `Optional['FirebaseConfig']` (config.py:25) but never
  fails. Every unset variable becomes `''`, so the result is never absent. The `except` branch cannot be reached with string values, so
  `FromEnv` is total.
- The `initialize` docstring (firebase_manager.py:44-46) lists `ValueError` and
  `FirebaseError`. A credential rejected by `credentials.Certificate` raises
  `ValueError`, the same exception type as a missing key. The model tags the
  two by where they arise: `ConfigError` for a missing key, and
  `BackendError(CertificateStep, …)` for the rejected credential.
- `self._initialized = True` in `__init__` sets an instance attribute, not the
  class attribute. The class attribute stays `False`. Because `__new__` always
  returns the same object, the effect is still "reset once".
  `FirebaseManager.initialized` models that instance attribute.

## Model

| member | source | states |
|---|---|---|
| `Config.DefaultUrls` | config.py:19-22 | a FirebaseConfig built from the five required fields carries the three fixed OAuth/cert URLs and the fixed client cert URL |
| `Config.UnescapeLeavesNoPair` | config.py:31 | after the private key's `replace`, no backslash is followed by `n` |
| `Config.UnescapeWithoutPairs` | config.py:31 | a value without backslash-n pairs is unchanged by the replacement |
| `Config.EscapeAfterUnescape` | config.py:31 | escaping line breaks after the replacement gives the same text as escaping the input: each pair became exactly one line break and nothing else changed |
| `Config.UnescapeLength` | config.py:31 | the text shrinks by exactly the number of line breaks the replacement introduced |
| `Config.FromEnvPrivateKey` | config.py:28-35 | the private key from `from_env` holds no backslash-n pair, equals the variable up to that replacement, and equals the variable outright when it had no pairs |
| `Config.FromEnvUnsetFields` | config.py:28-35 | every unset variable yields `''`; the client cert URL is the variable or `''`, never the class default; the other three URLs keep their defaults |
| `Config.AsDict` | config.py:98 | a FirebaseConfig's `__dict__` has exactly its nine field names as keys |
| `Config.CompletenessIgnoresKeyAndEmail` | config.py:81-91 | credential validation depends on the project id only; the private key and client e-mail are not consulted |
| `Config.DefaultCollectionsRoles` | config.py:64-71 | the default collection mapping has exactly the five role keys, each mapped to its own name |
| `Config.FrameworkConfig.PostInit` | config.py:62-71 | an absent (None) collection mapping becomes the five-role default; any supplied value, even an empty mapping, is left exactly as given |
| `Config.FrameworkConfig.constructor` | config.py:40-71 | each field takes its keyword argument or its default; with no arguments, `max_retries` is 3, `timeout_seconds` is 30 and the collections are the five-role default |
| `Config.ArgsStep` | config.py:118 | `FrameworkConfig(**v)` succeeds only when `v` is an object whose keys are all field names, and is otherwise a caught TypeError |
| `Config.LoadPlan` | config.py:108-122 | a missing file means "not found"; an unreadable file means failure; an object without a `framework` key means "keep the settings"; a replacement happens only for an object whose `framework` section is itself an object, whose keys are all field names, and its arguments are exactly that section |
| `Config.ConfigManager.constructor` | config.py:76-79 | an empty or absent path selects `~/.aief_config.json`; the settings start at their defaults; the credentials come from `from_env` |
| `Config.ConfigManager.Validate` | config.py:81-91 | true exactly when the credentials are present and their project id is non-empty; changes nothing |
| `Config.ConfigManager.Load` | config.py:108-122 | never changes the credentials or the path; a missing file returns false with the settings unchanged; no `framework` key returns true with the settings unchanged; a failed read or construction returns false with the settings unchanged; otherwise the settings are rebuilt from the section |
| `Manager.FirstMissing` | firebase_manager.py:50-53 | the result is absent exactly when every required key is present; otherwise it is the first key in order that is missing, and every key before it is present |
| `Manager.CheckRequiredKeys` | firebase_manager.py:50-53 | the validation loop returns the first missing key in the order `project_id`, `private_key`, `client_email`, or nothing when all three are present |
| `Manager.FirstMissingPresenceOnly` | firebase_manager.py:51-53 | validation depends on which keys are present, never on their values |
| `Manager.EmptyProjectIdPasses` | firebase_manager.py:51-53 | a present but empty `project_id` passes the key check |
| `Manager.CredentialMapKeys` | firebase_manager.py:56-69 | the credential map has exactly the ten service-account keys and type `service_account` |
| `Manager.CredentialMapRequired` | firebase_manager.py:58-61 | `project_id`, `private_key` and `client_email` are copied verbatim |
| `Manager.CredentialMapOptional` | firebase_manager.py:59-68 | `private_key_id` and `client_id` default to `''`, and each of the four URLs is the input's value when present and the fixed constant otherwise |
| `Manager.CredentialMapIgnoresOtherKeys` | firebase_manager.py:56-69 | input keys the map does not read, an input `type` among them, make no difference to the credential |
| `Manager.CredentialOfFirebaseConfig` | firebase_manager.py:50-61 | the mapping of a FirebaseConfig passes the key check, and its required fields reach the credential unchanged |
| `Manager.CredentialOptionalsOfFirebaseConfig` | firebase_manager.py:59-68 | every optional field of a FirebaseConfig reaches the credential as the record's value, never as the fallback |
| `Manager.DatabaseUrl` | firebase_manager.py:79 | the URL is `https://`, then the project id, then `.firebaseio.com` |
| `Manager.DatabaseUrlRoundTrip` | firebase_manager.py:79 | the project id can be recovered from the database URL, so distinct projects get distinct URLs |
| `Manager.AppOptions` | firebase_manager.py:76-80 | the app options hold exactly `projectId`, set to the project id, and `databaseURL`, whose project is that id |
| `Manager.NewApp` | firebase_manager.py:71-81 | a created app carries the credential map and the options for the configured project |
| `Manager.InitOutcome` | firebase_manager.py:48-100 | a missing key wins over every library failure; success happens exactly when no key is missing and no foreign call raises (app creation counts only when no app exists); success is always `true` and every failure is propagated |
| `Manager.ConfigErrorNamesFirstMissing` | firebase_manager.py:50-53 | a configuration error names a required key that is absent, and every key checked before it is present |
| `Manager.ReuseIgnoresCredentials` | firebase_manager.py:74-83 | once an app exists, and given the same outcome of every foreign call (the certificate included), the result depends only on which keys are present, not on their values and not on app creation |
| `Manager.FirebaseManager.Allocate` | firebase_manager.py:21-23 | a newly allocated instance has not run `__init__` yet |
| `Manager.FirebaseManager.Init` | firebase_manager.py:26-32 | the first `__init__` resets `app`, `firestore_client` and `realtime_db` to none and `_listeners` to empty; later calls leave the instance unchanged |
| `Manager.FirebaseManager.BindApp` | firebase_manager.py:74-83 | with no app, it creates exactly one from the credential and options, or changes nothing if creation raises; with an app, it binds that app and leaves the registry as it was |
| `Manager.FirebaseManager.Initialize` | firebase_manager.py:34-100 | the result is InitOutcome; a missing key, a rejected credential or a failed app creation changes nothing; an existing app is never replaced, so at most one app exists; on success `app`, `firestore_client` and `realtime_db` are all bound to the registry's app; a later failure keeps the fields already set, so a failing `firestore.client()` leaves `firestore_client` as it was |
| `Manager.FirebaseManagerClass.constructor` | firebase_manager.py:18-19 | before the first construction there is no instance |
| `Manager.FirebaseManagerClass.Construct` | firebase_manager.py:21-32 | the first construction creates the shared instance and resets it; every later construction returns that same instance unchanged |
| `Manager.SharedConnection` | firebase_manager.py:21-83 | two constructions yield the same object; after two successful initializations, even with different credentials, exactly one app exists and it is the one the first call created; when the first call's app creation raises and the second succeeds, the one app is the second call's |

## Left out

- `ConfigManager.save` (config.py:93-106): JSON serialisation and file writing are not modelled.
- File and environment I/O: `os.getenv`, `os.path.exists`, `open`, `json.load` and `Path.home()` are inputs to the model.
  - The environment is a map.
  - The file system is a map from path to a parsed or unreadable file.
  - The home directory is a string, and the default path is formed by joining it with `/`.
- JSON floats are exact reals, and the floating-point fields of FrameworkConfig (`learning_rate`, `exploration_rate`, `retry_delay`, `performance_threshold`, `adaptation_threshold`) are not stored. Their names are still accepted as keyword arguments.
- `Config.FrameworkConfig.constructor`: it requires its keyword names to be field names. The TypeError that Python raises otherwise is modelled in `LoadPlan`, the only caller that can pass unknown names.
- `initialize` takes a `map<string, string>`. Non-string values, which Python would accept and format with `str()`, are not modelled.
- `firebase_admin` (`credentials.Certificate`, `initialize_app`, `get_app`, `firestore.client`, `db.reference`) is foreign code.
  - Each call's outcome is an input (`Backend`).
  - An app is the credential and options it was created with.
  - Only the default app exists, so `get_app` always finds it.
- `save_document` (firebase_manager.py:102-114) is not part of this model. Its body, retry loop and error classification are not in the source.
- The listener registry is modelled only as the empty `_listeners` map. No subscribe, unsubscribe or dispatch code exists.
- Logging, `print` diagnostics and the `threading` import are not modelled, and neither is thread safety of the singleton.
