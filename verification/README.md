# Dataverse provider gateway — a Dafny model

Dataverse is a small web service. It puts one HTTP interface in front of
several scientific data providers: the KBase workspace, the ARM live-data
archive and (as a stub) ESGF. This project models the service's
deterministic core as immutable datatypes and pure functions, and proves
properties about them. That core covers:

- the error taxonomy;
- the mapping from exceptions to JSON error envelopes;
- the handler registry;
- the KBase and ARM adapters;
- the `/data/{provider}` route's validation;
- the configuration helpers.

Every backend call becomes a function-typed parameter returning a `Result`:

- the KBase workspace RPC client;
- the ARM HTTP query and file download;
- `tomli.load`.

A property such as "no request is sent" is stated as independence of the
result from that parameter.

Python values are `Values.Value` (`None`, `bool`, `int`, `str`, `list`,
`dict`). A dict is an insertion-ordered association list
(`OrderedMaps.OMap`). A raised exception is `Errors.Raised`, which is one of:

- a `DataverseError`;
- a request-validation failure;
- an HTTP exception;
- any other class with its arguments.

Modules, in dependency order:

| module | file | models |
|---|---|---|
| `Wrappers` | wrappers.dfy | `Option` and `Result` |
| `Strings` | strings.dfy | `str.strip`, `str.split`, `str.join`, and decimal rendering and parsing |
| `OrderedMaps` | ordered_maps.dfy | insertion-ordered dicts |
| `Values` | values.dfy | Python values, truthiness, `dict.get`, `repr` and `str` |
| `Errors` | errors.dfy | `src/service/errors.py` |
| `App` | app.dfy | the exception handlers and `_format_error` of `src/service/app.py` |
| `Registry` | registry.dfy | `src/service/dataverse.py` |
| `Rows` | rows.dfy | the rows adapters return, and the order-preserving filter-map of a list comprehension |
| `Calendar` | calendar.dfy | the proleptic Gregorian calendar of `datetime`, and adding 23:59:59 |
| `Dates`, `DateFormatList` | dates.dfy | `strptime`/`strftime` for `%Y %m %d %H %M %S %%`, `date_parser` and its ten formats |
| `Arm` | arm.dfy | `src/utils/data_handlers/arm_handler2.py` |
| `KBase` | kbase.dfy | `src/utils/data_handlers/kbase_handler2.py` |
| `Gateway` | gateway.dfy | the registry `create_app` builds, and `resolve_path` over it |
| `Routes` | routes.dfy | `retrieve_data` in `src/service/routes_data.py`, and the legacy `KBaseHandler` |
| `Config` | config.dfy | `src/utils/config.py` and `test/config_loader.py` |

Where the code and the written description of the service differ, the
model follows the code in these points:

- `resolve_path` raises a plain `Exception` for an unregistered provider, which becomes a 500. It does not raise an `IllegalParameterError`.
- Neither adapter checks for a token:
  - `ARMHandler2` fails only when `':'.join` meets a non-string;
  - `KBaseHandler2` never raises `MissingTokenError`.
- Through the registry, `KBaseHandler2` always connects to its default workspace URL. `resolve_path` passes only `token` and `user` to the constructor.
- `retrieve_data` uses the older `KBaseHandler`. Its connection error does not carry the backend's text.
- ESGF is accepted by the route but is not registered with the registry.

Two defects of the code are recorded under "## Findings". For each, the model
has an as-written member and a corrected member. The handlers are built on the
corrected member, and "## Left out" names each handler member this affects.

## Model

| member | source | states |
|---|---|---|
| Errors.CodesIdentifyKinds | src/service/errors.py:18-50 | There are exactly ten error kinds. Their codes are pairwise distinct, so a code identifies its kind. |
| Errors.KindOfCode | src/service/errors.py:18-50 | Looking up a code gives the kind carrying it, or nothing when no kind carries it. |
| Errors.NewError | src/service/errors.py:60-72 | A null kind raises `TypeError('error_type cannot be None')`. Otherwise the error keeps the kind and the caller's unstripped message. Its exception argument is the normalised message. |
| Errors.ExceptionArg | src/service/errors.py:69-70 | The exception argument is absent exactly when the message is missing, empty or all whitespace. Otherwise it is the stripped message: non-empty and without edge whitespace. |
| Errors.NewFixedError | src/service/errors.py:84-153 | A concrete subclass always gives a well-formed error of its own fixed kind, keeping the message as given. |
| Errors.CategoryOf | src/service/errors.py:75-153 | An error class is in the authentication category iff it subclasses `AuthenticationError`, and in the not-found category iff it subclasses `NoDataException`. |
| Errors.HierarchyShape | src/service/errors.py:53-153 | Every class is a `DataverseError`. No class is in both categories. `UnauthorizedError` is in neither. |
| Errors.KindsOfConcreteClasses | src/service/errors.py:53-153 | No concrete subclass fixes UNSUPPORTED_OP, AUTHENTICATION_FAILED or REQUEST_VALIDATION_FAILED. No two subclasses fix the same kind. |
| Errors.Wrapped | src/utils/data_handlers/kbase_handler2.py:33-34 | A re-raised backend failure is a `ValueError` whose single argument is the fixed prefix followed by the backend's message. |
| App.FormatError | src/service/app.py:129-147 | A status without a standard reason phrase raises `KeyError`. Otherwise the response is the `error` envelope with that status, with `httpcode`, `httpstatus` and `time`, and `appcode`/`apperror` iff a kind is given. `message` and `request_validation_detail` appear iff they are truthy. |
| App.AssembleOrdered | src/service/app.py:135-146 | The envelope's keys are distinct and in the order the code inserts them. |
| App.AssembleKeys | src/service/app.py:135-146 | The envelope holds the three header fields, and then each optional group exactly when it is present. |
| App.StatusFor | src/service/app.py:96-104 | The status is 401 iff the class is an `AuthenticationError` and 403 iff it is an `UnauthorizedError`. It is 404 iff the class is a `NoDataException`, and 400 for every other `DataverseError`. |
| App.HandleAppException | src/service/app.py:96-105 | An application error gives an envelope with its category's status, its kind's `appcode`/`apperror`, and its raw `message`. |
| App.HandleValidationException | src/service/app.py:108-113 | A validation failure gives 400 with REQUEST_VALIDATION_FAILED, no message, and the details when they are non-empty. |
| App.HandleHttpException | src/service/app.py:116-118 | An HTTP exception keeps its own status and has its detail as the message. It raises when the status has no reason phrase. |
| App.GeneralMessage | src/service/app.py:123-126 | An uncaught exception's message is taken iff it has exactly one argument and that argument is a `str`. |
| App.HandleGeneralException | src/service/app.py:121-126 | An uncaught exception gives 500. The envelope has a message iff the single argument is a non-empty string. |
| App.HandleException | src/service/app.py:61-65 | The dispatch over the four registered handlers: an application error gets its category's status, a validation failure 400, an HTTP exception its own status, and anything else 500. |
| App.WhitespaceMessageStillShown | src/service/app.py:105 | An error built with an all-whitespace message has no exception argument. Its envelope still shows the unstripped message. |
| Registry.AuthOf | src/service/dataverse.py:20-23 | The auth bundle is the `token` and `user` keyword arguments, each `None` when missing. |
| Registry.NewDataverse | src/service/dataverse.py:6-7 | A new registry has no handlers. |
| Registry.RegisterHandler | src/service/dataverse.py:9-10 | After registering, the id maps to the new handler and every other id is unchanged. A new id is appended to the listing, and a re-registered id keeps its place. |
| Registry.Handler | src/service/dataverse.py:12-14 | `handler` changes nothing. |
| Registry.ListHandlers | src/service/dataverse.py:16-17 | The listing has one entry per registered id. An id is listed iff it is registered. |
| Registry.RegisterKeepsIdsDistinct | src/service/dataverse.py:9-17 | Registration never lists an id twice. |
| Registry.LastRegistrationWins | src/service/dataverse.py:9-10 | Registering the same id twice equals registering only the second handler. |
| Registry.ResolvePath | src/service/dataverse.py:19-28 | An unregistered id raises the plain `Exception`. A registered id builds its handler from the auth bundle and forwards every keyword argument to `fetch_data`, returning its result. |
| Registry.ResolveUnknownBuildsNothing | src/service/dataverse.py:24-28 | For an unregistered id, the outcome does not depend on the constructor or on `fetch_data`: nothing is built. |
| Registry.ResolveBuildsFromAuth | src/service/dataverse.py:20-25 | The constructor sees only the `{token, user}` bundle: constructors that agree on it give the same outcome. |
| Registry.ResolveAfterRegister | src/service/dataverse.py:9-10 | Resolving a just-registered id uses the handler just registered. |
| Gateway.DefaultRegistry | src/service/app.py:51-53 | The application's registry lists `ARM` and then `KBase`, maps them to `ARMHandler2` and `KBaseHandler2`, and knows no other id. |
| Gateway.ResolveArm | src/service/app.py:52 | Resolving `ARM` runs `ARMHandler2.fetch_data` on a handler built from `token` and `user`, with all keyword arguments. |
| Gateway.ResolveKBaseUsesDefaultUrl | src/utils/data_handlers/kbase_handler2.py:73-84 | Through the registry, `KBaseHandler2` connects to its default workspace URL whatever `ws_url` the request carries. A failed connection is re-raised with the connection prefix. |
| Gateway.ResolveUnknown | src/service/dataverse.py:27-28 | Any other id, `ESGF` included, raises `Exception("Error! dict_keys(['ARM', 'KBase'])")`. |
| Rows.FilterMapMembers | src/utils/data_handlers/kbase_handler2.py:94-95 | A filtering comprehension yields exactly the images of the kept elements. |
| Rows.FilterMapAppend | src/utils/data_handlers/kbase_handler2.py:94-95 | A filtering comprehension over a concatenation is the concatenation of the two results, so input order is kept. |
| KBase.ProcessWorkspaceIdentifiers | src/utils/data_handlers/kbase_handler2.py:7-24 | Without a workspace, the spec is exactly `{ref: id_or_ref}`. With one, it is `wsid` (int) or `workspace` (otherwise), followed by `objid` (int) or `name` (otherwise). |
| KBase.IdentifiersExactlyOne | src/utils/data_handlers/kbase_handler2.py:15-23 | With a workspace, exactly one of `wsid`/`workspace` and exactly one of `objid`/`name` is present, and `ref` is absent. |
| KBase.NewHandler | src/utils/data_handlers/kbase_handler2.py:73-84 | The handler takes `token`, and `ws_url` and `ws_handle_url` with their defaults. It connects to that URL with that token. A failed connection raises `ValueError` with the connection prefix and the backend message. |
| KBase.WorkspaceRows | src/utils/data_handlers/kbase_handler2.py:93-95 | The workspace listing holds exactly the folder rows of the workspaces whose metadata has `narrative_nice_name`. |
| KBase.FolderRowDescribed | src/utils/data_handlers/kbase_handler2.py:94 | A folder row's id is the workspace name and its description is the narrative's nice name. |
| KBase.ObjectRows | src/utils/data_handlers/kbase_handler2.py:97-99 | The object listing holds exactly the file rows of the objects whose type does not start with `KBaseNarrative.Narrative`. Each has `id == d`. |
| KBase.ListingsPreserveOrder | src/utils/data_handlers/kbase_handler2.py:93-99 | Both listings map a concatenation to the concatenation of the listings, so input order is kept. |
| KBase.FetchObject | src/utils/data_handlers/kbase_handler2.py:29-39 | The object is fetched by its normalised identifiers. A failure is re-raised with the fetch prefix. Otherwise the result is its `info` and `data` entries, `None` when missing. |
| KBase.FetchData | src/utils/data_handlers/kbase_handler2.py:86-105 | The tier follows from `path`, `object_id` and `version`: list workspaces, list objects, fetch one (a single data row), or raise "Not implemented". |
| KBase.FetchDataCallsOnlyItsTier | src/utils/data_handlers/kbase_handler2.py:92-105 | Each tier depends only on its own workspace call. |
| KBase.Extend | src/utils/data_handlers/kbase_handler2.py:52 | `list.extend` appends the items of a list. It raises `AttributeError` on a non-list, and fails exactly when the argument is not iterable. |
| KBase.MergeFirst | src/utils/data_handlers/kbase_handler2.py:51-54 | Merging into the first record extends an existing `input_ws_objects` or appends it with the refs. Every other key keeps its value and place. |
| KBase.MergeProvenanceAsWritten | src/utils/data_handlers/kbase_handler2.py:44-56 | With no provenance and truthy extra refs, the merge as written raises `TypeError` from `len(None)`. |
| KBase.MergeProvenance | src/utils/data_handlers/kbase_handler2.py:44-56 | Without truthy extra refs, the provenance is saved as given. With them, the first record gets the refs, or `[{input_ws_objects: refs}]` is saved when there is no record. |
| KBase.MergeProvenanceAgrees | src/utils/data_handlers/kbase_handler2.py:44-56 | Wherever the code as written does not hit `len(None)`, it agrees with the corrected merge. |
| KBase.WhitelistedFrom | src/utils/data_handlers/kbase_handler2.py:58-59 | The whitelisted part holds exactly the listed keys that are present, in list order, with their values. |
| KBase.SavedObject | src/utils/data_handlers/kbase_handler2.py:58-64 | The saved object holds the present whitelisted keys, then `data` (passed through `_sort_dict`) when present, then `provenance`. It holds nothing else and no key twice. |
| KBase.SaveObject | src/utils/data_handlers/kbase_handler2.py:41-71 | The merge's error propagates. Otherwise the saved object goes to the given workspace id. A failed save is re-raised with the save prefix. |
| KBase.ObjectRefRoundTrip | src/utils/data_handlers/kbase_handler2.py:111 | The reference `ws/obj/ver` reads back as the workspace id, object id and version of the saved object's info. |
| KBase.SaveData | src/utils/data_handlers/kbase_handler2.py:107-113 | `save_data` returns the `ws/obj/ver` reference with the info, in that order, or the save's error. The reference is built from the saved info's three numbers, each written as `str(int)` does, and reads back as those numbers. |
| Strings.IntToString | src/utils/data_handlers/kbase_handler2.py:111 | `str(int)`: decimal digits with no leading zero (except `0` itself), and a `-` before a non-zero magnitude for negatives. |
| Calendar.AddEndOfDay | src/utils/data_handlers/arm_handler2.py:89-90 | Adding 23:59:59 gives a valid `datetime` exactly 86399 seconds later, keeping microseconds. It overflows exactly when the result would fall after 9999-12-31. |
| Calendar.EndOfDayFromMidnight | src/utils/data_handlers/arm_handler2.py:89-90 | From midnight, adding 23:59:59 stays on the same day at 23:59:59. |
| Dates.FormatTextCompile | src/utils/data_handlers/arm_handler2.py:33-44 | A format text that compiles is the text of its compiled directives. |
| Dates.CompileFormatText | src/utils/data_handlers/arm_handler2.py:33-44 | Rendering directives as format text and compiling it gives the directives back. |
| Dates.Strptime | src/utils/data_handlers/arm_handler2.py:47 | `strptime` succeeds iff the pattern matches the whole input and the fields form a valid `datetime`. The result has no microseconds. |
| Dates.ScanKeepsDefaults | src/utils/data_handlers/arm_handler2.py:47 | A field the format does not mention keeps `strptime`'s default. |
| Dates.ScanRender | src/utils/data_handlers/arm_handler2.py:47-51 | `strptime` reads back what `strftime` writes with the same format, whatever follows. |
| Dates.StrptimeRender | src/utils/data_handlers/arm_handler2.py:47-51 | `strptime(t.strftime(f), f)` is the part of `t` that `f` mentions. |
| Dates.FirstMatch | src/utils/data_handlers/arm_handler2.py:45-53 | The formats are tried in order and the first one that parses wins. No match means every format fails. |
| Dates.ParseDateWith | src/utils/data_handlers/arm_handler2.py:45-55 | A date parses iff it is a string and some format matches. A non-string raises `TypeError`. When nothing matches, the `ValueError` lists every format. |
| Dates.DateParser | src/utils/data_handlers/arm_handler2.py:10-51 | The default output is eight digits `YYYYMMDD` that read back as the parsed date at midnight. |
| DateFormatList.OnlyNinthDiffers | src/utils/data_handlers/arm_handler2.py:33-44 | Of the ten formats, only the ninth differs from the intended list. |
| DateFormatList.DateFormatsCompile | src/utils/data_handlers/arm_handler2.py:33-44 | Every format compiles to the listed directives. The ninth as written compiles to a literal `%` followed by a literal `H`. |
| DateFormatList.DateOnlyInputsAreMidnight | src/utils/data_handlers/arm_handler2.py:34-38 | A date matched by one of the five date-only formats is at midnight. |
| DateFormatList.CompactTimestampRejectedAsWritten | src/utils/data_handlers/arm_handler2.py:42 | As written, `20170114T10:05:06` matches no format and `date_parser` raises. |
| DateFormatList.CompactTimestampParsed | src/utils/data_handlers/arm_handler2.py:42 | With `%H` in the ninth format, the same input parses to 2017-01-14 10:05:06. |
| Arm.NewHandler | src/utils/data_handlers/arm_handler2.py:129-132 | The handler keeps the `token` and `user` keyword arguments, `None` when missing, and checks nothing. |
| Arm.Credentials | src/utils/data_handlers/arm_handler2.py:72 | The credentials are `user:token`. A non-string user or token raises `TypeError`, and the user is checked first. |
| Arm.CredentialsText | src/utils/data_handlers/arm_handler2.py:72 | `user:token` splits back into the user and token when neither contains `:`. |
| Arm.IsoMillis | src/utils/data_handlers/arm_handler2.py:84 | The timestamp is `YYYY-MM-DDTHH:MM:SS` and then the milliseconds (microseconds truncated) and `Z`: 24 characters. |
| Arm.IsoMillisReadsBack | src/utils/data_handlers/arm_handler2.py:84 | The seconds part of the timestamp reads back as the instant without its microseconds. |
| Arm.EndInstant | src/utils/data_handlers/arm_handler2.py:89-90 | A different end is kept. An end equal to the start moves 23:59:59 later, or raises `OverflowError` past year 9999. |
| Arm.TimeWindow | src/utils/data_handlers/arm_handler2.py:79-92 | With no start, there is neither `&start=` nor `&end=`, and the end is never parsed. Otherwise the start is parsed and rendered, and the end likewise when given. A parse error propagates. |
| Arm.SameDayWindow | src/utils/data_handlers/arm_handler2.py:86-92 | The same date at midnight as start and end gives a window from midnight to 23:59:59 of that day. |
| Arm.QueryUrl | src/utils/data_handlers/arm_handler2.py:94-96 | The query URL is the live-data address with `query?user=<user>:<token>&ds=<ds><start><end>&wt=json`. It fails iff the credentials cannot be joined. |
| Arm.ListingFromResponse | src/utils/data_handlers/arm_handler2.py:99-107 | A status other than 200 raises, naming the status. A 200 without `files` raises. Otherwise there is one file row per name, in order. |
| Arm.ListingNamesFiles | src/utils/data_handlers/arm_handler2.py:102-103 | The rows' ids are exactly the returned file names, in order. |
| Arm.FetchDatastream | src/utils/data_handlers/arm_handler2.py:76-107 | A window or credential error comes first. Otherwise the one query is sent and its response interpreted. |
| Arm.NoRequestBeforeChecks | src/utils/data_handlers/arm_handler2.py:79-98 | When the window or the credentials fail, no request is sent: the outcome does not depend on the HTTP client. |
| Arm.FetchFile | src/utils/data_handlers/arm_handler2.py:69-74 | The file path downloads from `saveData?user=<user>:<token>&file=<name>` and returns a single data row. |
| Arm.FetchData | src/utils/data_handlers/arm_handler2.py:135-143 | Without `object_id`, the datastream is queried. Otherwise the file is downloaded. |
| Arm.FetchDataUsesOneCall | src/utils/data_handlers/arm_handler2.py:140-143 | Each path depends on only one of the two HTTP calls. |
| Routes.UnexpectedProviderListsProviders | src/service/routes_data.py:20-70 | The error message ends with the provider list as Python prints it. |
| Routes.FetchFromKBase | src/utils/data_handlers/kbase_handler.py:7-29 | A failed connection raises `ValueError` without the backend's text. A failed fetch propagates. Otherwise the object's `info` and `data` become the metadata and data. |
| Routes.RetrieveData | src/service/routes_data.py:62-80 | An unknown provider raises `IllegalParameterError` listing the providers. KBase without a token raises `MissingTokenError`. KBase with a token fetches the object. ESGF and ARM return empty metadata and data. |
| Routes.ProviderCheckedBeforeToken | src/service/routes_data.py:69-75 | An unknown provider is refused whatever the token, reference and workspace. |
| Routes.MissingTokenContactsNothing | src/service/routes_data.py:74-77 | A KBase request without a token is refused before any workspace client is built. |
| Routes.OtherProvidersBuildNothing | src/service/routes_data.py:67-80 | ESGF and ARM return `[]` and `{}` whatever the token, reference and workspace. |
| Routes.UnknownProviderStatus | src/service/routes_data.py:69-70 | An unknown provider is answered with 400 and ILLEGAL_PARAMETER. |
| Routes.MissingTokenStatus | src/service/routes_data.py:74-75 | A KBase request without a token is answered with 401 and NO_TOKEN. |
| Config.CheckMissingSection | src/utils/config.py:55-57 | A missing section raises `ValueError("Missing section <name>")`. A present one passes. |
| Config.GetStringOptional | src/utils/config.py:69-78 | A missing key gives `None`. A non-string raises `ValueError`. A blank string gives `None`. Any other string comes back stripped, non-empty and without edge whitespace. |
| Config.GetStringRequired | src/utils/config.py:61-65 | The required variant raises iff the optional one gives `None`, and otherwise returns the same value. |
| Config.GetListString | src/utils/config.py:82-86 | An absent or blank value gives `[]`. Otherwise there is one element per comma plus one: each is the stripped piece, with empty ones kept. |
| Config.ListStringJoin | src/utils/config.py:82-86 | When the pieces are already stripped, joining the list with `,` gives back the configured string. |
| Config.NewServiceConfig | src/utils/config.py:26-41 | Without a file, the arguments are stored as given. With one, both sections must exist, `root_path` is optional and `kbase_workspace_url` is required. |
| Config.FileConfigIsNormalised | src/utils/config.py:32-38 | From a file, the workspace URL is non-blank and stripped. The root path is `None` or non-blank and stripped. |
| Config.MinimalConfig | test/src/utils/config_test.py:6-15 | The minimal file gives no root path and the workspace URL `whee`. |
| Config.AppConfig | src/service/app.py:49 | The application's configuration has an empty root path and the CI workspace URL. |
| Config.RootPath | src/service/app.py:60 | The mounted root path is the configured one, or `""` when it is falsy. |
| Config.NewTestConfig | test/config_loader.py:9-21 | A falsy file raises `ValueError("config_file is required")`. Only `Service_Dependencies` must exist, and the URL and the token are both required and stripped. |
| Config.TestConfigReadsOnlyDependencies | test/config_loader.py:19-21 | The loader reads only `Service_Dependencies`: documents agreeing on that section give the same URL and token. |
| Strings.StripIdempotent | src/utils/config.py:76-78 | Stripping a stripped string changes nothing. |
| Strings.StripEmptyIffAllSpace | src/service/errors.py:69 | A string strips to empty iff it is all whitespace. |
| Strings.SplitJoin | src/utils/config.py:86 | Splitting a join of one or more pieces that do not contain the separator gives back the pieces. |
| Strings.JoinSplit | src/utils/config.py:86 | Joining the pieces of a split with its separator gives back the string. |
| Strings.IntToStringRoundTrip | src/utils/data_handlers/kbase_handler2.py:111 | The decimal rendering of an integer parses back to it. |
| OrderedMaps.LookupPut | src/service/dataverse.py:10 | After a dict assignment, the key maps to the new value and every other key is unchanged. |

## Left out

- I/O and the web framework are not modelled:
  - `tomli.load`, `requests.get` and `urlopen` are parameters returning a `Result`;
  - the FastAPI application object, CORS, and the startup and shutdown hooks are out;
  - `src/service/app_state.py` is out, so the workspace URL of `retrieve_data` is a parameter;
  - `print_config` and the `print` calls are out.
- The `root` endpoint is not modelled. The envelope's `time` is a parameter, because `timestamp()` reads the clock.
- `async` is modelled as ordinary sequential evaluation.
- The workspace RPC client is an abstract record of functions. Its result shapes are typed records.
- `_sort_dict` is not defined in the source, so `save_data` as written raises `NameError` (src/utils/data_handlers/kbase_handler2.py:62) for every object that has `data`. The model makes it an uninterpreted parameter `sortDict: Value -> Value` and so assumes the call returns a value. Nothing else is assumed about that value.
- `_fetch_obj_from_arm`, `_process_cdf_file` and `src/utils/data_handlers/arm_handler.py` are out. They read netCDF through libraries the code does not import.
- `src/utils/data_handlers/esgf_handler.py` is out. It is a stub, and ESGF is not registered.
- `src/common/common_params.py` holds only parameter declarations and is out.
- The integration tests are out. They call members the handlers do not have.
- `strptime` covers only the directives the ten formats use, with ASCII digits:
  - no locale, no `%f`, `%z` or other directives;
  - no Unicode digits;
  - no whitespace rules.
- Arm.IsoMillis: years below 1000 are rendered zero-padded to four digits. What `strftime('%Y')` prints for such years depends on the CPython version and the C library (CPython 3.12 on glibc prints `999`), so the model makes no claim for those years to match.
- `repr` of strings does not model escaping of quotes or control characters. The messages built from it use plain identifiers.
- Arm.ListingFromResponse: only JSON object bodies are modelled (`HttpResponse.body` is an `OMap`). A 200 response whose JSON is a list or a string, where `'files' in` is a membership or substring test, cannot be represented.
- `Values.Value` has no float and no date or time value. A TOML float or date therefore cannot reach the `type(putative) != str` check of `_get_string_optional` (src/utils/config.py:73-75); only the value kinds `Value` has are covered there.
- Provenance is a list of records or `None`. Other provenance shapes are out.
- KBase.MergeProvenance: the caller's list is never changed because values are immutable. The model does not prove that a `deepcopy` was made.
- Arm.TimeWindow: parses both ends with the corrected format list (`Dates.ParseDate`, ninth format `%Y%m%dT%H:%M:%S`), not the list of src/utils/data_handlers/arm_handler2.py:42. So `"20170114T10:05:06"` gives a window where the code raises `ValueError`, and `"20170114T%H:05:06"` is rejected where the code accepts it. `DateFormatList.OnlyNinthDiffers` states that this is the only difference between the two lists.
- Arm.FetchDatastream: built on `Arm.TimeWindow`, so it carries the same substitution of the corrected format list.
- Arm.FetchData: its datastream branch is `Arm.FetchDatastream`, so it carries the same substitution.
- Dates.DateParser: uses the corrected format list, with the same two differing inputs as `Arm.TimeWindow`. The code as written is `Dates.ParseDateAsWritten`.
- Dates.DateParser: its output is always eight digits. `%Y` also accepts years below 1000 (e.g. `"0999-01-01"`), and for those the model renders `"09990101"`. What `strftime('%Y%m%d')` prints then depends on the CPython version and the C library (CPython 3.12 on glibc prints `9990101`), so the model makes no claim for those years to match.
- App.FormatError: `httpstatus` follows the `http.client.responses` table of CPython 3.13, whose phrases follow section 15 of RFC 9110. CPython 3.12 and earlier name 413, 414, 416 and 422 differently ("Request Entity Too Large", "Request-URI Too Long", "Requested Range Not Satisfiable", "Unprocessable Entity"). The model does not cover those versions.
- KBase.SaveObject: merges provenance with the corrected `KBase.MergeProvenance`. With `provenance` `None` and truthy `extra_provenance_input_refs`, it saves `[{input_ws_objects: refs}]` where src/utils/data_handlers/kbase_handler2.py:50 raises `TypeError`. `KBase.MergeProvenanceAgrees` states that this is the only case where the two merges differ.
- KBase.SaveData: built on `KBase.SaveObject`, so it carries the same substitution.
- Arm.FetchFile: the downloaded bytes are a `Value` given by the download parameter. The model does not read the file.

## Findings

| source | as written | input that shows it | evidently intended | confidence | as-written member | corrected member |
|---|---|---|---|---|---|---|
| src/utils/data_handlers/arm_handler2.py:42 | The ninth date format is `%Y%m%dT%%H:%M:%S`. `%%` is a literal `%`, so the format needs the text `%H` where the hour should be. | `"20170114T10:05:06"`: no format matches, and `date_parser` raises `ValueError`. | `%Y%m%dT%H:%M:%S`, which parses the input to 2017-01-14 10:05:06 | not executed | DateFormatList.CompactTimestampRejectedAsWritten | DateFormatList.CompactTimestampParsed |
| src/utils/data_handlers/kbase_handler2.py:49-50 | With truthy `extra_provenance_input_refs`, `len(provenance)` runs even when `provenance` is `None` (the default). | `save_data(wsid, {"extra_provenance_input_refs": ["1/2/3"]})` raises `TypeError`: object of type 'NoneType' has no len(). | Treat missing provenance like an empty list and save `[{input_ws_objects: refs}]` | not executed | KBase.MergeProvenanceAsWritten | KBase.MergeProvenance |

The handler members are built on the corrected members. "## Left out" lists each one this affects.
