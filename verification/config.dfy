/** The service configuration (`src/utils/config.py`) and the test
    configuration loader (`test/config_loader.py`). A parsed TOML document is
    an ordered map from top-level key to value, a section being a `Dict`.
    Reading the file is not modelled: the loaders receive the outcome of
    `tomli.load`. The string helpers of the two files are the same text and
    are modelled once. */
module Config {
  import opened Wrappers
  import opened Strings
  import opened OrderedMaps
  import opened Values
  import opened Errors

  /** A parsed TOML document. */
  type Toml = OMap<string, Value>

  const ServiceSection := "Service"
  const DependenciesSection := "Service_Dependencies"

  function KeyError(key: string): Raised {
    Other("KeyError", [Str(key)])
  }

  function NoGet(v: Value): Raised {
    Other("AttributeError", [Str("'" + TypeName(v) + "' object has no attribute 'get'")])
  }

  /** `_check_missing_section`. */
  function CheckMissingSection(config: Toml, section: string): (r: Result<(), Raised>)
    ensures r.Success? <==> section in Keys(config)
    ensures r.Failure? ==> r.error == ValueError("Missing section " + section)
  {
    if section in Keys(config) then Success(()) else Failure(ValueError("Missing section " + section))
  }

  /** `config[section].get(key)`: a missing section raises `KeyError`, a
      section that is not a table has no `get`. */
  function SectionGet(config: Toml, section: string, key: string): (r: Result<Value, Raised>)
    ensures section !in Keys(config) ==> r == Failure(KeyError(section))
    ensures section in Keys(config) && !Get(config, section).Dict? ==> r == Failure(NoGet(Get(config, section)))
    ensures section in Keys(config) && Get(config, section).Dict? ==> r == Success(Get(Get(config, section).entries, key))
  {
    if section !in Keys(config) then Failure(KeyError(section))
    else
      var sec := Get(config, section);
      if !sec.Dict? then Failure(NoGet(sec)) else Success(Get(sec.entries, key))
  }

  /** `_get_string_optional`: an absent (or `None`) value and a blank string
      give `None`; a value that is not a string raises; any other string is
      returned stripped. */
  function GetStringOptional(config: Toml, section: string, key: string): (r: Result<Option<string>, Raised>)
    ensures SectionGet(config, section, key).Failure? ==> r == Failure(SectionGet(config, section, key).error)
    ensures SectionGet(config, section, key).Success? ==>
      var v := SectionGet(config, section, key).value;
      && (v.Null? ==> r == Success(None))
      && (!v.Null? && !v.Str? ==> r == Failure(ValueError("Expected string value for key " + key + " in section " + section + ", got " + ToStr(v))))
      && (v.Str? ==> r.Success? && (r.value.None? <==> AllSpace(v.s)))
      && (v.Str? && r.value.Some? ==> r.value.value == Strip(v.s))
    ensures r.Success? && r.value.Some? ==> r.value.value != "" && NoEdgeSpace(r.value.value)
  {
    var v :- SectionGet(config, section, key);
    if v.Null? then Success(None)
    else if !v.Str? then
      Failure(ValueError("Expected string value for key " + key + " in section " + section + ", got " + ToStr(v)))
    else
      StripEmptyIffAllSpace(v.s);
      if Strip(v.s) == "" then Success(None) else Success(Some(Strip(v.s)))
  }

  function MissingValue(section: string, key: string): Raised {
    ValueError("Missing value for key " + key + " in section " + section)
  }

  /** `_get_string_required`: the optional value, which must be present. */
  function GetStringRequired(config: Toml, section: string, key: string): (r: Result<string, Raised>)
    ensures GetStringOptional(config, section, key).Failure? ==> r == Failure(GetStringOptional(config, section, key).error)
    ensures GetStringOptional(config, section, key) == Success(None) ==> r == Failure(MissingValue(section, key))
    ensures r.Success? <==> GetStringOptional(config, section, key).Success? && GetStringOptional(config, section, key).value.Some?
    ensures r.Success? ==> GetStringOptional(config, section, key) == Success(Some(r.value))
  {
    var putative :- GetStringOptional(config, section, key);
    match putative
    case None => Failure(MissingValue(section, key))
    case Some(s) => Success(s)
  }

  /** `_get_list_string`: an absent or blank value is the empty list;
      otherwise the pieces between commas, each stripped, empty ones kept. */
  function GetListString(config: Toml, section: string, key: string): (r: Result<seq<string>, Raised>)
    ensures GetStringOptional(config, section, key).Failure? ==> r == Failure(GetStringOptional(config, section, key).error)
    ensures GetStringOptional(config, section, key) == Success(None) ==> r == Success([])
    ensures GetStringOptional(config, section, key).Success? && GetStringOptional(config, section, key).value.Some? ==>
      var s := GetStringOptional(config, section, key).value.value;
      && r.Success? && |r.value| == Count(s, ',') + 1
      && forall i :: 0 <= i < |r.value| ==> r.value[i] == Strip(Split(s, ',')[i])
    ensures r.Success? ==> forall i :: 0 <= i < |r.value| ==> ',' !in r.value[i] && NoEdgeSpace(r.value[i])
  {
    var putative :- GetStringOptional(config, section, key);
    match putative
    case None => Success([])
    case Some(s) => Success(StripPieces(Split(s, ',')))
  }

  /** `[x.strip() for x in pieces]`. */
  function StripPieces(pieces: seq<string>): (r: seq<string>)
    ensures |r| == |pieces|
    ensures forall i :: 0 <= i < |r| ==> r[i] == Strip(pieces[i])
    ensures forall i :: 0 <= i < |r| ==> NoEdgeSpace(r[i])
    ensures (forall i :: 0 <= i < |pieces| ==> ',' !in pieces[i]) ==> forall i :: 0 <= i < |r| ==> ',' !in r[i]
  {
    var r := seq(|pieces|, i requires 0 <= i < |pieces| => Strip(pieces[i]));
    forall i | 0 <= i < |r| ensures ',' !in pieces[i] ==> ',' !in r[i] {
      StripAddsNothing(pieces[i], ',');
    }
    r
  }

  /** Stripping only removes characters. */
  lemma StripAddsNothing(s: string, c: char)
    ensures c !in s ==> c !in Strip(s)
  {
    var a, b := StripIsInfix(s);
    if c in Strip(s) {
      var k :| 0 <= k < |Strip(s)| && Strip(s)[k] == c;
      assert s[a + k] == c;
    }
  }

  /** A list written without blanks around its commas reads back as the
      pieces it was written from: joining them with commas gives the value. */
  lemma {:induction false} ListStringJoin(config: Toml, section: string, key: string)
    requires GetStringOptional(config, section, key).Success? && GetStringOptional(config, section, key).value.Some?
    requires var s := GetStringOptional(config, section, key).value.value;
      forall i :: 0 <= i < |Split(s, ',')| ==> Strip(Split(s, ',')[i]) == Split(s, ',')[i]
    ensures GetListString(config, section, key).Success?
    ensures Join(GetListString(config, section, key).value, ",") == GetStringOptional(config, section, key).value.value
  {
    var s := GetStringOptional(config, section, key).value.value;
    var r := GetListString(config, section, key).value;
    assert r == Split(s, ',');
    JoinSplit(s, ',');
  }

  // ---------------------------------------------------------------------
  // DataverseServiceConfig
  // ---------------------------------------------------------------------

  /** The two fields of a `DataverseServiceConfig`. They hold whatever the
      constructor was given when there is no file, so they are values. */
  datatype ServiceConfig = ServiceConfig(serviceRootPath: Value, kbaseWorkspaceUrl: Value)

  /** `DataverseServiceConfig(config_file, service_root_path, kbase_workspace_url)`.
      `file` is `None` for a falsy `config_file` and otherwise the outcome of
      `tomli.load(config_file)`, whose exception propagates. From a file both
      sections must exist, `root_path` is optional and `kbase_workspace_url`
      required; without one the arguments are kept as they are. */
  function NewServiceConfig(file: Option<Result<Toml, BackendExc>>, rootPath: Value, workspaceUrl: Value): (r: Result<ServiceConfig, Raised>)
    ensures file.None? ==> r == Success(ServiceConfig(rootPath, workspaceUrl))
    ensures file.Some? && file.value.Failure? ==> r == Failure(Propagated(file.value.error))
    ensures file.Some? && file.value.Success? ==>
      var config := file.value.value;
      && (ServiceSection !in Keys(config) ==> r == Failure(ValueError("Missing section " + ServiceSection)))
      && (ServiceSection in Keys(config) && DependenciesSection !in Keys(config)
          ==> r == Failure(ValueError("Missing section " + DependenciesSection)))
      && (r.Success? <==> (ServiceSection in Keys(config) && DependenciesSection in Keys(config)
                           && GetStringOptional(config, ServiceSection, "root_path").Success?
                           && GetStringRequired(config, DependenciesSection, "kbase_workspace_url").Success?))
      && (r.Success? ==> r.value.kbaseWorkspaceUrl == Str(GetStringRequired(config, DependenciesSection, "kbase_workspace_url").value))
      && (r.Success? ==> match GetStringOptional(config, ServiceSection, "root_path").value
                         case None => r.value.serviceRootPath == Null
                         case Some(p) => r.value.serviceRootPath == Str(p))
  {
    match file
    case None => Success(ServiceConfig(rootPath, workspaceUrl))
    case Some(Failure(e)) => Failure(Propagated(e))
    case Some(Success(config)) =>
      var _ :- CheckMissingSection(config, ServiceSection);
      var _ :- CheckMissingSection(config, DependenciesSection);
      var root :- GetStringOptional(config, ServiceSection, "root_path");
      var url :- GetStringRequired(config, DependenciesSection, "kbase_workspace_url");
      Success(ServiceConfig(if root.None? then Null else Str(root.value), Str(url)))
  }

  /** A configuration read from a file has a non-blank, stripped workspace
      URL and a root path that is `None` or a non-blank stripped string. */
  lemma FileConfigIsNormalised(config: Toml, rootPath: Value, workspaceUrl: Value)
    requires NewServiceConfig(Some(Success(config)), rootPath, workspaceUrl).Success?
    ensures var c := NewServiceConfig(Some(Success(config)), rootPath, workspaceUrl).value;
      && c.kbaseWorkspaceUrl.Str? && c.kbaseWorkspaceUrl.s != "" && NoEdgeSpace(c.kbaseWorkspaceUrl.s)
      && (c.serviceRootPath.Null? || (c.serviceRootPath.Str? && c.serviceRootPath.s != "" && NoEdgeSpace(c.serviceRootPath.s)))
  {
    var root := GetStringOptional(config, ServiceSection, "root_path").value;
    var url := GetStringRequired(config, DependenciesSection, "kbase_workspace_url").value;
    assert GetStringOptional(config, DependenciesSection, "kbase_workspace_url") == Success(Some(url));
  }

  /** The minimal file: both sections, no root path, and a workspace URL. */
  const MinimalToml: Toml := [("Service", Dict([])), ("Service_Dependencies", Dict([("kbase_workspace_url", Str("whee"))]))]

  lemma WheeIsStripped()
    ensures Strip("whee") == "whee"
  {
    assert !IsSpace('w') && !IsSpace('e');
    assert TrimStart("whee") == "whee";
    assert TrimEnd("whee") == "whee";
  }

  lemma MinimalSections()
    ensures ServiceSection in Keys(MinimalToml) && Get(MinimalToml, ServiceSection) == Dict([])
    ensures DependenciesSection in Keys(MinimalToml)
    ensures Get(MinimalToml, DependenciesSection) == Dict([("kbase_workspace_url", Str("whee"))])
  {
    assert Keys(MinimalToml) == [ServiceSection, DependenciesSection];
  }

  lemma MinimalRootPath()
    ensures GetStringOptional(MinimalToml, ServiceSection, "root_path") == Success(None)
  {
    MinimalSections();
    assert SectionGet(MinimalToml, ServiceSection, "root_path") == Success(Null);
  }

  lemma MinimalUrlEntry()
    ensures SectionGet(MinimalToml, DependenciesSection, "kbase_workspace_url") == Success(Str("whee"))
  {
    MinimalSections();
    var entries := [("kbase_workspace_url", Str("whee"))];
    assert Get(entries, "kbase_workspace_url") == Str("whee");
  }

  lemma MinimalOptionalUrl()
    ensures GetStringOptional(MinimalToml, DependenciesSection, "kbase_workspace_url") == Success(Some("whee"))
  {
    MinimalUrlEntry();
    assert !AllSpace("whee") by {
      assert !IsSpace("whee"[0]);
    }
    WheeIsStripped();
  }

  lemma MinimalWorkspaceUrl()
    ensures GetStringRequired(MinimalToml, DependenciesSection, "kbase_workspace_url") == Success("whee")
  {
    MinimalOptionalUrl();
  }

  /** The minimal file leaves the root path `None` and reads the URL. */
  lemma MinimalConfig(rootPath: Value, workspaceUrl: Value)
    ensures NewServiceConfig(Some(Success(MinimalToml)), rootPath, workspaceUrl) == Success(ServiceConfig(Null, Str("whee")))
  {
    MinimalSections();
    MinimalRootPath();
    MinimalWorkspaceUrl();
    var r := NewServiceConfig(Some(Success(MinimalToml)), rootPath, workspaceUrl);
    assert r.Success?;
    assert r.value.kbaseWorkspaceUrl == Str("whee");
    assert r.value.serviceRootPath == Null;
  }

  /** The configuration `create_app` builds without a file: no root path
      (so the application root is `""`) and the CI workspace. */
  function AppConfig(): (c: ServiceConfig)
    ensures NewServiceConfig(None, Str(""), Str("https://ci.kbase.us/services/ws")) == Success(c)
    ensures !Truthy(c.serviceRootPath)
  {
    ServiceConfig(Str(""), Str("https://ci.kbase.us/services/ws"))
  }

  /** `cfg.service_root_path or ""`. */
  function RootPath(c: ServiceConfig): (v: Value)
    ensures Truthy(c.serviceRootPath) ==> v == c.serviceRootPath
    ensures !Truthy(c.serviceRootPath) ==> v == Str("")
  {
    if Truthy(c.serviceRootPath) then c.serviceRootPath else Str("")
  }

  // ---------------------------------------------------------------------
  // The test configuration loader
  // ---------------------------------------------------------------------

  /** The loader's `Config`: the whole document, the workspace URL and the
      token. */
  datatype TestConfig = TestConfig(config: Toml, kbaseWorkspaceUrl: string, kbaseAuthToken: string)

  /** `Config(config_file)`: a file is required; only `Service_Dependencies`
      must exist, and both the URL and the token must be non-blank. */
  function NewTestConfig(file: Option<Result<Toml, BackendExc>>): (r: Result<TestConfig, Raised>)
    ensures file.None? ==> r == Failure(ValueError("config_file is required"))
    ensures file.Some? && file.value.Failure? ==> r == Failure(Propagated(file.value.error))
    ensures file.Some? && file.value.Success? ==>
      var config := file.value.value;
      && (DependenciesSection !in Keys(config) ==> r == Failure(ValueError("Missing section " + DependenciesSection)))
      && (r.Success? <==> (DependenciesSection in Keys(config)
                           && GetStringRequired(config, DependenciesSection, "kbase_workspace_url").Success?
                           && GetStringRequired(config, DependenciesSection, "kbase_auth_token").Success?))
      && (r.Success? ==> (r.value.config == config
                          && r.value.kbaseWorkspaceUrl == GetStringRequired(config, DependenciesSection, "kbase_workspace_url").value
                          && r.value.kbaseAuthToken == GetStringRequired(config, DependenciesSection, "kbase_auth_token").value))
  {
    match file
    case None => Failure(ValueError("config_file is required"))
    case Some(Failure(e)) => Failure(Propagated(e))
    case Some(Success(config)) =>
      var _ :- CheckMissingSection(config, DependenciesSection);
      var url :- GetStringRequired(config, DependenciesSection, "kbase_workspace_url");
      var token :- GetStringRequired(config, DependenciesSection, "kbase_auth_token");
      Success(TestConfig(config, url, token))
  }

  /** The loader reads nothing but `Service_Dependencies`: two documents
      with the same such section give the same URL and token, whatever else
      they hold (a `Service` section included). */
  lemma TestConfigReadsOnlyDependencies(c1: Toml, c2: Toml)
    requires DependenciesSection in Keys(c1) <==> DependenciesSection in Keys(c2)
    requires Get(c1, DependenciesSection) == Get(c2, DependenciesSection)
    ensures NewTestConfig(Some(Success(c1))).Success? <==> NewTestConfig(Some(Success(c2))).Success?
    ensures NewTestConfig(Some(Success(c1))).Success? ==>
      && NewTestConfig(Some(Success(c1))).value.kbaseWorkspaceUrl == NewTestConfig(Some(Success(c2))).value.kbaseWorkspaceUrl
      && NewTestConfig(Some(Success(c1))).value.kbaseAuthToken == NewTestConfig(Some(Success(c2))).value.kbaseAuthToken
  {
    SameSectionSameString(c1, c2, DependenciesSection, "kbase_workspace_url");
    SameSectionSameString(c1, c2, DependenciesSection, "kbase_auth_token");
  }

  lemma SameSectionSameString(c1: Toml, c2: Toml, section: string, key: string)
    requires section in Keys(c1) <==> section in Keys(c2)
    requires Get(c1, section) == Get(c2, section)
    ensures GetStringRequired(c1, section, key) == GetStringRequired(c2, section, key)
  {
    assert SectionGet(c1, section, key) == SectionGet(c2, section, key);
  }
}
