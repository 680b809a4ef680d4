/** The gateway `create_app` assembles: a `Dataverse` registry with
    `ARMHandler2` registered under `ARM` and then `KBaseHandler2` under
    `KBase`, and `resolve_path` over it. The ESGF handler is not registered.
    The workspace client and the two ARM HTTP calls are the oracles. */
module Gateway {
  import opened Wrappers
  import opened Strings
  import opened OrderedMaps
  import opened Values
  import opened Errors
  import opened Rows
  import opened Registry
  import Arm
  import KBase

  /** The handler classes `create_app` registers. */
  datatype HandlerClass = ArmClass | KBaseClass

  /** A constructed handler. */
  datatype Handle = ArmHandle(arm: Arm.Handler) | KBaseHandle(kbase: KBase.Handler)

  /** Everything outside the process the handlers talk to. */
  datatype Backends = Backends(
    workspace: KBase.Workspace,
    armGet: string -> Result<Arm.HttpResponse, BackendExc>,
    armDownload: string -> Result<Value, BackendExc>)

  /** The registry of `create_app`. */
  function DefaultRegistry(): (d: Dataverse<HandlerClass>)
    ensures ListHandlers(d) == ["ARM", "KBase"]
    ensures Lookup(d.handlers, "ARM") == Some(ArmClass)
    ensures Lookup(d.handlers, "KBase") == Some(KBaseClass)
    ensures forall id :: id != "ARM" && id != "KBase" ==> Lookup(d.handlers, id) == None
  {
    RegisterHandler(RegisterHandler(NewDataverse(), "ARM", ArmClass), "KBase", KBaseClass)
  }

  /** The keyword arguments `h(**auth)` passes. */
  function AuthKwargs(a: Auth): (kwargs: OMap<string, Value>)
    ensures Get(kwargs, "token") == a.token && Get(kwargs, "user") == a.user
    ensures Get(kwargs, "ws_url") == Null && Lookup(kwargs, "ws_url") == None
    ensures Lookup(kwargs, "ws_handle_url") == None
  {
    [("token", a.token), ("user", a.user)]
  }

  /** `cls(**auth)`. */
  function Build(b: Backends, cls: HandlerClass, a: Auth): (r: Result<Handle, Raised>)
    ensures cls == ArmClass ==> r == Success(ArmHandle(Arm.Handler(a.token, a.user)))
    ensures cls == KBaseClass ==>
      var built := KBase.NewHandler(AuthKwargs(a), b.workspace);
      && (built.Success? ==> r == Success(KBaseHandle(built.value)))
      && (built.Failure? ==> r == Failure(built.error))
  {
    match cls
    case ArmClass => Success(ArmHandle(Arm.NewHandler(AuthKwargs(a))))
    case KBaseClass =>
      var h :- KBase.NewHandler(AuthKwargs(a), b.workspace);
      Success(KBaseHandle(h))
  }

  /** `handle.fetch_data(**kwargs)`. */
  function Fetch(b: Backends, handle: Handle, kwargs: OMap<string, Value>): (r: Result<seq<Row>, Raised>)
    ensures handle.ArmHandle? ==> r == Arm.FetchData(handle.arm, kwargs, b.armGet, b.armDownload)
    ensures handle.KBaseHandle? ==> r == KBase.FetchData(handle.kbase, kwargs, b.workspace)
  {
    match handle
    case ArmHandle(h) => Arm.FetchData(h, kwargs, b.armGet, b.armDownload)
    case KBaseHandle(h) => KBase.FetchData(h, kwargs, b.workspace)
  }

  /** `dataverse.resolve_path(id, **kwargs)` on the registry of `create_app`. */
  function Resolve(b: Backends, id: string, kwargs: OMap<string, Value>): (r: Result<seq<Row>, Raised>)
    ensures id != "ARM" && id != "KBase" ==> r == Failure(UnknownHandler(DefaultRegistry()))
  {
    ResolvePath(DefaultRegistry(), id, kwargs, (cls, a) => Build(b, cls, a), (h, kw) => Fetch(b, h, kw))
  }

  /** A registered id: the handler class is built from the caller's `token`
      and `user`, and then fetches with every keyword argument. */
  lemma ResolveRegistered(b: Backends, id: string, cls: HandlerClass, kwargs: OMap<string, Value>)
    requires Lookup(DefaultRegistry().handlers, id) == Some(cls)
    ensures var built := Build(b, cls, AuthOf(kwargs));
      && (built.Failure? ==> Resolve(b, id, kwargs) == Failure(built.error))
      && (built.Success? ==> Resolve(b, id, kwargs) == Fetch(b, built.value, kwargs))
  {
    var d := DefaultRegistry();
    assert id in ListHandlers(d);
  }

  /** Resolving `ARM` builds the handler from the `token` and `user`
      keyword arguments and hands it every keyword argument. */
  lemma ResolveArm(b: Backends, kwargs: OMap<string, Value>)
    ensures Resolve(b, "ARM", kwargs)
      == Arm.FetchData(Arm.Handler(Get(kwargs, "token"), Get(kwargs, "user")), kwargs, b.armGet, b.armDownload)
  {
    ResolveRegistered(b, "ARM", ArmClass, kwargs);
    var h := Arm.Handler(Get(kwargs, "token"), Get(kwargs, "user"));
    assert Build(b, ArmClass, AuthOf(kwargs)) == Success(ArmHandle(h));
  }

  /** Resolving `KBase` always connects to the default workspace URL with
      the caller's token: the registry passes no `ws_url`, even when the
      request carries one. */
  lemma ResolveKBaseUsesDefaultUrl(b: Backends, kwargs: OMap<string, Value>)
    ensures var c := KBase.Connection(Str(KBase.DefaultWsUrl), Get(kwargs, "token"));
      var built := KBase.NewHandler(AuthKwargs(AuthOf(kwargs)), b.workspace);
      && (b.workspace.connect(c).Failure? ==>
            Resolve(b, "KBase", kwargs) == Failure(Wrapped(KBase.ConnectPrefix, b.workspace.connect(c).error)))
      && (b.workspace.connect(c).Success? ==>
            built.Success? && Resolve(b, "KBase", kwargs) == KBase.FetchData(built.value, kwargs, b.workspace))
  {
    ResolveRegistered(b, "KBase", KBaseClass, kwargs);
    var a := AuthOf(kwargs);
    var built := KBase.NewHandler(AuthKwargs(a), b.workspace);
    assert GetOr(AuthKwargs(a), "ws_url", Str(KBase.DefaultWsUrl)) == Str(KBase.DefaultWsUrl);
  }

  lemma QuotedDefaultIds()
    ensures Join([QuoteString("ARM"), QuoteString("KBase")], ", ") == "'ARM', 'KBase'"
  {
    var quoted := [QuoteString("ARM"), QuoteString("KBase")];
    assert quoted[1..] == [QuoteString("KBase")];
    assert Join(quoted, ", ") == QuoteString("ARM") + ", " + QuoteString("KBase");
  }

  /** `repr(handlers.keys())` of the registry of `create_app`. */
  lemma DefaultKeysRepr()
    ensures DictKeysRepr(["ARM", "KBase"]) == "dict_keys(['ARM', 'KBase'])"
  {
    var ids := ["ARM", "KBase"];
    var quoted := seq(|ids|, i requires 0 <= i < |ids| => QuoteString(ids[i]));
    assert quoted == [QuoteString("ARM"), QuoteString("KBase")];
    QuotedDefaultIds();
  }

  /** An unregistered provider, ESGF included, is reported with the ids of
      the registry and nothing is built or fetched. */
  lemma ResolveUnknown(b: Backends, id: string, kwargs: OMap<string, Value>)
    requires id != "ARM" && id != "KBase"
    ensures Resolve(b, id, kwargs) == Failure(PlainException("Error! dict_keys(['ARM', 'KBase'])"))
  {
    var d := DefaultRegistry();
    assert Resolve(b, id, kwargs) == Failure(UnknownHandler(d));
    UnknownDefaultHandler();
  }

  lemma UnknownDefaultHandler()
    ensures UnknownHandler(DefaultRegistry()) == PlainException("Error! dict_keys(['ARM', 'KBase'])")
  {
    DefaultKeysRepr();
    assert "Error! " + DictKeysRepr(["ARM", "KBase"]) == "Error! dict_keys(['ARM', 'KBase'])";
  }
}
