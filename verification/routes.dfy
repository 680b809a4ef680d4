/** The data route `GET /data/{provider}` (`retrieve_data` in
    `src/service/routes_data.py`): the provider allow-list, the token check
    for KBase, and the per-provider result. The KBase path goes through the
    older `KBaseHandler` (`src/utils/data_handlers/kbase_handler.py`), whose
    workspace client is an oracle. */
module Routes {
  import opened Wrappers
  import opened OrderedMaps
  import opened Values
  import opened Errors
  import opened App

  /** The providers the route accepts, in the order its message lists them. */
  const Providers: seq<string> := ["KBase", "ESGF", "ARM"]

  /** The message of the `IllegalParameterError` for any other provider; it
      ends with `str(PROVIDERS)`. */
  const UnexpectedProvider := "Unexpected provider. Please use one of " + "['KBase', 'ESGF', 'ARM']"

  /** The error message names every provider, in order, as Python prints
      the list. */
  lemma UnexpectedProviderListsProviders()
    ensures UnexpectedProvider == "Unexpected provider. Please use one of " + Repr(StrList(Providers))
  {
    var v := List([Str("KBase"), Str("ESGF"), Str("ARM")]);
    assert StrList(Providers) == v;
    ReprItemsTail(v);
    assert Repr(v) == "[" + ReprItems(v, 0) + "]";
    ProvidersListText();
  }

  /** The list's text is its items between brackets. */
  lemma ProvidersListText()
    ensures "[" + "'KBase', 'ESGF', 'ARM'" + "]" == "['KBase', 'ESGF', 'ARM']"
  {
  }

  lemma ReprItemsTail(v: Value)
    requires v == List([Str("KBase"), Str("ESGF"), Str("ARM")])
    ensures ReprItems(v, 0) == "'KBase', 'ESGF', 'ARM'"
  {
    ReprItemsFrom1(v);
    var first := Repr(v.items[0]);
    assert first == QuoteString("KBase");
    assert ReprItems(v, 0) == "" + first + ReprItems(v, 1);
    assert "" + QuoteString("KBase") + ", 'ESGF', 'ARM'" == "'KBase', 'ESGF', 'ARM'";
  }

  lemma ReprItemsFrom1(v: Value)
    requires v == List([Str("KBase"), Str("ESGF"), Str("ARM")])
    ensures ReprItems(v, 1) == ", 'ESGF', 'ARM'"
  {
    ReprItemsFrom2(v);
    assert Repr(v.items[1]) == "'ESGF'";
    assert ReprItems(v, 1) == ", " + "'ESGF'" + ", 'ARM'";
  }

  lemma ReprItemsFrom2(v: Value)
    requires v == List([Str("KBase"), Str("ESGF"), Str("ARM")])
    ensures ReprItems(v, 2) == ", 'ARM'"
  {
    assert ReprItems(v, 3) == "";
    assert Repr(v.items[2]) == "'ARM'";
    assert ReprItems(v, 2) == ", " + "'ARM'" + "";
  }

  /** The workspace client `KBaseHandler` uses. `connect(url, token)` stands
      for building the client and calling `ver()`; `getObject(url, token, ref)`
      for `get_objects2({'objects': [{'ref': ref}], 'no_data': 0})['data'][0]`. */
  datatype LegacyWorkspace = LegacyWorkspace(
    connect: (string, Value) -> Result<Value, BackendExc>,
    getObject: (string, Value, Value) -> Result<OMap<string, Value>, BackendExc>)

  /** The body of a successful response: `metadata` and `data`. */
  datatype RetrievedData = RetrievedData(metadata: Value, data: Value)

  /** What ESGF and ARM answer: the initial `list()` and `dict()`. */
  const EmptyResult := RetrievedData(List([]), Dict([]))

  /** `KBaseHandler(token, ws_url=...)` followed by `fetch_data(ref)`: a
      failing connection becomes a `ValueError` without the backend's text;
      a failing fetch propagates as it is; otherwise the object's `info` and
      `data` entries, `None` when missing. */
  function FetchFromKBase(token: Value, wsUrl: string, reference: Value, ws: LegacyWorkspace): (r: Result<RetrievedData, Raised>)
    ensures ws.connect(wsUrl, token).Failure? ==> r == Failure(ValueError("Cannot connect to KBase Workspace client"))
    ensures ws.connect(wsUrl, token).Success? && ws.getObject(wsUrl, token, reference).Failure?
      ==> r == Failure(Propagated(ws.getObject(wsUrl, token, reference).error))
    ensures ws.connect(wsUrl, token).Success? && ws.getObject(wsUrl, token, reference).Success?
      ==> var item := ws.getObject(wsUrl, token, reference).value;
          r == Success(RetrievedData(Get(item, "info"), Get(item, "data")))
  {
    match ws.connect(wsUrl, token)
    case Failure(_) => Failure(ValueError("Cannot connect to KBase Workspace client"))
    case Success(_) =>
      match ws.getObject(wsUrl, token, reference)
      case Failure(e) => Failure(Propagated(e))
      case Success(item) => Success(RetrievedData(Get(item, "info"), Get(item, "data")))
  }

  /** `retrieve_data`: the provider must be one of `Providers`; for KBase a
      token is required and the object is fetched from the workspace at
      `wsUrl` (the URL held in the application state); ESGF and ARM answer
      with empty metadata and data. */
  function RetrieveData(provider: string, reference: Value, token: Value, wsUrl: string,
                        ws: LegacyWorkspace): (r: Result<RetrievedData, Raised>)
    ensures provider !in Providers ==> r == Failure(AppError(IllegalParameterError(UnexpectedProvider)))
    ensures provider == "KBase" && !Truthy(token) ==> r == Failure(AppError(MissingTokenError("Please provide KBase Auth Token")))
    ensures provider == "KBase" && Truthy(token) ==> r == FetchFromKBase(token, wsUrl, reference, ws)
    ensures provider in Providers && provider != "KBase" ==> r == Success(EmptyResult)
  {
    if provider !in Providers then
      Failure(AppError(IllegalParameterError(UnexpectedProvider)))
    else if provider == "KBase" then
      if !Truthy(token) then
        Failure(AppError(MissingTokenError("Please provide KBase Auth Token")))
      else
        FetchFromKBase(token, wsUrl, reference, ws)
    else
      Success(EmptyResult)
  }

  /** The provider is checked before anything else: an unknown provider is
      rejected whatever the token, the reference and the workspace. */
  lemma ProviderCheckedBeforeToken(provider: string, ref1: Value, ref2: Value, token1: Value, token2: Value,
                                   url1: string, url2: string, ws1: LegacyWorkspace, ws2: LegacyWorkspace)
    requires provider !in Providers
    ensures RetrieveData(provider, ref1, token1, url1, ws1) == RetrieveData(provider, ref2, token2, url2, ws2)
    ensures RetrieveData(provider, ref1, token1, url1, ws1).Failure?
  {
  }

  /** A KBase request without a token is refused before any workspace
      client is built. */
  lemma MissingTokenContactsNothing(reference: Value, token: Value, url: string, ws1: LegacyWorkspace, ws2: LegacyWorkspace)
    requires !Truthy(token)
    ensures RetrieveData("KBase", reference, token, url, ws1) == RetrieveData("KBase", reference, token, url, ws2)
    ensures RetrieveData("KBase", reference, token, url, ws1).Failure?
  {
  }

  /** ESGF and ARM construct no handler: the answer does not depend on the
      token, the reference or the workspace. */
  lemma OtherProvidersBuildNothing(provider: string, ref1: Value, ref2: Value, token1: Value, token2: Value,
                                   url1: string, url2: string, ws1: LegacyWorkspace, ws2: LegacyWorkspace)
    requires provider == "ESGF" || provider == "ARM"
    ensures RetrieveData(provider, ref1, token1, url1, ws1) == RetrieveData(provider, ref2, token2, url2, ws2)
    ensures RetrieveData(provider, ref1, token1, url1, ws1) == Success(EmptyResult)
  {
  }

  /** Through the exception handlers, an unknown provider is answered with
      400 and `ILLEGAL_PARAMETER`. */
  lemma UnknownProviderStatus(provider: string, reference: Value, token: Value, url: string, ws: LegacyWorkspace, now: string)
    requires provider !in Providers
    ensures var r := RetrieveData(provider, reference, token, url, ws);
      && r.Failure? && r.error.AppError? && r.error.err.kind == IllegalParameter
      && HandleException(r.error, now).Success? && HandleException(r.error, now).value.status == 400
  {
    var e := IllegalParameterError(UnexpectedProvider);
    assert RetrieveData(provider, reference, token, url, ws) == Failure(AppError(e));
    IllegalParameterIsBadRequest(UnexpectedProvider);
    AppErrorStatus(e, now);
  }

  /** Through the exception handlers, a KBase request without a token is
      answered with 401 and `NO_TOKEN`. */
  lemma MissingTokenStatus(reference: Value, token: Value, url: string, ws: LegacyWorkspace, now: string)
    requires !Truthy(token)
    ensures var r := RetrieveData("KBase", reference, token, url, ws);
      && r.Failure? && r.error.AppError? && r.error.err.kind == NoToken
      && HandleException(r.error, now).Success? && HandleException(r.error, now).value.status == 401
  {
    var e := MissingTokenError("Please provide KBase Auth Token");
    assert RetrieveData("KBase", reference, token, url, ws) == Failure(AppError(e));
    MissingTokenIsUnauthenticated("Please provide KBase Auth Token");
    AppErrorStatus(e, now);
  }

  lemma IllegalParameterIsBadRequest(m: string)
    ensures IllegalParameterError(m).kind == IllegalParameter
    ensures StatusFor(IllegalParameterError(m).cls) == 400
  {
    assert IllegalParameterError(m).cls == IllegalParameterErrorClass;
    assert CategoryOf(IllegalParameterErrorClass) == OtherCategory;
    assert !IsSubclass(IllegalParameterErrorClass, UnauthorizedErrorClass);
  }

  lemma MissingTokenIsUnauthenticated(m: string)
    ensures MissingTokenError(m).kind == NoToken
    ensures StatusFor(MissingTokenError(m).cls) == 401
  {
    assert MissingTokenError(m).cls == MissingTokenErrorClass;
    assert CategoryOf(MissingTokenErrorClass) == AuthenticationCategory;
  }

  lemma AppErrorStatus(e: DataverseError, now: string)
    ensures HandleException(AppError(e), now).Success?
    ensures HandleException(AppError(e), now).value.status == StatusFor(e.cls)
  {
  }
}
