/** The provider registry `Dataverse` (`src/service/dataverse.py`): an
    insertion-ordered map from provider id to handler class. Resolving a path
    builds a fresh handler from the `{token, user}` keyword arguments and
    forwards every keyword argument to its `fetch_data`. Building a handler and
    fetching through it are oracles supplied by the caller. */
module Registry {
  import opened Wrappers
  import opened Strings
  import opened OrderedMaps
  import opened Values
  import opened Errors

  /** The keyword arguments `resolve_path` passes to a handler class. */
  datatype Auth = Auth(token: Value, user: Value)

  /** `kwargs.get('token', None)` and `kwargs.get('user', None)`. */
  function AuthOf(kwargs: OMap<string, Value>): (a: Auth)
    ensures "token" !in Keys(kwargs) ==> a.token == Null
    ensures "user" !in Keys(kwargs) ==> a.user == Null
    ensures "token" in Keys(kwargs) ==> Lookup(kwargs, "token") == Some(a.token)
    ensures "user" in Keys(kwargs) ==> Lookup(kwargs, "user") == Some(a.user)
  {
    Auth(Get(kwargs, "token"), Get(kwargs, "user"))
  }

  /** A registry of handler classes `H`. */
  datatype Dataverse<H> = Dataverse(handlers: OMap<string, H>)

  /** `Dataverse()`: no handler is registered. */
  function NewDataverse<H>(): (d: Dataverse<H>)
    ensures ListHandlers(d) == []
    ensures forall id :: Lookup(d.handlers, id) == None
  {
    Dataverse([])
  }

  /** `register_handler`: the id now names `h`; an id registered before keeps
      its place, a new one goes last, and every other id is untouched. */
  function RegisterHandler<H>(d: Dataverse<H>, id: string, h: H): (d2: Dataverse<H>)
    ensures Lookup(d2.handlers, id) == Some(h)
    ensures forall other :: other != id ==> Lookup(d2.handlers, other) == Lookup(d.handlers, other)
    ensures ListHandlers(d2) == if id in ListHandlers(d) then ListHandlers(d) else ListHandlers(d) + [id]
  {
    LookupPutAll(d.handlers, id, h);
    Dataverse(Put(d.handlers, id, h))
  }

  /** `handler`: its body is `pass`, so the registry is left as it is. */
  function Handler<H>(d: Dataverse<H>, id: string, h: H): (d2: Dataverse<H>)
    ensures ListHandlers(d2) == ListHandlers(d)
    ensures forall other :: Lookup(d2.handlers, other) == Lookup(d.handlers, other)
  {
    d
  }

  /** `list_handlers`: every registered id, once each, in the order of first
      registration. */
  function ListHandlers<H>(d: Dataverse<H>): (ids: seq<string>)
    ensures |ids| == |d.handlers|
    ensures forall id :: id in ids <==> Lookup(d.handlers, id).Some?
  {
    Keys(d.handlers)
  }

  /** A registry built only through `NewDataverse` and `RegisterHandler`
      never lists an id twice. */
  lemma RegisterKeepsIdsDistinct<H>(d: Dataverse<H>, id: string, h: H)
    requires Distinct(ListHandlers(d))
    ensures Distinct(ListHandlers(RegisterHandler(d, id, h)))
  {
    PutWellFormed(d.handlers, id, h);
  }

  /** Registering twice under the same id keeps only the second class, and
      the id keeps the place of its first registration. */
  lemma {:induction false} LastRegistrationWins<H>(d: Dataverse<H>, id: string, h1: H, h2: H)
    ensures RegisterHandler(RegisterHandler(d, id, h1), id, h2) == RegisterHandler(d, id, h2)
  {
    PutTwice(d.handlers, id, h1, h2);
  }

  lemma {:induction false} PutTwice<K, V>(m: OMap<K, V>, k: K, v1: V, v2: V)
    ensures Put(Put(m, k, v1), k, v2) == Put(m, k, v2)
  {
    if |m| > 0 && m[0].0 != k {
      PutTwice(m[1..], k, v1, v2);
      assert Put(m, k, v1)[1..] == Put(m[1..], k, v1);
    } else if |m| > 0 {
      assert Put(m, k, v1)[1..] == m[1..];
    }
  }

  /** `repr(self.handlers.keys())`. */
  function DictKeysRepr(ids: seq<string>): (s: string)
    ensures StartsWith(s, "dict_keys([")
  {
    var quoted := seq(|ids|, i requires 0 <= i < |ids| => QuoteString(ids[i]));
    var s := "dict_keys([" + Join(quoted, ", ") + "])";
    assert s[..11] == "dict_keys([";
    s
  }

  /** The exception `resolve_path` raises for an id nobody registered. */
  function UnknownHandler<H>(d: Dataverse<H>): Raised {
    PlainException("Error! " + DictKeysRepr(ListHandlers(d)))
  }

  /** `resolve_path(handler_id, **kwargs)`. `build(h, auth)` stands for the
      call `h(**auth)`, `fetch(handle, kwargs)` for `handle.fetch_data(**kwargs)`;
      an exception from either propagates. */
  function ResolvePath<H, I, O>(d: Dataverse<H>, id: string, kwargs: OMap<string, Value>,
                                build: (H, Auth) -> Result<I, Raised>,
                                fetch: (I, OMap<string, Value>) -> Result<O, Raised>): (r: Result<O, Raised>)
    ensures id !in ListHandlers(d) ==> r == Failure(UnknownHandler(d))
    ensures id in ListHandlers(d) && build(Lookup(d.handlers, id).value, AuthOf(kwargs)).Failure?
      ==> r == Failure(build(Lookup(d.handlers, id).value, AuthOf(kwargs)).error)
    ensures id in ListHandlers(d) && build(Lookup(d.handlers, id).value, AuthOf(kwargs)).Success?
      ==> r == fetch(build(Lookup(d.handlers, id).value, AuthOf(kwargs)).value, kwargs)
  {
    match Lookup(d.handlers, id)
    case None => Failure(UnknownHandler(d))
    case Some(h) =>
      var handle :- build(h, AuthOf(kwargs));
      fetch(handle, kwargs)
  }

  /** An unregistered id fails before any handler is built: the outcome does
      not depend on what building or fetching would do. */
  lemma ResolveUnknownBuildsNothing<H, I, O>(d: Dataverse<H>, id: string, kwargs: OMap<string, Value>,
                                              build1: (H, Auth) -> Result<I, Raised>,
                                              fetch1: (I, OMap<string, Value>) -> Result<O, Raised>,
                                              build2: (H, Auth) -> Result<I, Raised>,
                                              fetch2: (I, OMap<string, Value>) -> Result<O, Raised>)
    requires id !in ListHandlers(d)
    ensures ResolvePath(d, id, kwargs, build1, fetch1) == ResolvePath(d, id, kwargs, build2, fetch2)
    ensures ResolvePath(d, id, kwargs, build1, fetch1).Failure?
  {
  }

  /** A registered id is built from exactly `{token, user}`, both taken from
      the keyword arguments and `None` when absent: the outcome depends on
      the handler class only through its result for that one argument. */
  lemma ResolveBuildsFromAuth<H, I, O>(d: Dataverse<H>, id: string, kwargs: OMap<string, Value>,
                                        build1: (H, Auth) -> Result<I, Raised>,
                                        build2: (H, Auth) -> Result<I, Raised>,
                                        fetch: (I, OMap<string, Value>) -> Result<O, Raised>)
    requires id in ListHandlers(d)
    requires var h := Lookup(d.handlers, id).value;
      build1(h, Auth(Get(kwargs, "token"), Get(kwargs, "user"))) == build2(h, Auth(Get(kwargs, "token"), Get(kwargs, "user")))
    ensures ResolvePath(d, id, kwargs, build1, fetch) == ResolvePath(d, id, kwargs, build2, fetch)
  {
  }

  /** Resolving an id right after registering it uses the class just
      registered, whatever was there before. */
  lemma ResolveAfterRegister<H, I, O>(d: Dataverse<H>, id: string, h: H, kwargs: OMap<string, Value>,
                                       build: (H, Auth) -> Result<I, Raised>,
                                       fetch: (I, OMap<string, Value>) -> Result<O, Raised>)
    ensures var r := ResolvePath(RegisterHandler(d, id, h), id, kwargs, build, fetch);
      && (build(h, AuthOf(kwargs)).Failure? ==> r == Failure(build(h, AuthOf(kwargs)).error))
      && (build(h, AuthOf(kwargs)).Success? ==> r == fetch(build(h, AuthOf(kwargs)).value, kwargs))
  {
  }
}
