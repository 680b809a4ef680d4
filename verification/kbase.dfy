/** The KBase adapter `KBaseHandler2` (`src/utils/data_handlers/kbase_handler2.py`).
    The workspace RPC client is an oracle: each of its calls returns either a
    result or the exception the client raised. */
module KBase {
  import opened Wrappers
  import opened Strings
  import opened OrderedMaps
  import opened Values
  import opened Errors
  import opened Rows

  // ---------------------------------------------------------------------
  // What the workspace service returns
  // ---------------------------------------------------------------------

  /** A `workspace_info` tuple, fields 0 to 8. */
  datatype WorkspaceInfo = WorkspaceInfo(
    id: int, workspace: string, owner: string, moddate: string, maxObjid: int,
    permission: string, globalRead: string, lockStatus: string, metadata: OMap<string, string>)

  /** An `object_metadata` tuple of the legacy `list_workspace_objects` call,
      fields 0 to 11: the object's name comes first and its type second. */
  datatype ObjectMetadata = ObjectMetadata(
    name: string, objType: string, moddate: string, instance: int, command: string,
    lastModifiedBy: string, owner: string, workspace: string, reference: string,
    chsum: string, metadata: OMap<string, string>, objid: int)

  /** An `object_info` tuple, fields 0 to 10, as `save_objects` returns it. */
  datatype ObjectInfo = ObjectInfo(
    objid: int, name: string, objType: string, saveDate: string, version: int,
    savedBy: string, wsid: int, workspace: string, chsum: string, size: int,
    meta: OMap<string, string>)

  /** A workspace client: the service URL and the token it was made with. */
  datatype Connection = Connection(url: Value, token: Value)

  /** The workspace client's calls. `connect` stands for building the client
      and calling `ver()`; `getObject` for `get_objects2(...)['data'][0]`;
      `saveObject` for `save_objects(...)[0]`. */
  datatype Workspace = Workspace(
    connect: Connection -> Result<Value, BackendExc>,
    listWorkspaceInfo: Connection -> Result<seq<WorkspaceInfo>, BackendExc>,
    listWorkspaceObjects: (Connection, Value) -> Result<seq<ObjectMetadata>, BackendExc>,
    getObject: (Connection, OMap<string, Value>) -> Result<OMap<string, Value>, BackendExc>,
    saveObject: (Connection, Value, OMap<string, Value>) -> Result<ObjectInfo, BackendExc>)

  /** A backend call whose exception is not caught. */
  function Unwrapped<T>(r: Result<T, BackendExc>): (r2: Result<T, Raised>)
    ensures r.Success? <==> r2.Success?
    ensures r.Success? ==> r2.value == r.value
    ensures r.Failure? ==> r2.error == Propagated(r.error)
  {
    match r
    case Success(v) => Success(v)
    case Failure(e) => Failure(Propagated(e))
  }

  /** A backend call inside `try: ... except Exception as e: raise ValueError(prefix + str(e))`. */
  function Rewrapped<T>(prefix: string, r: Result<T, BackendExc>): (r2: Result<T, Raised>)
    ensures r.Success? <==> r2.Success?
    ensures r.Success? ==> r2.value == r.value
    ensures r.Failure? ==> r2.error == Wrapped(prefix, r.error)
  {
    match r
    case Success(v) => Success(v)
    case Failure(e) => Failure(Wrapped(prefix, e))
  }

  const FetchPrefix := "Could not fetch object from workspace: "
  const SavePrefix := "Could not save object to workspace: "
  const ConnectPrefix := "Cannot connect to KBase Workspace client: "
  const DefaultWsUrl := "https://kbase.us/services/ws/"
  const DefaultHandleUrl := "https://kbase.us/services/handle_service"

  // ---------------------------------------------------------------------
  // Identifiers
  // ---------------------------------------------------------------------

  /** `_process_workspace_identifiers`: without a workspace the id is a
      reference; with one, the workspace goes under `wsid` when it is an int
      and under `workspace` otherwise, then the object under `objid` when it
      is an int and under `name` otherwise. */
  function ProcessWorkspaceIdentifiers(idOrRef: Value, workspace: Value): (spec: OMap<string, Value>)
    ensures workspace.Null? ==> Keys(spec) == ["ref"] && Lookup(spec, "ref") == Some(idOrRef)
    ensures !workspace.Null? ==> |spec| == 2 && WellFormed(spec)
    ensures !workspace.Null? ==> Keys(spec)[0] == (if IsInstanceInt(workspace) then "wsid" else "workspace")
    ensures !workspace.Null? ==> Keys(spec)[1] == (if IsInstanceInt(idOrRef) then "objid" else "name")
    ensures !workspace.Null? ==> spec[0].1 == workspace && spec[1].1 == idOrRef
  {
    if workspace.Null? then [("ref", idOrRef)]
    else
      [(if IsInstanceInt(workspace) then "wsid" else "workspace", workspace),
       (if IsInstanceInt(idOrRef) then "objid" else "name", idOrRef)]
  }

  /** With a workspace, the spec names it under exactly one of `wsid` and
      `workspace`, the object under exactly one of `objid` and `name`, and
      never carries a `ref`. */
  lemma IdentifiersExactlyOne(idOrRef: Value, workspace: Value)
    requires !workspace.Null?
    ensures var spec := ProcessWorkspaceIdentifiers(idOrRef, workspace);
      && ("wsid" in Keys(spec) <==> IsInstanceInt(workspace))
      && ("workspace" in Keys(spec) <==> !IsInstanceInt(workspace))
      && ("objid" in Keys(spec) <==> IsInstanceInt(idOrRef))
      && ("name" in Keys(spec) <==> !IsInstanceInt(idOrRef))
      && "ref" !in Keys(spec)
  {
    var spec := ProcessWorkspaceIdentifiers(idOrRef, workspace);
    assert Keys(spec) == [Keys(spec)[0], Keys(spec)[1]];
  }

  // ---------------------------------------------------------------------
  // Construction
  // ---------------------------------------------------------------------

  /** A constructed `KBaseHandler2`. */
  datatype Handler = Handler(authToken: Value, wsUrl: Value, wsHandleUrl: Value, ws: Connection)

  /** `KBaseHandler2(**kwargs)`: the token, and the two service URLs with
      their defaults; a failure to build the client or call `ver()` is
      re-raised as a `ValueError`. */
  function NewHandler(kwargs: OMap<string, Value>, backend: Workspace): (r: Result<Handler, Raised>)
    ensures r.Success? ==> r.value.authToken == Get(kwargs, "token")
    ensures r.Success? ==> r.value.wsUrl == GetOr(kwargs, "ws_url", Str(DefaultWsUrl))
    ensures r.Success? ==> r.value.wsHandleUrl == GetOr(kwargs, "ws_handle_url", Str(DefaultHandleUrl))
    ensures r.Success? ==> r.value.ws == Connection(r.value.wsUrl, r.value.authToken)
    ensures var c := Connection(GetOr(kwargs, "ws_url", Str(DefaultWsUrl)), Get(kwargs, "token"));
      && (r.Success? <==> backend.connect(c).Success?)
      && (r.Failure? ==> r.error == Wrapped(ConnectPrefix, backend.connect(c).error))
  {
    var token := Get(kwargs, "token");
    var wsUrl := GetOr(kwargs, "ws_url", Str(DefaultWsUrl));
    var handleUrl := GetOr(kwargs, "ws_handle_url", Str(DefaultHandleUrl));
    var c := Connection(wsUrl, token);
    var _ :- Rewrapped(ConnectPrefix, backend.connect(c));
    Success(Handler(token, wsUrl, handleUrl, c))
  }

  // ---------------------------------------------------------------------
  // Fetching
  // ---------------------------------------------------------------------

  predicate HasNiceName(o: WorkspaceInfo) {
    "narrative_nice_name" in Keys(o.metadata)
  }

  function FolderRow(o: WorkspaceInfo): Row {
    var nice := Lookup(o.metadata, "narrative_nice_name");
    Folder(Str(o.workspace), if nice.Some? then Str(nice.value) else Null, Str(o.owner), Str(o.moddate))
  }

  /** The workspace listing: narratives only, in the order the service gave
      them, each as a folder named after the workspace and described by its
      narrative's nice name. */
  function WorkspaceRows(res: seq<WorkspaceInfo>): (rows: seq<Row>)
    ensures |rows| <= |res|
    ensures forall r :: r in rows <==> exists o :: o in res && HasNiceName(o) && FolderRow(o) == r
  {
    FilterMapMembers(res, HasNiceName, FolderRow);
    FilterMap(res, HasNiceName, FolderRow)
  }

  /** Every folder row carries the nice name from the metadata it came from. */
  lemma FolderRowDescribed(o: WorkspaceInfo)
    requires HasNiceName(o)
    ensures FolderRow(o).Folder? && FolderRow(o).id == Str(o.workspace)
    ensures FolderRow(o).d == Str(Lookup(o.metadata, "narrative_nice_name").value)
  {
  }

  const NarrativeType := "KBaseNarrative.Narrative"

  predicate NotNarrative(o: ObjectMetadata) {
    !StartsWith(o.objType, NarrativeType)
  }

  function FileRow(o: ObjectMetadata): (r: Row)
    ensures r.File? && r.id == r.d == Str(o.name)
  {
    File(Str(o.name), Str(o.name), Str(o.lastModifiedBy), Str(o.moddate))
  }

  /** The object listing: everything but narrative objects, in the order the
      service gave them, each as a file row whose id and label are the
      object's name. */
  function ObjectRows(res: seq<ObjectMetadata>): (rows: seq<Row>)
    ensures |rows| <= |res|
    ensures forall r :: r in rows <==> exists o :: o in res && NotNarrative(o) && FileRow(o) == r
    ensures forall r :: r in rows ==> r.File? && r.id == r.d
  {
    FilterMapMembers(res, NotNarrative, FileRow);
    FilterMap(res, NotNarrative, FileRow)
  }

  /** Both listings preserve order: the listing of a concatenation is the
      concatenation of the listings. */
  lemma ListingsPreserveOrder(w1: seq<WorkspaceInfo>, w2: seq<WorkspaceInfo>,
                              o1: seq<ObjectMetadata>, o2: seq<ObjectMetadata>)
    ensures WorkspaceRows(w1 + w2) == WorkspaceRows(w1) + WorkspaceRows(w2)
    ensures ObjectRows(o1 + o2) == ObjectRows(o1) + ObjectRows(o2)
  {
    FilterMapAppend(w1, w2, HasNiceName, FolderRow);
    FilterMapAppend(o1, o2, NotNarrative, FileRow);
  }

  /** `_fetch_obj_from_ws`: the object's `info` and `data`, `None` for either
      when missing; any client failure is re-raised as a `ValueError`. */
  function FetchObject(h: Handler, idOrRef: Value, workspace: Value, backend: Workspace): (r: Result<(Value, Value), Raised>)
    ensures var got := backend.getObject(h.ws, ProcessWorkspaceIdentifiers(idOrRef, workspace));
      && (r.Success? <==> got.Success?)
      && (r.Success? ==> r.value == (Get(got.value, "info"), Get(got.value, "data")))
      && (r.Failure? ==> r.error == Wrapped(FetchPrefix, got.error))
  {
    var item :- Rewrapped(FetchPrefix, backend.getObject(h.ws, ProcessWorkspaceIdentifiers(idOrRef, workspace)));
    Success((Get(item, "info"), Get(item, "data")))
  }

  /** Which tier of `fetch_data` a keyword set selects. */
  datatype Tier = ListWorkspaces | ListObjects | FetchOne | ExactVersion

  function TierOf(kwargs: OMap<string, Value>): Tier {
    if Get(kwargs, "path").Null? then ListWorkspaces
    else if Get(kwargs, "object_id").Null? then ListObjects
    else if Get(kwargs, "version").Null? then FetchOne
    else ExactVersion
  }

  /** `fetch_data(**kwargs)`. The listing calls are not guarded, so their
      exceptions propagate unchanged; a specific version is not implemented. */
  function FetchData(h: Handler, kwargs: OMap<string, Value>, backend: Workspace): (r: Result<seq<Row>, Raised>)
    ensures TierOf(kwargs) == ListWorkspaces ==>
      r == (var res := backend.listWorkspaceInfo(h.ws);
            if res.Success? then Success(WorkspaceRows(res.value)) else Failure(Propagated(res.error)))
    ensures TierOf(kwargs) == ListObjects ==>
      r == (var res := backend.listWorkspaceObjects(h.ws, Get(kwargs, "path"));
            if res.Success? then Success(ObjectRows(res.value)) else Failure(Propagated(res.error)))
    ensures TierOf(kwargs) == FetchOne ==>
      var got := FetchObject(h, Get(kwargs, "object_id"), Get(kwargs, "path"), backend);
      && (r.Success? <==> got.Success?)
      && (r.Success? ==> r.value == [Data(Get(kwargs, "object_id"), List([got.value.0, got.value.1]))])
      && (r.Failure? ==> r.error == got.error)
    ensures TierOf(kwargs) == ExactVersion ==> r == Failure(PlainException("Not implemented"))
  {
    var wsId := Get(kwargs, "path");
    var objectId := Get(kwargs, "object_id");
    var version := Get(kwargs, "version");
    if wsId.Null? then
      var res :- Unwrapped(backend.listWorkspaceInfo(h.ws));
      Success(WorkspaceRows(res))
    else if objectId.Null? then
      var res :- Unwrapped(backend.listWorkspaceObjects(h.ws, wsId));
      Success(ObjectRows(res))
    else if version.Null? then
      var got :- FetchObject(h, objectId, wsId, backend);
      Success([Data(objectId, List([got.0, got.1]))])
    else
      Failure(PlainException("Not implemented"))
  }

  /** Only the tier that is selected talks to the service: the listing of
      workspaces never fetches an object, and asking for a version makes no
      call at all. */
  lemma FetchDataCallsOnlyItsTier(h: Handler, kwargs: OMap<string, Value>, b1: Workspace, b2: Workspace)
    requires TierOf(kwargs) == ListWorkspaces ==> b1.listWorkspaceInfo == b2.listWorkspaceInfo
    requires TierOf(kwargs) == ListObjects ==> b1.listWorkspaceObjects == b2.listWorkspaceObjects
    requires TierOf(kwargs) == FetchOne ==> b1.getObject == b2.getObject
    ensures FetchData(h, kwargs, b1) == FetchData(h, kwargs, b2)
  {
  }

  // ---------------------------------------------------------------------
  // Saving
  // ---------------------------------------------------------------------

  const ExtraRefsKey := "extra_provenance_input_refs"
  const InputObjectsKey := "input_ws_objects"

  /** Provenance as the caller passes it: `None` or a list of records. */
  type Provenance = Option<seq<OMap<string, Value>>>

  function ProvenanceValue(p: Provenance): Value {
    match p
    case None => Null
    case Some(records) => List(seq(|records|, i requires 0 <= i < |records| => Dict(records[i])))
  }

  /** `existing.extend(extra)` on the first record's input list. */
  function Extend(existing: Value, extra: Value): (r: Result<Value, Raised>)
    ensures existing.List? && extra.List? ==> r == Success(List(existing.items + extra.items))
    ensures !existing.List? ==> r.Failure? && r.error.Other? && r.error.cls == "AttributeError"
    ensures existing.List? ==> (r.Failure? <==> Iterate(extra).None?)
  {
    if !existing.List? then
      Failure(Other("AttributeError", [Str("'" + TypeName(existing) + "' object has no attribute 'extend'")]))
    else
      match Iterate(extra)
      case None => Failure(TypeError("'" + TypeName(extra) + "' object is not iterable"))
      case Some(items) => Success(List(existing.items + items))
  }

  /** The first record with the extra references added to its input list. */
  function MergeFirst(first: OMap<string, Value>, extra: Value): (r: Result<OMap<string, Value>, Raised>)
    ensures r.Success? ==> Keys(r.value) == if InputObjectsKey in Keys(first) then Keys(first) else Keys(first) + [InputObjectsKey]
    ensures r.Success? ==> forall k :: k != InputObjectsKey ==> Lookup(r.value, k) == Lookup(first, k)
    ensures InputObjectsKey !in Keys(first) ==> r.Success? && Lookup(r.value, InputObjectsKey) == Some(extra)
    ensures InputObjectsKey in Keys(first) ==>
      var ext := Extend(Lookup(first, InputObjectsKey).value, extra);
      && (r.Success? <==> ext.Success?)
      && (r.Success? ==> Lookup(r.value, InputObjectsKey) == Some(ext.value))
      && (r.Failure? ==> r.error == ext.error)
  {
    LookupPutAll(first, InputObjectsKey, extra);
    match Lookup(first, InputObjectsKey)
    case None => Success(Put(first, InputObjectsKey, extra))
    case Some(existing) =>
      var merged :- Extend(existing, extra);
      LookupPutAll(first, InputObjectsKey, merged);
      Success(Put(first, InputObjectsKey, merged))
  }

  /** The provenance `_save_obj_to_ws` saves, as the code is written: with
      truthy extra references and `provenance=None`, `len(provenance)`
      raises `TypeError`. */
  function MergeProvenanceAsWritten(objData: OMap<string, Value>, provenance: Provenance): (r: Result<Value, Raised>)
    ensures r.Failure? && r.error == TypeError("object of type 'NoneType' has no len()")
      <== ExtraRefsKey in Keys(objData) && Truthy(Get(objData, ExtraRefsKey)) && provenance.None?
  {
    var extra := Get(objData, ExtraRefsKey);
    if ExtraRefsKey in Keys(objData) && Truthy(extra) && provenance.None? then
      Failure(TypeError("object of type 'NoneType' has no len()"))
    else
      MergeProvenance(objData, provenance)
  }

  /** The provenance `_save_obj_to_ws` saves, with a missing provenance
      treated as an empty list. Without truthy extra references the caller's
      provenance is saved as it is; otherwise they go into the first record
      (extended or set), or into a new single record when there is none. The
      caller's provenance itself is a value and is never changed. */
  function MergeProvenance(objData: OMap<string, Value>, provenance: Provenance): (r: Result<Value, Raised>)
    ensures !(ExtraRefsKey in Keys(objData) && Truthy(Get(objData, ExtraRefsKey))) ==>
      r == Success(ProvenanceValue(provenance))
    ensures (ExtraRefsKey in Keys(objData) && Truthy(Get(objData, ExtraRefsKey))
             && (provenance.None? || provenance.value == [])) ==>
      r == Success(List([Dict([(InputObjectsKey, Get(objData, ExtraRefsKey))])]))
    ensures (ExtraRefsKey in Keys(objData) && Truthy(Get(objData, ExtraRefsKey))
             && provenance.Some? && provenance.value != []) ==>
      var first := MergeFirst(provenance.value[0], Get(objData, ExtraRefsKey));
      && (r.Success? <==> first.Success?)
      && (r.Success? ==> r.value == ProvenanceValue(Some([first.value] + provenance.value[1..])))
      && (r.Failure? ==> r.error == first.error)
  {
    var extra := Get(objData, ExtraRefsKey);
    if !(ExtraRefsKey in Keys(objData) && Truthy(extra)) then Success(ProvenanceValue(provenance))
    else
      match provenance
      case None => Success(List([Dict([(InputObjectsKey, extra)])]))
      case Some(records) =>
        if |records| == 0 then Success(List([Dict([(InputObjectsKey, extra)])]))
        else
          var first :- MergeFirst(records[0], extra);
          Success(ProvenanceValue(Some([first] + records[1..])))
  }

  /** The two merges differ only where the code raises. */
  lemma MergeProvenanceAgrees(objData: OMap<string, Value>, provenance: Provenance)
    requires provenance.Some? || !(ExtraRefsKey in Keys(objData) && Truthy(Get(objData, ExtraRefsKey)))
    ensures MergeProvenanceAsWritten(objData, provenance) == MergeProvenance(objData, provenance)
  {
  }

  /** The keys copied from the object data when present, in this order. */
  const Whitelist: seq<string> := ["type", "name", "objid", "meta", "hidden"]

  /** `[(k, obj_data[k]) for k in keys if k in obj_data]`. */
  function WhitelistedFrom(objData: OMap<string, Value>, keys: seq<string>): (r: OMap<string, Value>)
    ensures Keys(r) == Present(keys, objData)
    ensures forall k :: k in Keys(r) ==> Lookup(r, k) == Lookup(objData, k)
  {
    if |keys| == 0 then []
    else
      var rest := WhitelistedFrom(objData, keys[1..]);
      if keys[0] in Keys(objData) then [(keys[0], Lookup(objData, keys[0]).value)] + rest
      else rest
  }

  /** The listed keys that occur in `m`, in list order. */
  function Present(keys: seq<string>, m: OMap<string, Value>): (r: seq<string>)
    ensures forall k :: k in r <==> k in keys && k in Keys(m)
  {
    if |keys| == 0 then []
    else (if keys[0] in Keys(m) then [keys[0]] else []) + Present(keys[1..], m)
  }

  lemma {:induction false} PresentDistinct(keys: seq<string>, m: OMap<string, Value>)
    requires Distinct(keys)
    ensures Distinct(Present(keys, m))
  {
    if |keys| > 0 {
      PresentDistinct(keys[1..], m);
      var rest := Present(keys[1..], m);
      assert keys[0] !in rest by {
        assert keys[0] !in keys[1..];
      }
      var head: seq<string> := if keys[0] in Keys(m) then [keys[0]] else [];
      DistinctAppend(head, rest);
    }
  }

  lemma DistinctAppend(xs: seq<string>, ys: seq<string>)
    requires Distinct(xs) && Distinct(ys)
    requires forall x :: x in xs ==> x !in ys
    ensures Distinct(xs + ys)
  {
    forall i, j | 0 <= i < j < |xs + ys| ensures (xs + ys)[i] != (xs + ys)[j] {
      if j >= |xs| && i < |xs| {
        assert (xs + ys)[i] in xs;
        assert (xs + ys)[j] in ys;
      }
    }
  }

  /** The object `_save_obj_to_ws` hands to `save_objects`: the whitelisted
      keys that are present, then `data` (through `sortDict`, the module's
      `_sort_dict`, which it neither defines nor imports) when present, then
      `provenance`, always. */
  function SavedObject(objData: OMap<string, Value>, prov: Value, sortDict: Value -> Value): (obj: OMap<string, Value>)
    ensures Keys(obj) == Present(Whitelist, objData)
                        + (if "data" in Keys(objData) then ["data"] else []) + ["provenance"]
    ensures WellFormed(obj)
    ensures forall k :: k in Keys(obj) && k in Whitelist ==> Lookup(obj, k) == Lookup(objData, k)
    ensures "data" in Keys(objData) ==> Lookup(obj, "data") == Some(sortDict(Get(objData, "data")))
    ensures Lookup(obj, "provenance") == Some(prov)
  {
    var kept := WhitelistedFrom(objData, Whitelist);
    var data := if "data" in Keys(objData) then Some(sortDict(Get(objData, "data"))) else None;
    var tail: OMap<string, Value> := (if data.Some? then [("data", data.value)] else []) + [("provenance", prov)];
    WhitelistShape();
    TailShape(kept, tail, objData, Whitelist, "data", "provenance", data, prov);
    kept + tail
  }

  /** The whitelist lists five distinct keys, none of them `data` or `provenance`. */
  lemma WhitelistShape()
    ensures Distinct(Whitelist) && "data" !in Whitelist && "provenance" !in Whitelist && "data" != "provenance"
  {
    assert |"data"| == 4 && |"provenance"| == 10 && |"type"| == 4 && |"name"| == 4 && |"meta"| == 4;
    assert "data"[0] == 'd' && "type"[0] == 't' && "name"[0] == 'n' && "meta"[0] == 'm';
  }

  /** The saved object's shape, for any whitelist and any two further keys. */
  lemma TailShape(kept: OMap<string, Value>, tail: OMap<string, Value>, objData: OMap<string, Value>,
                  keys: seq<string>, dk: string, pk: string, data: Option<Value>, prov: Value)
    requires Distinct(keys) && dk !in keys && pk !in keys && dk != pk
    requires kept == WhitelistedFrom(objData, keys)
    requires tail == (if data.Some? then [(dk, data.value)] else []) + [(pk, prov)]
    ensures Keys(kept + tail) == Present(keys, objData) + (if data.Some? then [dk] else []) + [pk]
    ensures WellFormed(kept + tail)
    ensures forall k :: k in Keys(kept + tail) && k in keys ==> Lookup(kept + tail, k) == Lookup(objData, k)
    ensures data.Some? ==> Lookup(kept + tail, dk) == data
    ensures Lookup(kept + tail, pk) == Some(prov)
  {
    TailKeys(kept, tail, objData, keys, dk, pk, data, prov);
    var opt: seq<string> := if data.Some? then [dk] else [];
    assert Present(keys, objData) + (opt + [pk]) == Present(keys, objData) + opt + [pk];
    TailLookups(kept, tail, objData, keys, dk, pk, data, prov);
  }

  lemma TailKeys(kept: OMap<string, Value>, tail: OMap<string, Value>, objData: OMap<string, Value>,
                 keys: seq<string>, dk: string, pk: string, data: Option<Value>, prov: Value)
    requires Distinct(keys) && dk !in keys && pk !in keys && dk != pk
    requires kept == WhitelistedFrom(objData, keys)
    requires tail == (if data.Some? then [(dk, data.value)] else []) + [(pk, prov)]
    ensures Keys(tail) == (if data.Some? then [dk] else []) + [pk]
    ensures Keys(kept + tail) == Present(keys, objData) + Keys(tail)
    ensures WellFormed(kept + tail)
  {
    TailOwnKeys(tail, dk, pk, data, prov);
    var front := Present(keys, objData);
    var tk := Keys(tail);
    assert Keys(kept) == front;
    PresentDistinct(keys, objData);
    forall x | x in front
      ensures x !in tk
    {
      assert x in keys;
    }
    DistinctAppend(front, tk);
    KeysAppend(kept, tail);
    assert Keys(kept + tail) == front + tk;
  }

  /** The appended tail holds the data key (when there is data) and then the
      provenance key, once each. */
  lemma TailOwnKeys(tail: OMap<string, Value>, dk: string, pk: string, data: Option<Value>, prov: Value)
    requires dk != pk
    requires tail == (if data.Some? then [(dk, data.value)] else []) + [(pk, prov)]
    ensures Keys(tail) == (if data.Some? then [dk] else []) + [pk]
    ensures Distinct(Keys(tail))
    ensures forall x :: x in Keys(tail) ==> x == dk || x == pk
  {
    if data.Some? {
      assert tail == [(dk, data.value), (pk, prov)];
      assert Keys(tail) == [dk, pk];
    } else {
      assert tail == [(pk, prov)];
      assert Keys(tail) == [pk];
    }
  }

  lemma TailLookups(kept: OMap<string, Value>, tail: OMap<string, Value>, objData: OMap<string, Value>,
                    keys: seq<string>, dk: string, pk: string, data: Option<Value>, prov: Value)
    requires Distinct(keys) && dk !in keys && pk !in keys && dk != pk
    requires kept == WhitelistedFrom(objData, keys)
    requires tail == (if data.Some? then [(dk, data.value)] else []) + [(pk, prov)]
    ensures forall k :: k in Keys(kept + tail) && k in keys ==> Lookup(kept + tail, k) == Lookup(objData, k)
    ensures data.Some? ==> Lookup(kept + tail, dk) == data
    ensures Lookup(kept + tail, pk) == Some(prov)
  {
    TailKeys(kept, tail, objData, keys, dk, pk, data, prov);
    forall k | k in Keys(kept + tail) && k in keys
      ensures Lookup(kept + tail, k) == Lookup(objData, k)
    {
      LookupAppend(kept, tail, k);
    }
    LookupAppend(kept, tail, dk);
    LookupAppend(kept, tail, pk);
    TailValues(tail, dk, pk, data, prov);
  }

  lemma TailValues(tail: OMap<string, Value>, dk: string, pk: string, data: Option<Value>, prov: Value)
    requires dk != pk
    requires tail == (if data.Some? then [(dk, data.value)] else []) + [(pk, prov)]
    ensures data.Some? ==> Lookup(tail, dk) == data
    ensures Lookup(tail, pk) == Some(prov)
  {
    if data.Some? {
      assert tail == [(dk, data.value), (pk, prov)];
      assert tail[1..] == [(pk, prov)];
    } else {
      assert tail == [(pk, prov)];
    }
  }

  /** `_save_obj_to_ws(wsid, obj_data, provenance)`: merge the provenance,
      build the whitelisted object, and save it; a failed save is re-raised as
      a `ValueError`. */
  function SaveObject(h: Handler, wsid: Value, objData: OMap<string, Value>, provenance: Provenance,
                      sortDict: Value -> Value, backend: Workspace): (r: Result<ObjectInfo, Raised>)
    ensures MergeProvenance(objData, provenance).Failure? ==> r == Failure(MergeProvenance(objData, provenance).error)
    ensures MergeProvenance(objData, provenance).Success? ==>
      var saved := backend.saveObject(h.ws, wsid, SavedObject(objData, MergeProvenance(objData, provenance).value, sortDict));
      && (r.Success? <==> saved.Success?)
      && (r.Success? ==> r.value == saved.value)
      && (r.Failure? ==> r.error == Wrapped(SavePrefix, saved.error))
  {
    var prov :- MergeProvenance(objData, provenance);
    Rewrapped(SavePrefix, backend.saveObject(h.ws, wsid, SavedObject(objData, prov, sortDict)))
  }

  /** `f"{info[6]}/{info[0]}/{info[4]}"`: workspace id, object id, version. */
  function ObjectRef(info: ObjectInfo): string {
    IntToString(info.wsid) + "/" + IntToString(info.objid) + "/" + IntToString(info.version)
  }

  /** Reads a `ws/obj/ver` reference back into its three numbers. */
  function ParseRef(s: string): Option<(int, int, int)> {
    var parts := Split(s, '/');
    if |parts| != 3 then None
    else
      match (ParseInt(parts[0]), ParseInt(parts[1]), ParseInt(parts[2]))
      case (Some(w), Some(o), Some(v)) => Some((w, o, v))
      case _ => None
  }

  /** The reference `save_data` returns names the saved object exactly. */
  lemma ObjectRefRoundTrip(info: ObjectInfo)
    ensures ParseRef(ObjectRef(info)) == Some((info.wsid, info.objid, info.version))
  {
    var a, b, c := IntToString(info.wsid), IntToString(info.objid), IntToString(info.version);
    IntToStringHasNoSlash(info.wsid);
    IntToStringHasNoSlash(info.objid);
    IntToStringHasNoSlash(info.version);
    assert [a, b, c][1..] == [b, c] && [b, c][1..] == [c];
    assert Join([c], "/") == c;
    assert Join([b, c], "/") == b + "/" + c;
    assert Join([a, b, c], "/") == a + "/" + (b + "/" + c);
    assert ObjectRef(info) == Join([a, b, c], "/");
    SplitJoin([a, b, c], '/');
    IntToStringRoundTrip(info.wsid);
    IntToStringRoundTrip(info.objid);
    IntToStringRoundTrip(info.version);
  }

  /** `save_data(wsid, obj_data, provenance)`: the reference and the info, in
      that order. */
  function SaveData(h: Handler, wsid: Value, objData: OMap<string, Value>, provenance: Provenance,
                    sortDict: Value -> Value, backend: Workspace): (r: Result<(string, ObjectInfo), Raised>)
    ensures var saved := SaveObject(h, wsid, objData, provenance, sortDict, backend);
      && (r.Success? <==> saved.Success?)
      && (r.Failure? ==> r.error == saved.error)
      && (r.Success? ==> r.value.1 == saved.value
                         && r.value.0 == ObjectRef(saved.value)
                         && ParseRef(r.value.0) == Some((saved.value.wsid, saved.value.objid, saved.value.version)))
  {
    var info :- SaveObject(h, wsid, objData, provenance, sortDict, backend);
    ObjectRefRoundTrip(info);
    Success((ObjectRef(info), info))
  }
}
