/** The ARM data handler (`ARMHandler2`): it lists the files of an ARM
    datastream in an optional time window, or downloads one file. The two
    HTTP calls are oracles supplied by the caller. */
module Arm {
  import opened Wrappers
  import opened Strings
  import opened OrderedMaps
  import opened Values
  import opened Errors
  import opened Calendar
  import opened Dates
  import opened Rows

  const LiveData := "https://adc.arm.gov/armlive/livedata/"

  /** A handler keeps the `token` and `user` keyword arguments, `None` when
      absent; nothing is checked when it is built. */
  datatype Handler = Handler(authToken: Value, authUser: Value)

  function NewHandler(kwargs: OMap<string, Value>): (h: Handler)
    ensures "token" !in Keys(kwargs) ==> h.authToken == Null
    ensures "user" !in Keys(kwargs) ==> h.authUser == Null
    ensures "token" in Keys(kwargs) ==> Lookup(kwargs, "token") == Some(h.authToken)
    ensures "user" in Keys(kwargs) ==> Lookup(kwargs, "user") == Some(h.authUser)
  {
    Handler(Get(kwargs, "token"), Get(kwargs, "user"))
  }

  /** Two keyword-argument maps that agree on `token` and `user` build the
      same handler: nothing else is read. */
  lemma NewHandlerReadsOnlyAuth(k1: OMap<string, Value>, k2: OMap<string, Value>)
    requires Lookup(k1, "token") == Lookup(k2, "token") && Lookup(k1, "user") == Lookup(k2, "user")
    ensures NewHandler(k1) == NewHandler(k2)
  {
  }

  // ---------------------------------------------------------------------
  // Credentials
  // ---------------------------------------------------------------------

  function NotStr(index: int, v: Value): Raised {
    TypeError("sequence item " + IntToString(index) + ": expected str instance, " + TypeName(v) + " found")
  }

  /** `':'.join([user, token])`: both must be strings, the user is checked
      first. */
  function Credentials(user: Value, token: Value): (r: Result<string, Raised>)
    ensures r.Success? <==> user.Str? && token.Str?
    ensures !user.Str? ==> r == Failure(NotStr(0, user))
    ensures user.Str? && !token.Str? ==> r == Failure(NotStr(1, token))
    ensures r.Success? ==> r.value == Join([user.s, token.s], ":")
  {
    if !user.Str? then Failure(NotStr(0, user))
    else if !token.Str? then Failure(NotStr(1, token))
    else Success(Join([user.s, token.s], ":"))
  }

  /** The joined credentials are `user:token`, and split back into the two
      parts when neither contains a colon. */
  lemma CredentialsText(user: string, token: string)
    ensures Credentials(Str(user), Str(token)) == Success(user + ":" + token)
    ensures ':' !in user && ':' !in token ==> Split(user + ":" + token, ':') == [user, token]
  {
    assert [user, token][1..] == [token];
    assert Join([user, token], [':']) == user + ":" + token;
    if ':' !in user && ':' !in token {
      SplitJoin([user, token], ':');
    }
  }

  // ---------------------------------------------------------------------
  // The time window
  // ---------------------------------------------------------------------

  const IsoSeconds: Format := [Field(Year), Lit('-'), Field(Month), Lit('-'), Field(Day), Lit('T'),
                               Field(Hour), Lit(':'), Field(Minute), Lit(':'), Field(Second)]

  lemma {:induction false} RenderLength(t: DateTime, f: Format)
    requires Valid(t)
    ensures |Render(t, f)| == Width(f)
  {
    if |f| > 0 {
      RenderLength(t, f[1..]);
    }
  }

  /** The number of characters `strftime` writes for `f`. */
  function Width(f: Format): nat {
    if |f| == 0 then 0
    else (match f[0] case Field(k) => if k == Year then 4 else 2 case Lit(_) => 1) + Width(f[1..])
  }

  /** Cutting the last three digits off a six-digit microsecond field leaves
      the milliseconds. */
  lemma DropMicros(prefix: string, us: nat)
    ensures var full := prefix + "." + PadNat(us, 6);
      full[..|full| - 3] == prefix + "." + PadNat(us / 1000, 3)
  {
    var full := prefix + "." + PadNat(us, 6);
    PadNatDropLast(us, 6, 3);
    DropThreeDigits(us);
    assert full[..|full| - 3] == prefix + "." + PadNat(us, 6)[..3];
  }

  /** `t.strftime('%Y-%m-%dT%H:%M:%S.%f')[:-3] + 'Z'`: the time to the
      millisecond, in UTC notation. */
  function IsoMillis(t: DateTime): (s: string)
    requires Valid(t)
    ensures s == Render(t, IsoSeconds) + "." + PadNat(t.microsecond / 1000, 3) + "Z"
    ensures |s| == 24
  {
    var full := Render(t, IsoSeconds) + "." + PadNat(t.microsecond, 6);
    RenderLength(t, IsoSeconds);
    IsoSecondsWidth();
    DropMicros(Render(t, IsoSeconds), t.microsecond);
    full[..|full| - 3] + "Z"
  }

  /** The first nineteen characters read back, with `%Y-%m-%dT%H:%M:%S`, as
      the instant to the second. */
  lemma IsoMillisReadsBack(t: DateTime)
    requires Valid(t)
    ensures Strptime(IsoMillis(t)[..19], IsoSeconds) == Some(t.(microsecond := 0))
  {
    var r := Render(t, IsoSeconds);
    RenderLength(t, IsoSeconds);
    IsoSecondsWidth();
    PrefixOfConcat(r, ".", PadNat(t.microsecond / 1000, 3), "Z");
    StrptimeRender(t, IsoSeconds);
    IsoSecondsMentionsAll();
    ProjectAllFields(t, IsoSeconds);
  }

  lemma PrefixOfConcat(a: string, b: string, c: string, d: string)
    ensures (a + b + c + d)[..|a|] == a
  {
    assert a + b + c + d == a + (b + c + d);
  }

  lemma IsoSecondsWidth()
    ensures Width(IsoSeconds) == 19
  {
    var f := IsoSeconds;
    assert Width(f[10..]) == 2;
    assert Width(f[9..]) == 3;
    assert Width(f[8..]) == 5;
    assert Width(f[7..]) == 6;
    assert Width(f[6..]) == 8;
    assert Width(f[5..]) == 9;
    assert Width(f[4..]) == 11;
    assert Width(f[3..]) == 12;
    assert Width(f[2..]) == 14;
    assert Width(f[1..]) == 15;
  }

  /** `%Y-%m-%dT%H:%M:%S` writes every field. */
  lemma IsoSecondsMentionsAll()
    ensures forall k :: Field(k) in IsoSeconds
  {
    forall k ensures Field(k) in IsoSeconds {
      match k {
        case Year => assert IsoSeconds[0] == Field(Year);
        case Month => assert IsoSeconds[2] == Field(Month);
        case Day => assert IsoSeconds[4] == Field(Day);
        case Hour => assert IsoSeconds[6] == Field(Hour);
        case Minute => assert IsoSeconds[8] == Field(Minute);
        case Second => assert IsoSeconds[10] == Field(Second);
      }
    }
  }

  function Overflow(): Raised {
    Other("OverflowError", [Str("date value out of range")])
  }

  /** The end of the window once both ends are parsed: when they are the same
      instant, 23:59:59 is added to the end. */
  function EndInstant(start: DateTime, end: DateTime): (r: Result<DateTime, Raised>)
    requires Valid(start) && Valid(end)
    ensures r.Success? ==> Valid(r.value)
    ensures start != end ==> r == Success(end)
    ensures start == end && r.Success? ==> TotalSeconds(r.value) == TotalSeconds(end) + 86399
    ensures r.Failure? <==> start == end && AddEndOfDay(end).None?
    ensures r.Failure? ==> r.error == Overflow()
  {
    if start == end then
      match AddEndOfDay(end)
      case None => Failure(Overflow())
      case Some(e) => Success(e)
    else Success(end)
  }

  /** The `&start=` and `&end=` query parameters of `_fetch_datastream`: both
      empty without a (truthy) start; the end is only looked at when there is
      a start. A date that does not parse raises from `date_parser`. */
  function TimeWindow(dateStart: Value, dateEnd: Value): (r: Result<(string, string), Raised>)
    ensures !Truthy(dateStart) ==> r == Success(("", ""))
    ensures Truthy(dateStart) && ParseDate(dateStart).Failure? ==> r == Failure(ParseDate(dateStart).error)
    ensures Truthy(dateStart) && ParseDate(dateStart).Success? && !Truthy(dateEnd)
      ==> r == Success(("&start=" + IsoMillis(ParseDate(dateStart).value), ""))
    ensures Truthy(dateStart) && ParseDate(dateStart).Success? && Truthy(dateEnd) && ParseDate(dateEnd).Failure?
      ==> r == Failure(ParseDate(dateEnd).error)
    ensures Truthy(dateStart) && Truthy(dateEnd) && ParseDate(dateStart).Success? && ParseDate(dateEnd).Success?
      ==> var e := EndInstant(ParseDate(dateStart).value, ParseDate(dateEnd).value);
          && (e.Failure? ==> r == Failure(e.error))
          && (e.Success? ==> r == Success(("&start=" + IsoMillis(ParseDate(dateStart).value), "&end=" + IsoMillis(e.value))))
  {
    if !Truthy(dateStart) then Success(("", ""))
    else
      var start :- ParseDate(dateStart);
      var startParam := "&start=" + IsoMillis(start);
      if !Truthy(dateEnd) then Success((startParam, ""))
      else
        var parsedEnd :- ParseDate(dateEnd);
        var end :- EndInstant(start, parsedEnd);
        Success((startParam, "&end=" + IsoMillis(end)))
  }

  /** Given the same date for both ends, the window covers that whole day:
      from midnight to 23:59:59. */
  lemma SameDayWindow(date: Value)
    requires Truthy(date) && ParseDate(date).Success?
    ensures var t := ParseDate(date).value;
      t.hour == 0 && t.minute == 0 && t.second == 0 ==>
        TimeWindow(date, date) == Success(("&start=" + IsoMillis(t),
                                           "&end=" + IsoMillis(t.(hour := 23, minute := 59, second := 59))))
  {
    var t := ParseDate(date).value;
    if t.hour == 0 && t.minute == 0 && t.second == 0 {
      EndOfDayFromMidnight(t);
    }
  }

  // ---------------------------------------------------------------------
  // Listing a datastream
  // ---------------------------------------------------------------------

  /** The query URL; the credentials are joined only after both dates parsed. */
  function QueryUrl(h: Handler, datastream: Value, start: string, end: string): (r: Result<string, Raised>)
    ensures r.Success? <==> h.authUser.Str? && h.authToken.Str?
    ensures r.Failure? ==> r == Failure(Credentials(h.authUser, h.authToken).error)
    ensures r.Success? ==> r.value == LiveData + "query?user=" + (h.authUser.s + ":" + h.authToken.s)
                                      + "&ds=" + ToStr(datastream) + start + end + "&wt=json"
  {
    var cred :- Credentials(h.authUser, h.authToken);
    CredentialsText(h.authUser.s, h.authToken.s);
    Success(LiveData + "query?user=" + cred + "&ds=" + ToStr(datastream) + start + end + "&wt=json")
  }

  /** What `requests.get(url)` returned: the status and, for status 200, the
      decoded JSON object. */
  datatype HttpResponse = HttpResponse(status: int, body: OMap<string, Value>)

  function FileRow(name: Value): Row {
    File(name, name, Str("nan"), Str("nan"))
  }

  /** The rows of a 200 response: one file row per entry of `files`, in order. */
  function ListingFromResponse(resp: HttpResponse): (r: Result<seq<Row>, Raised>)
    ensures resp.status != 200 ==> r == Failure(ValueError("Could not fetch data from ARM: status " + IntToString(resp.status)))
    ensures resp.status == 200 && "files" !in Keys(resp.body) ==> r == Failure(ValueError("Could not fetch data from ARM: no files returned"))
    ensures r.Success? <==> resp.status == 200 && "files" in Keys(resp.body) && Iterate(Get(resp.body, "files")).Some?
    ensures r.Success? ==> |r.value| == |Iterate(Get(resp.body, "files")).value|
    ensures r.Success? ==> forall i :: 0 <= i < |r.value| ==> r.value[i] == FileRow(Iterate(Get(resp.body, "files")).value[i])
  {
    if resp.status != 200 then
      Failure(ValueError("Could not fetch data from ARM: status " + IntToString(resp.status)))
    else if "files" !in Keys(resp.body) then
      Failure(ValueError("Could not fetch data from ARM: no files returned"))
    else
      var files := Get(resp.body, "files");
      match Iterate(files)
      case None => Failure(TypeError("'" + TypeName(files) + "' object is not iterable"))
      case Some(names) => Success(seq(|names|, i requires 0 <= i < |names| => FileRow(names[i])))
  }

  /** A file listing names every file of the response once, in order, and
      each row's id and description are the file name. */
  lemma ListingNamesFiles(names: seq<Value>, status: int, body: OMap<string, Value>)
    requires status == 200 && Lookup(body, "files") == Some(List(names))
    ensures var r := ListingFromResponse(HttpResponse(status, body));
      && r.Success?
      && seq(|r.value|, i requires 0 <= i < |r.value| => r.value[i].id) == names
      && forall i :: 0 <= i < |r.value| ==> r.value[i].File? && r.value[i].d == names[i]
  {
    var r := ListingFromResponse(HttpResponse(status, body));
    assert Get(body, "files") == List(names);
    assert |r.value| == |names|;
  }

  /** `_fetch_datastream`: the window, then the URL, then one request whose
      failure propagates. */
  function FetchDatastream(h: Handler, datastream: Value, dateStart: Value, dateEnd: Value,
                           get: string -> Result<HttpResponse, BackendExc>): (r: Result<seq<Row>, Raised>)
    ensures TimeWindow(dateStart, dateEnd).Failure? ==> r == Failure(TimeWindow(dateStart, dateEnd).error)
    ensures TimeWindow(dateStart, dateEnd).Success? && !(h.authUser.Str? && h.authToken.Str?)
      ==> r == Failure(Credentials(h.authUser, h.authToken).error)
    ensures TimeWindow(dateStart, dateEnd).Success? && h.authUser.Str? && h.authToken.Str?
      ==> var (s, e) := TimeWindow(dateStart, dateEnd).value;
          var url := QueryUrl(h, datastream, s, e).value;
          && (get(url).Failure? ==> r == Failure(Propagated(get(url).error)))
          && (get(url).Success? ==> r == ListingFromResponse(get(url).value))
  {
    var (start, end) :- TimeWindow(dateStart, dateEnd);
    var url :- QueryUrl(h, datastream, start, end);
    match get(url)
    case Failure(e) => Failure(Propagated(e))
    case Success(resp) => ListingFromResponse(resp)
  }

  /** No request is sent when a date or the credentials are bad: the outcome
      is the same whatever the server would have answered. */
  lemma NoRequestBeforeChecks(h: Handler, datastream: Value, dateStart: Value, dateEnd: Value,
                              get1: string -> Result<HttpResponse, BackendExc>,
                              get2: string -> Result<HttpResponse, BackendExc>)
    requires TimeWindow(dateStart, dateEnd).Failure? || !h.authUser.Str? || !h.authToken.Str?
    ensures FetchDatastream(h, datastream, dateStart, dateEnd, get1) == FetchDatastream(h, datastream, dateStart, dateEnd, get2)
    ensures FetchDatastream(h, datastream, dateStart, dateEnd, get1).Failure?
  {
  }

  // ---------------------------------------------------------------------
  // Downloading a file, and the dispatch
  // ---------------------------------------------------------------------

  /** `_fetch_file`: one download whose failure propagates; the content is
      returned as a single data row named after the file. */
  function FetchFile(h: Handler, fname: Value, download: string -> Result<Value, BackendExc>): (r: Result<seq<Row>, Raised>)
    ensures !(h.authUser.Str? && h.authToken.Str?) ==> r == Failure(Credentials(h.authUser, h.authToken).error)
    ensures h.authUser.Str? && h.authToken.Str? ==>
      var url := LiveData + "saveData?user=" + h.authUser.s + ":" + h.authToken.s + "&file=" + ToStr(fname);
      && (download(url).Failure? ==> r == Failure(Propagated(download(url).error)))
      && (download(url).Success? ==> r == Success([Data(fname, download(url).value)]))
  {
    var cred :- Credentials(h.authUser, h.authToken);
    CredentialsText(h.authUser.s, h.authToken.s);
    var url := LiveData + "saveData?user=" + cred + "&file=" + ToStr(fname);
    assert url == LiveData + "saveData?user=" + h.authUser.s + ":" + h.authToken.s + "&file=" + ToStr(fname);
    match download(url)
    case Failure(e) => Failure(Propagated(e))
    case Success(data) => Success([Data(fname, data)])
  }

  /** `fetch_data(**kwargs)`: an `object_id` that is absent or `None` lists
      the datastream, anything else downloads that file. */
  function FetchData(h: Handler, kwargs: OMap<string, Value>,
                     get: string -> Result<HttpResponse, BackendExc>,
                     download: string -> Result<Value, BackendExc>): (r: Result<seq<Row>, Raised>)
    ensures Get(kwargs, "object_id").Null? ==>
      r == FetchDatastream(h, Get(kwargs, "datastream"), Get(kwargs, "date_start"), Get(kwargs, "date_end"), get)
    ensures !Get(kwargs, "object_id").Null? ==> r == FetchFile(h, Get(kwargs, "object_id"), download)
  {
    var file := Get(kwargs, "object_id");
    if file.Null? then
      FetchDatastream(h, Get(kwargs, "datastream"), Get(kwargs, "date_start"), Get(kwargs, "date_end"), get)
    else
      FetchFile(h, file, download)
  }

  /** Each branch of `fetch_data` uses only its own HTTP call: listing never
      downloads, and downloading neither queries nor looks at the dates. */
  lemma FetchDataUsesOneCall(h: Handler, kwargs: OMap<string, Value>,
                             get1: string -> Result<HttpResponse, BackendExc>,
                             get2: string -> Result<HttpResponse, BackendExc>,
                             download1: string -> Result<Value, BackendExc>,
                             download2: string -> Result<Value, BackendExc>)
    ensures Get(kwargs, "object_id").Null? ==> FetchData(h, kwargs, get1, download1) == FetchData(h, kwargs, get1, download2)
    ensures !Get(kwargs, "object_id").Null? ==> FetchData(h, kwargs, get1, download1) == FetchData(h, kwargs, get2, download1)
  {
  }
}
