/** `OGDataProvider`: serves a stored Open Graph record at once, and refreshes
    it from the network when it is missing or stale.

    The session's asynchronous answer is an input (`SessionResult`), and the
    callbacks the provider makes (deliveries to the caller, record saves,
    requests sent) are appended, in order, to an event log. */
module DataProvider {
  import opened Wrappers
  import opened Text
  import opened OpenGraphData

  // ---------------------------------------------------------------------------
  // Values exchanged with the caller and the session

  /** The code of every `NSError` the provider creates. */
  const ErrorCode := 9999

  datatype NSError = NSError(domain: string, code: int)

  /** An `NSError` whose domain is `message` followed by the quoted reference. */
  function QuotedError(message: string, urlString: string): (r: NSError)
    ensures r.code == 9999
    ensures |r.domain| == |message| + |urlString| + 2
    ensures r.domain[..|message|] == message && r.domain[|message|] == '"'
    ensures r.domain[|message| + 1..|r.domain| - 1] == urlString && r.domain[|r.domain| - 1] == '"'
  {
    NSError(message + "\"" + urlString + "\"", ErrorCode)
  }

  /** The error for a reference that is not a usable URL. */
  function MalformedUrlError(urlString: string): NSError {
    QuotedError("can not create NSURL with ", urlString)
  }

  /** The error for a delete that finds no record. */
  function NoMatchError(urlString: string): NSError {
    QuotedError("no object matches with ", urlString)
  }

  /** Each error names its reference, and the two kinds never coincide. */
  lemma ErrorsIdentifyReference(u: string, v: string)
    ensures MalformedUrlError(u) == MalformedUrlError(v) ==> u == v
    ensures NoMatchError(u) == NoMatchError(v) ==> u == v
    ensures MalformedUrlError(u) != NoMatchError(v)
  {
    assert MalformedUrlError(u).domain[0] == 'c' && NoMatchError(v).domain[0] == 'n';
  }

  /** The two kinds of request the session can send. */
  datatype Request = YoutubeEmbedRequest(endpoint: URL) | HtmlRequest(url: URL)

  /** The decoded response a request yields. */
  datatype Payload = YoutubeResponse(youtube: Youtube) | HtmlResponse(metaList: seq<Metadata>)

  /** What the session reports back, together with the task's `isExpired` flag
      at that moment. */
  datatype SessionResult = Success(payload: Payload, isExpired: bool) | Failure(isExpired: bool)

  /** The visible effects of a fetch, in the order they happen. */
  datatype Event =
    | Deliver(data: Data, error: Option<NSError>)  // `completion?(data, error)`
    | Send(request: Request)                       // `session.send(request, …)`
    | Save(record: Record)                         // `ogData.save()`

  /** The collaborators the provider calls and which are not part of this model:
      `URL(string:)`, `URL.host`, `YoutubeEmbedRequest(url:)` (the embed
      endpoint it builds, or `None` when it fails) and `OGData.setValue`. */
  datatype Env = Env(
    parse: string -> Option<URL>,
    host: URL -> Option<string>,
    youtubeEmbed: URL -> Option<URL>,
    setValue: (Record, Payload) -> Record)

  function Abs(x: int): nat {
    if x < 0 then -x else x
  }

  /** `!ogData.sourceUrl.isEmpty`: the record has been stamped by an earlier
      fetch. A newly inserted record is not. */
  predicate IsPopulated(rec: Record)
    ensures rec == EmptyRecord ==> !IsPopulated(rec)
    ensures IsPopulated(rec) ==> |rec.sourceUrl| > 0
  {
    rec.sourceUrl != ""
  }

  /** `fabs(updateDate.timeIntervalSinceNow) < updateInterval`: the update
      date lies strictly within `updateInterval` of `now`, on either side. */
  predicate IsFresh(rec: Record, now: int, updateInterval: int)
    ensures IsFresh(rec, now, updateInterval) <==>
      now - updateInterval < rec.updateDate < now + updateInterval
  {
    Abs(rec.updateDate - now) < updateInterval
  }

  /** `url.host?.contains("youtube.com") == true`: the URL has a host, and
      "youtube.com" occurs somewhere in it. */
  predicate IsYoutube(url: URL, host: URL -> Option<string>)
    ensures IsYoutube(url, host) <==>
      host(url).Some? && exists i :: OccursAt(host(url).value, "youtube.com", i)
  {
    match host(url)
    case None => false
    case Some(name) =>
      ContainsIffOccurs(name, "youtube.com");
      Contains(name, "youtube.com")
  }

  /** The request for a valid URL: an embed request for a YouTube host (with no
      fallback when it cannot be built), a page request for any other host. */
  function Route(url: URL, env: Env): (r: Option<Request>)
    ensures IsYoutube(url, env.host) ==> r.Some? == env.youtubeEmbed(url).Some?
    ensures IsYoutube(url, env.host) && r.Some? ==> r.value == YoutubeEmbedRequest(env.youtubeEmbed(url).value)
    ensures !IsYoutube(url, env.host) ==> r == Some(HtmlRequest(url))
  {
    if IsYoutube(url, env.host) then
      match env.youtubeEmbed(url)
      case None => None
      case Some(endpoint) => Some(YoutubeEmbedRequest(endpoint))
    else Some(HtmlRequest(url))
  }

  /** The session's success and failure handlers, applied to the stamped record. */
  function Respond(stamped: Record, result: SessionResult, env: Env): (e: (seq<Event>, Record))
    ensures forall k :: 0 <= k < |e.0| ==> !e.0[k].Send?
  {
    match result
    case Success(payload, isExpired) =>
      var updated := env.setValue(stamped, payload);
      ([Save(updated)] + if isExpired then [] else [Deliver(FromRecord(updated, env.parse), None)], updated)
    case Failure(isExpired) =>
      (if isExpired then [] else [Deliver(FromRecord(stamped, env.parse), None)], stamped)
  }

  /** The refresh path: stamp the reference into the record, validate it,
      send the routed request and handle the session's answer. */
  function Refresh(pre: Record, urlString: string, result: SessionResult, env: Env): (e: (seq<Event>, Record))
    // what cannot be parsed or routed is answered with the malformed-URL error
    // on the stamped record, and nothing else happens
    ensures (env.parse(urlString).None? || Route(env.parse(urlString).value, env).None?) ==>
      e == ([Deliver(FromRecord(pre.(sourceUrl := urlString), env.parse), Some(MalformedUrlError(urlString)))],
            pre.(sourceUrl := urlString))
    // otherwise the routed request is sent first, and is the only request sent
    ensures env.parse(urlString).Some? && Route(env.parse(urlString).value, env).Some? ==>
      && |e.0| > 0 && e.0[0] == Send(Route(env.parse(urlString).value, env).value)
      && (forall k :: 0 < k < |e.0| ==> !e.0[k].Send?)
    // the stamp sticks unless a success answer hands the stamped record to `setValue`
    ensures env.parse(urlString).Some? && Route(env.parse(urlString).value, env).Some? ==>
      e.1 == (match result
              case Success(payload, _) => env.setValue(pre.(sourceUrl := urlString), payload)
              case Failure(_) => pre.(sourceUrl := urlString))
  {
    var stamped := pre.(sourceUrl := urlString);
    var malformed := Deliver(FromRecord(stamped, env.parse), Some(MalformedUrlError(urlString)));
    match env.parse(urlString)
    case None => ([malformed], stamped)
    case Some(url) =>
      match Route(url, env)
      case None => ([malformed], stamped)
      case Some(request) =>
        var response := Respond(stamped, result, env);
        ([Send(request)] + response.0, response.1)
  }

  /** Everything `fetchOGData` does to the caller, the session and the record,
      given the record's attributes before the call: the events, in order, and
      the record's attributes afterwards. */
  function Fetch(pre: Record, urlString: string, now: int, updateInterval: int, result: SessionResult, env: Env): (e: (seq<Event>, Record))
    // a populated record is delivered first, with no error
    ensures IsPopulated(pre) ==> |e.0| > 0 && e.0[0] == Deliver(FromRecord(pre, env.parse), None)
    // a populated, fresh record is all there is: nothing sent, nothing changed
    ensures IsPopulated(pre) && IsFresh(pre, now, updateInterval) ==>
      e == ([Deliver(FromRecord(pre, env.parse), None)], pre)
    // otherwise the reference is stamped before anything else can go wrong
    ensures !(IsPopulated(pre) && IsFresh(pre, now, updateInterval)) && env.parse(urlString).None? ==>
      e.1 == pre.(sourceUrl := urlString) && |e.0| > 0 &&
      e.0[|e.0| - 1] == Deliver(FromRecord(pre.(sourceUrl := urlString), env.parse), Some(MalformedUrlError(urlString)))
    // no request is sent unless the record needs a refresh, the URL parses and its request can be built
    ensures (exists k :: 0 <= k < |e.0| && e.0[k].Send?) ==>
      !(IsPopulated(pre) && IsFresh(pre, now, updateInterval)) &&
      env.parse(urlString).Some? && Route(env.parse(urlString).value, env).Some?
  {
    var cached := if IsPopulated(pre) then [Deliver(FromRecord(pre, env.parse), None)] else [];
    if IsPopulated(pre) && IsFresh(pre, now, updateInterval) then (cached, pre)
    else
      var refreshed := Refresh(pre, urlString, result, env);
      (cached + refreshed.0, refreshed.1)
  }

  /** The cache answers alone, with nothing sent and nothing saved, exactly
      when the record is populated and fresh. */
  lemma CacheAnswersAlone(pre: Record, urlString: string, now: int, updateInterval: int, result: SessionResult, env: Env)
    ensures Fetch(pre, urlString, now, updateInterval, result, env).0 == [Deliver(FromRecord(pre, env.parse), None)]
      <==> IsPopulated(pre) && IsFresh(pre, now, updateInterval)
  {
    var e := Fetch(pre, urlString, now, updateInterval, result, env);
    var d := Deliver(FromRecord(pre, env.parse), None);
    if !(IsPopulated(pre) && IsFresh(pre, now, updateInterval)) {
      var refreshed := Refresh(pre, urlString, result, env);
      assert |refreshed.0| > 0 && (refreshed.0[0].Send? || refreshed.0[0].error.Some?);
      if IsPopulated(pre) {
        assert e.0 == [d] + refreshed.0;
        assert |e.0| > 1;
      } else {
        assert e.0 == refreshed.0;
        assert e.0[0] != d;
      }
      assert e.0 != [d];
    }
  }

  /** On the refresh path the stamp of `urlString` sticks, also when the URL is malformed. */
  lemma StampSticksOnMalformedUrl(pre: Record, urlString: string, now: int, updateInterval: int, result: SessionResult, env: Env)
    requires !(IsPopulated(pre) && IsFresh(pre, now, updateInterval))
    requires env.parse(urlString).None?
    ensures var e := Fetch(pre, urlString, now, updateInterval, result, env);
      e.1.sourceUrl == urlString && forall k :: 0 <= k < |e.0| ==> !e.0[k].Send? && !e.0[k].Save?
  {
  }

  /** A YouTube URL whose embed request cannot be built is an error; the page
      request is never tried instead. */
  lemma YoutubeNoFallback(pre: Record, urlString: string, now: int, updateInterval: int, result: SessionResult, env: Env)
    requires !(IsPopulated(pre) && IsFresh(pre, now, updateInterval))
    requires env.parse(urlString).Some? && IsYoutube(env.parse(urlString).value, env.host)
    requires env.youtubeEmbed(env.parse(urlString).value).None?
    ensures var e := Fetch(pre, urlString, now, updateInterval, result, env);
      && (forall k :: 0 <= k < |e.0| ==> !e.0[k].Send?)
      && e.0[|e.0| - 1] == Deliver(FromRecord(pre.(sourceUrl := urlString), env.parse), Some(MalformedUrlError(urlString)))
  {
  }

  /** The session answers each kind of request with its own kind of response. */
  predicate Answers(request: Request, payload: Payload) {
    match request
    case YoutubeEmbedRequest(_) => payload.YoutubeResponse?
    case HtmlRequest(_) => payload.HtmlResponse?
  }

  /** On success the updated record is saved before it is delivered, and it is
      delivered only when the task has not expired. */
  lemma SuccessSavesThenDelivers(pre: Record, urlString: string, now: int, updateInterval: int, payload: Payload, isExpired: bool, env: Env)
    requires !(IsPopulated(pre) && IsFresh(pre, now, updateInterval))
    requires env.parse(urlString).Some? && Route(env.parse(urlString).value, env).Some?
    requires Answers(Route(env.parse(urlString).value, env).value, payload)
    ensures var e := Fetch(pre, urlString, now, updateInterval, Success(payload, isExpired), env);
      var updated := env.setValue(pre.(sourceUrl := urlString), payload);
      var request := Route(env.parse(urlString).value, env).value;
      var cached := if IsPopulated(pre) then [Deliver(FromRecord(pre, env.parse), None)] else [];
      && e.1 == updated
      && e.0 == cached + [Send(request), Save(updated)] + (if isExpired then [] else [Deliver(FromRecord(updated, env.parse), None)])
  {
  }

  /** A failed request never delivers an error: it re-delivers the stamped
      record when the task has not expired, and nothing otherwise. */
  lemma FailureNeverDeliversError(pre: Record, urlString: string, now: int, updateInterval: int, isExpired: bool, env: Env)
    requires !(IsPopulated(pre) && IsFresh(pre, now, updateInterval))
    requires env.parse(urlString).Some? && Route(env.parse(urlString).value, env).Some?
    ensures var e := Fetch(pre, urlString, now, updateInterval, Failure(isExpired), env);
      var stamped := pre.(sourceUrl := urlString);
      var cached := if IsPopulated(pre) then [Deliver(FromRecord(pre, env.parse), None)] else [];
      && e.1 == stamped
      && e.0 == cached + [Send(Route(env.parse(urlString).value, env).value)] +
                (if isExpired then [] else [Deliver(FromRecord(stamped, env.parse), None)])
      && forall k :: 0 <= k < |e.0| && e.0[k].Deliver? ==> e.0[k].error == None
  {
  }

  /** A reference seen for the first time is never answered from the cache. */
  lemma NewRecordIsRefreshed(urlString: string, now: int, updateInterval: int, result: SessionResult, env: Env)
    ensures var e := Fetch(EmptyRecord, urlString, now, updateInterval, result, env);
      var stamped := EmptyRecord.(sourceUrl := urlString);
      if env.parse(urlString).Some? && Route(env.parse(urlString).value, env).Some? && result.Success? then
        e.1 == env.setValue(stamped, result.payload)
      else e.1 == stamped
    ensures var e := Fetch(EmptyRecord, urlString, now, updateInterval, result, env);
      |e.0| > 0 && (e.0[0].Send? || e.0[0] == Deliver(FromRecord(EmptyRecord.(sourceUrl := urlString), env.parse), Some(MalformedUrlError(urlString))))
  {
  }

  // ---------------------------------------------------------------------------
  // Objects

  /** The stored record (`OGData`), updated in place. */
  class OGData {
    var imageUrl: string
    var pageDescription: string
    var pageTitle: string
    var pageType: string
    var siteName: string
    var sourceUrl: string
    var url: string
    var updateDate: int

    function Value(): Record
      reads this
    {
      Record(imageUrl, pageDescription, pageTitle, pageType, siteName, sourceUrl, url, updateDate)
    }

    /** A freshly inserted record. */
    constructor ()
      ensures Value() == EmptyRecord
    {
      imageUrl, pageDescription, pageTitle, pageType, siteName, sourceUrl, url := "", "", "", "", "", "", "";
      updateDate := 0;
    }

    /** Overwrites every attribute (the effect of `setValue`). */
    method Assign(rec: Record)
      modifies this
      ensures Value() == rec
    {
      imageUrl, pageDescription, pageTitle, pageType := rec.imageUrl, rec.pageDescription, rec.pageTitle, rec.pageType;
      siteName, sourceUrl, url, updateDate := rec.siteName, rec.sourceUrl, rec.url, rec.updateDate;
    }
  }

  datatype TaskState = Running | Expired(shouldContinueDownloading: bool)

  /** The handle a fetch returns; the caller may expire it. */
  class Task {
    var state: TaskState

    constructor ()
      ensures state == Running
    {
      state := Running;
    }

    /** Expiring is idempotent: only a running task changes state. */
    method Expire(shouldContinueDownloading: bool)
      modifies this
      ensures old(state) == Running ==> state == Expired(shouldContinueDownloading)
      ensures old(state) != Running ==> state == old(state)
    {
      if state == Running {
        state := Expired(shouldContinueDownloading);
      }
    }
  }

  /** The result of `deleteOGData(urlString:)`. */
  datatype DeleteOutcome = NotFound(error: NSError) | Delegated(record: OGData)

  /** The store without the entries that hold `rec`. */
  function Without(records: map<string, OGData>, rec: OGData): (r: map<string, OGData>)
    ensures forall k :: k in r <==> k in records && records[k] != rec
    ensures forall k :: k in r ==> r[k] == records[k]
  {
    map k | k in records && records[k] != rec :: records[k]
  }

  class OGDataProvider {
    var updateInterval: int
    /** The persistent store of records, keyed by reference. */
    var records: map<string, OGData>
    /** Every delivery, send and save, in order. */
    var log: seq<Event>

    constructor (updateInterval: int, records: map<string, OGData>)
      ensures this.updateInterval == updateInterval && this.records == records && log == []
    {
      this.updateInterval := updateInterval;
      this.records := records;
      log := [];
    }

    /** `OGData.fetchOrInsertOGData(url:)`: the stored record, or a new empty one. */
    method FetchOrInsert(urlString: string) returns (rec: OGData)
      modifies this`records
      ensures urlString in old(records) ==> rec == old(records[urlString]) && records == old(records)
      ensures urlString !in old(records) ==> fresh(rec) && rec.Value() == EmptyRecord && records == old(records)[urlString := rec]
    {
      if urlString in records {
        return records[urlString];
      }
      rec := new OGData();
      records := records[urlString := rec];
    }

    /** `fetchOGData(withURLString:completion:)` */
    method FetchOGData(urlString: string, now: int, result: SessionResult, env: Env) returns (task: Task)
      modifies this`records, this`log, if urlString in records then {records[urlString]} else {}
      ensures fresh(task) && task.state == Running
      ensures urlString in records
      ensures urlString in old(records) ==> records == old(records)
      ensures urlString !in old(records) ==> fresh(records[urlString]) && records == old(records)[urlString := records[urlString]]
      ensures var pre := if urlString in old(records) then old(records[urlString].Value()) else EmptyRecord;
        var e := Fetch(pre, urlString, now, updateInterval, result, env);
        log == old(log) + e.0 && records[urlString].Value() == e.1
    {
      var ogData := FetchOrInsert(urlString);
      task := new Task();
      Handle(ogData, urlString, now, result, env);
    }

    /** The `fetchOrInsertOGData` completion closure: answer from the cache,
        and refresh unless the cached record is fresh. */
    method Handle(ogData: OGData, urlString: string, now: int, result: SessionResult, env: Env)
      modifies this`log, ogData
      ensures var e := Fetch(old(ogData.Value()), urlString, now, updateInterval, result, env);
        log == old(log) + e.0 && ogData.Value() == e.1
    {
      if ogData.sourceUrl != "" {
        log := log + [Deliver(FromRecord(ogData.Value(), env.parse), None)];
        if Abs(ogData.updateDate - now) < updateInterval {
          return;
        }
      }
      RefreshRecord(ogData, urlString, result, env);
    }

    /** The refresh path after the freshness guard: stamp the reference,
        validate it, route it and send the request. */
    method RefreshRecord(ogData: OGData, urlString: string, result: SessionResult, env: Env)
      modifies this`log, ogData
      ensures var e := Refresh(old(ogData.Value()), urlString, result, env);
        log == old(log) + e.0 && ogData.Value() == e.1
    {
      ogData.sourceUrl := urlString;
      var parsed := env.parse(urlString);
      if parsed.None? {
        log := log + [Deliver(FromRecord(ogData.Value(), env.parse), Some(MalformedUrlError(urlString)))];
        return;
      }
      var url := parsed.value;
      var request: Request;
      if IsYoutube(url, env.host) {
        var endpoint := env.youtubeEmbed(url);
        if endpoint.None? {
          log := log + [Deliver(FromRecord(ogData.Value(), env.parse), Some(MalformedUrlError(urlString)))];
          return;
        }
        request := YoutubeEmbedRequest(endpoint.value);
      } else {
        request := HtmlRequest(url);
      }
      log := log + [Send(request)];
      HandleResponse(ogData, result, env);
    }

    /** The session's `success` and `failure` closures. */
    method HandleResponse(ogData: OGData, result: SessionResult, env: Env)
      modifies this`log, ogData
      ensures var e := Respond(old(ogData.Value()), result, env);
        log == old(log) + e.0 && ogData.Value() == e.1
    {
      match result {
        case Success(payload, isExpired) =>
          ogData.Assign(env.setValue(ogData.Value(), payload));
          log := log + [Save(ogData.Value())];
          if !isExpired {
            log := log + [Deliver(FromRecord(ogData.Value(), env.parse), None)];
          }
        case Failure(isExpired) =>
          if !isExpired {
            log := log + [Deliver(FromRecord(ogData.Value(), env.parse), None)];
          }
      }
    }

    /** `deleteOGData(urlString:completion:)`: an error when nothing matches,
        otherwise the record delete. */
    method DeleteOGData(urlString: string) returns (outcome: DeleteOutcome)
      modifies this`records
      ensures urlString !in old(records) ==> outcome == NotFound(NoMatchError(urlString)) && records == old(records)
      ensures urlString in old(records) ==>
        outcome == Delegated(old(records[urlString])) && records == Without(old(records), old(records[urlString]))
    {
      if urlString !in records {
        return NotFound(NoMatchError(urlString));
      }
      var ogData := records[urlString];
      DeleteRecord(ogData);
      return Delegated(ogData);
    }

    /** `deleteOGData(_:completion:)`: removes the record from the store. */
    method DeleteRecord(ogData: OGData)
      modifies this`records
      ensures records == Without(old(records), ogData)
    {
      records := Without(records, ogData);
    }

    /** `cancelLoading(_:shouldContinueDownloading:)` */
    method CancelLoading(task: Task, shouldContinueDownloading: bool)
      modifies task
      ensures old(task.state) == Running ==> task.state == Expired(shouldContinueDownloading)
      ensures old(task.state) != Running ==> task.state == old(task.state)
    {
      task.Expire(shouldContinueDownloading);
    }
  }
}
