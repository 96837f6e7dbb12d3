/**
 * The LiteLLM gateway client of src/commands/lite_llm.py, with the HTTP
 * transport taken out: every exchange the client would perform is an input
 * Response, and every operation is a function of those responses. The
 * requests an operation issues are returned alongside its result, so that
 * "no POST is made" is a statement about the result.
 */
module LiteLlm {
  import opened Wrappers
  import opened Json

  /** The client's two attributes, written once at construction. */
  datatype Client = Client(baseUrl: string, headers: map<string, string>)

  /** A request the client issues. PostShow is POST f"{apiBase}/api/show" with JSON body {"model": model} and no headers. */
  datatype Request =
    | Get(url: string, headers: map<string, string>)
    | PostShow(apiBase: Json, model: string)

  /** The outcome of one HTTP exchange: a transport exception, or a status with a body that decodes as JSON (Some) or not (None). */
  datatype Response = TransportError | Http(status: int, body: Option<Json>)

  /** What get_model_info and get_ollama_model_info return, with the requests they issued, in order. */
  datatype InfoOutcome = InfoOutcome(info: Json, requests: seq<Request>)

  /** Result of the `next(...)` scan over the `/model/info` entries. */
  datatype Scan = Found(index: nat) | NotFound | Raised

  const OllamaPrefix := "ollama/"

  predicate EndsWithSlash(s: string) {
    |s| > 0 && s[|s| - 1] == '/'
  }

  /** str.rstrip("/"): removes every trailing slash. */
  function RStripSlashes(s: string): (r: string)
    ensures r <= s && !EndsWithSlash(r)
    ensures forall i :: |r| <= i < |s| ==> s[i] == '/'
    decreases |s|
  {
    if EndsWithSlash(s) then RStripSlashes(s[..|s| - 1]) else s
  }

  /** The prefix described by RStripSlashes's contract is unique, so the contract pins the result. */
  lemma RStripSlashesUnique(s: string, r: string)
    requires r <= s && !EndsWithSlash(r)
    requires forall i :: |r| <= i < |s| ==> s[i] == '/'
    ensures r == RStripSlashes(s)
  {
    var t := RStripSlashes(s);
    // Neither can stop inside the other's run of trailing slashes.
    assert t == [] || s[|t| - 1] == t[|t| - 1];
    assert r == [] || s[|r| - 1] == r[|r| - 1];
    assert |r| == |t|;
    assert r == s[..|r|] && t == s[..|t|];
  }

  /** Normalising twice is the same as once. */
  lemma RStripSlashesIdempotent(s: string)
    ensures RStripSlashes(RStripSlashes(s)) == RStripSlashes(s)
  {
  }

  /** LiteLLM(url, api_key). */
  function NewClient(url: string, apiKey: string): (c: Client)
    ensures !EndsWithSlash(c.baseUrl) && c.baseUrl <= url
    ensures forall i :: |c.baseUrl| <= i < |url| ==> url[i] == '/'
    ensures c.headers.Keys == {"Content-Type", "Authorization"}
    ensures c.headers["Content-Type"] == "application/json"
    ensures c.headers["Authorization"] == "Bearer " + apiKey
  {
    Client(RStripSlashes(url),
           map["Content-Type" := "application/json", "Authorization" := "Bearer " + apiKey])
  }

  /** is_reachable's GET of the base URL, sent without the client's headers. */
  function ReachabilityRequest(c: Client): Request {
    Get(c.baseUrl, map[])
  }

  /** list_models' GET of `/models`. */
  function ModelsRequest(c: Client): Request {
    Get(c.baseUrl + "/models", c.headers)
  }

  /** get_model_info's GET of `/model/info`. */
  function ModelInfoRequest(c: Client): Request {
    Get(c.baseUrl + "/model/info", c.headers)
  }

  /** Every data request of a client goes below its base URL and carries its bearer credential. */
  lemma DataRequestsAuthorized(url: string, apiKey: string)
    ensures var c := NewClient(url, apiKey);
      && ModelsRequest(c).url == RStripSlashes(url) + "/models"
      && ModelInfoRequest(c).url == RStripSlashes(url) + "/model/info"
      && ModelsRequest(c).headers["Authorization"] == "Bearer " + apiKey
      && ModelInfoRequest(c).headers["Authorization"] == "Bearer " + apiKey
      && ReachabilityRequest(c).headers == map[]
  {
  }

  /** requests' raise_for_status raises for client (4xx) and server (5xx) errors only. */
  predicate RaisesForStatus(status: int)
    ensures status < 400 || 600 <= status ==> !RaisesForStatus(status)
    ensures RaisesForStatus(status) ==> status != 200
  {
    400 <= status < 600
  }

  /** `res.raise_for_status(); res.json()`: the decoded body, or None when any step raises. */
  function Payload(resp: Response): (r: Option<Json>)
    ensures r.Some? ==> resp.Http? && !RaisesForStatus(resp.status) && resp.body == r
    ensures resp.Http? && !RaisesForStatus(resp.status) ==> r == resp.body
  {
    match resp
    case TransportError => None
    case Http(status, body) => if RaisesForStatus(status) then None else body
  }

  /** The `data` member of a dict payload, when there is one. */
  function DataOf(resp: Response): (r: Option<Json>)
    ensures r.Some? ==> Payload(resp).Some? && Payload(resp).value.JObj?
    ensures Payload(resp).Some? && Payload(resp).value.JObj? && "data" in Payload(resp).value.fields ==>
      r == Some(Payload(resp).value.fields["data"])
  {
    match Payload(resp)
    case Some(JObj(m)) => if "data" in m then Some(m["data"]) else None
    case _ => None
  }

  /** is_reachable: a transport error and every status other than 200 give false. */
  function IsReachable(resp: Response): (ok: bool)
    ensures ok <==> resp.Http? && resp.status == 200
    ensures ok ==> Payload(resp) == resp.body
  {
    match resp
    case TransportError => false
    case Http(status, _) => status == 200
  }

  predicate HasId(item: Json) {
    GetItem(item, Field("id")).Some?
  }

  /** ids[i] is the `id` of items[i], for every i. */
  predicate IdsOf(items: seq<Json>, ids: seq<Json>) {
    |ids| == |items| && forall i :: 0 <= i < |items| ==> GetItem(items[i], Field("id")) == Some(ids[i])
  }

  /** `[item["id"] for item in data]`: every id in order, or None when any item raises. */
  function CollectIds(items: seq<Json>): (r: Option<seq<Json>>)
    ensures r.Some? <==> forall i :: 0 <= i < |items| ==> HasId(items[i])
    ensures r.Some? ==> IdsOf(items, r.value)
    decreases |items|
  {
    if items == [] then Some([])
    else
      match GetItem(items[0], Field("id"))
      case None => None
      case Some(id) =>
        match CollectIds(items[1..])
        case None => None
        case Some(rest) => Some([id] + rest)
  }

  /**
   * list_models. A missing `data` defaults to `{}`; iterating a dict yields
   * its keys and a string its characters, and subscripting either by "id"
   * raises, as does iterating a scalar, so only an array can give ids.
   */
  function ListModels(resp: Response): (ids: seq<Json>)
    ensures ids != [] ==> DataOf(resp).Some? && DataOf(resp).value.JArr? && IdsOf(DataOf(resp).value.items, ids)
    ensures DataOf(resp).Some? && DataOf(resp).value.JArr?
            && (forall i :: 0 <= i < |DataOf(resp).value.items| ==> HasId(DataOf(resp).value.items[i]))
            ==> IdsOf(DataOf(resp).value.items, ids)
  {
    match Payload(resp)
    case None => []
    case Some(doc) =>
      match DictGet(doc, "data", EmptyObject)
      case None => []
      case Some(JArr(items)) =>
        (match CollectIds(items)
         case Some(ids) => ids
         case None => [])
      case Some(_) => []
  }

  /** One entry without an `id` voids the whole list, not just that entry. */
  lemma MissingIdVoidsList(resp: Response, k: nat)
    requires DataOf(resp).Some? && DataOf(resp).value.JArr?
    requires k < |DataOf(resp).value.items| && !HasId(DataOf(resp).value.items[k])
    ensures ListModels(resp) == []
  {
    var ids := ListModels(resp);
    assert ids != [] ==> IdsOf(DataOf(resp).value.items, ids);
  }

  /** is_available(name) is `name in list_models()`. */
  function IsAvailable(name: string, resp: Response): (ok: bool)
    ensures ok ==> resp.Http? && !RaisesForStatus(resp.status)
    ensures ok ==>
      && DataOf(resp).Some? && DataOf(resp).value.JArr?
      && exists i :: 0 <= i < |DataOf(resp).value.items| && GetItem(DataOf(resp).value.items[i], Field("id")) == Some(JStr(name))
  {
    JStr(name) in ListModels(resp)
  }

  /** A model is available iff the listing is well formed and some entry's id is the name. */
  lemma IsAvailableIff(name: string, resp: Response)
    ensures IsAvailable(name, resp) <==>
      && DataOf(resp).Some? && DataOf(resp).value.JArr?
      && (forall i :: 0 <= i < |DataOf(resp).value.items| ==> HasId(DataOf(resp).value.items[i]))
      && exists i :: 0 <= i < |DataOf(resp).value.items| && GetItem(DataOf(resp).value.items[i], Field("id")) == Some(JStr(name))
  {
    var ids := ListModels(resp);
    if IsAvailable(name, resp) {
      var i :| 0 <= i < |ids| && ids[i] == JStr(name);
      var items := DataOf(resp).value.items;
      assert GetItem(items[i], Field("id")) == Some(JStr(name));
      forall j | 0 <= j < |items| ensures HasId(items[j]) {
        assert GetItem(items[j], Field("id")) == Some(ids[j]);
      }
    } else if DataOf(resp).Some? && DataOf(resp).value.JArr? {
      var items := DataOf(resp).value.items;
      forall i | 0 <= i < |items| && (forall j :: 0 <= j < |items| ==> HasId(items[j]))
        ensures GetItem(items[i], Field("id")) != Some(JStr(name))
      {
        assert GetItem(items[i], Field("id")) == Some(ids[i]);
      }
    }
  }

  /** A failed list fetch makes every model unavailable. */
  lemma UnavailableWhenFetchFails(name: string, resp: Response)
    requires Payload(resp).None?
    ensures !IsAvailable(name, resp)
  {
  }

  /** `item["model_name"]`. */
  function NameOf(item: Json): Option<Json> {
    GetItem(item, Field("model_name"))
  }

  /** The generator's test on item evaluates without raising and is false. */
  predicate Misses(item: Json, name: string) {
    NameOf(item).Some? && NameOf(item).value != JStr(name)
  }

  /** `next((item for item in data if item["model_name"] == name), None)` over a list. */
  function FindModel(items: seq<Json>, name: string): (r: Scan)
    ensures r.Found? ==>
      && r.index < |items| && NameOf(items[r.index]) == Some(JStr(name))
      && forall j :: 0 <= j < r.index ==> Misses(items[j], name)
    ensures r.NotFound? ==> forall j :: 0 <= j < |items| ==> Misses(items[j], name)
    ensures r.Raised? ==>
      exists k :: 0 <= k < |items| && NameOf(items[k]).None? && forall j :: 0 <= j < k ==> Misses(items[j], name)
    decreases |items|
  {
    if items == [] then NotFound
    else
      match NameOf(items[0])
      case None => Raised
      case Some(n) =>
        if n == JStr(name) then Found(0)
        else
          match FindModel(items[1..], name)
          case Found(k) => Found(k + 1)
          case NotFound => NotFound
          case Raised =>
            var k :| 0 <= k < |items[1..]| && NameOf(items[1..][k]).None?
                     && forall j :: 0 <= j < k ==> Misses(items[1..][j], name);
            assert NameOf(items[k + 1]).None?;
            Raised
  }

  /** The first entry named `name`, preceded only by entries with other names, is the one the scan finds. */
  lemma {:induction false} FirstMatchFound(items: seq<Json>, name: string, k: nat)
    requires k < |items| && NameOf(items[k]) == Some(JStr(name))
    requires forall j :: 0 <= j < k ==> Misses(items[j], name)
    ensures FindModel(items, name) == Found(k)
    decreases k
  {
    if k > 0 {
      assert Misses(items[0], name);
      FirstMatchFound(items[1..], name, k - 1);
    }
  }

  /** An entry without `model_name`, preceded only by entries with other names, makes the scan raise. */
  lemma {:induction false} FirstUnnamedRaises(items: seq<Json>, name: string, k: nat)
    requires k < |items| && NameOf(items[k]).None?
    requires forall j :: 0 <= j < k ==> Misses(items[j], name)
    ensures FindModel(items, name) == Raised
    decreases k
  {
    if k > 0 {
      assert Misses(items[0], name);
      FirstUnnamedRaises(items[1..], name, k - 1);
    }
  }

  /** The scan over whatever `data` holds: keys of a dict and characters of a string raise when subscripted, scalars are not iterable. */
  function ScanData(data: Json, name: string): (r: Scan)
    ensures r.Found? ==> data.JArr? && r == FindModel(data.items, name)
  {
    match data
    case JArr(items) => FindModel(items, name)
    case JObj(m) => if m == map[] then NotFound else Raised
    case JStr(s) => if s == [] then NotFound else Raised
    case _ => Raised
  }

  function StartsWith(s: string, prefix: string): bool {
    prefix <= s
  }

  /** str.removeprefix: removes one leading copy of prefix, if present. */
  function RemovePrefix(s: string, prefix: string): (r: string)
    ensures StartsWith(s, prefix) ==> prefix + r == s
    ensures !StartsWith(s, prefix) ==> r == s
  {
    if StartsWith(s, prefix) then s[|prefix|..] else s
  }

  /**
   * get_ollama_model_info(name, params), with `show` the response to the POST.
   * A params value that is not a dict makes `.get` raise; a missing or falsy
   * `api_base` returns `{}` before posting.
   */
  function OllamaModelInfo(name: string, params: Json, show: Response): (r: InfoOutcome)
    ensures |r.requests| <= 1
    ensures r.requests != [] ==> r.requests[0].PostShow? && PostedName(name, r.requests[0].model)
    ensures r.requests == [] ==> r.info == EmptyObject
  {
    match DictGet(params, "api_base", JNull)
    case None => InfoOutcome(EmptyObject, [])
    case Some(apiBase) =>
      if !Truthy(apiBase) then InfoOutcome(EmptyObject, [])
      else
        var post := PostShow(apiBase, RemovePrefix(name, OllamaPrefix));
        match Payload(show)
        case None => InfoOutcome(EmptyObject, [post])
        case Some(doc) =>
          match GetItem(doc, Field("model_info"))
          case Some(info) => InfoOutcome(info, [post])
          case None => InfoOutcome(EmptyObject, [post])
  }

  /** The name posted is the given name with at most one leading "ollama/" removed. */
  predicate PostedName(name: string, posted: string) {
    if StartsWith(name, OllamaPrefix) then OllamaPrefix + posted == name else posted == name
  }

  /** api_base is present and truthy in a dict of parameters. */
  predicate HasApiBase(params: Json) {
    params.JObj? && "api_base" in params.fields && Truthy(params.fields["api_base"])
  }

  /** Without an api_base, nothing is posted and the answer is `{}`. */
  lemma OllamaWithoutApiBase(name: string, params: Json, show: Response)
    requires !HasApiBase(params)
    ensures OllamaModelInfo(name, params, show) == InfoOutcome(EmptyObject, [])
  {
  }

  /** With an api_base, exactly one POST is made, and the answer is its `model_info`, or `{}` when that is missing or the POST fails. */
  lemma OllamaWithApiBase(name: string, params: Json, show: Response)
    requires HasApiBase(params)
    ensures var r := OllamaModelInfo(name, params, show);
      && r.requests == [PostShow(params.fields["api_base"], RemovePrefix(name, OllamaPrefix))]
      && r.info == (match Payload(show)
                    case Some(doc) => (match GetItem(doc, Field("model_info")) case Some(info) => info case None => EmptyObject)
                    case None => EmptyObject)
  {
  }

  /**
   * get_model_info(name), with `info` the response to the GET of `/model/info`
   * and `show` the response to the POST it may delegate. A missing `data`
   * defaults to `[]`.
   */
  function GetModelInfo(c: Client, name: string, info: Response, show: Response): (r: InfoOutcome)
    ensures |r.requests| >= 1 && r.requests[0] == ModelInfoRequest(c)
    ensures |r.requests| > 1 ==> StartsWith(name, OllamaPrefix)
  {
    var asked := [ModelInfoRequest(c)];
    match Payload(info)
    case None => InfoOutcome(EmptyObject, asked)
    case Some(doc) =>
      match DictGet(doc, "data", JArr([]))
      case None => InfoOutcome(EmptyObject, asked)
      case Some(data) =>
        match ScanData(data, name)
        case Found(k) =>
          var item := data.items[k];
          if !Truthy(item) then InfoOutcome(EmptyObject, asked)
          else
            (match (DictGet(item, "litellm_params", EmptyObject), DictGet(item, "model_info", EmptyObject))
             case (Some(params), Some(modelInfo)) =>
               if StartsWith(name, OllamaPrefix) then
                 var delegated := OllamaModelInfo(name, params, show);
                 InfoOutcome(delegated.info, asked + delegated.requests)
               else InfoOutcome(modelInfo, asked)
             case _ => InfoOutcome(EmptyObject, asked))
        case NotFound => InfoOutcome(EmptyObject, asked)
        case Raised => InfoOutcome(EmptyObject, asked)
  }

  /** No entry named `name` (or a failed fetch) gives `{}`, with no POST. */
  lemma GetModelInfoNoMatch(c: Client, name: string, info: Response, show: Response)
    requires DataOf(info).Some? && DataOf(info).value.JArr? ==>
      forall k :: 0 <= k < |DataOf(info).value.items| ==> NameOf(DataOf(info).value.items[k]) != Some(JStr(name))
    ensures GetModelInfo(c, name, info, show) == InfoOutcome(EmptyObject, [ModelInfoRequest(c)])
  {
  }

  /**
   * An entry without `model_name` ahead of every entry named `name` makes the
   * scan raise; the exception handler answers `{}`, with no POST.
   */
  lemma GetModelInfoUnnamedEntry(c: Client, name: string, info: Response, show: Response, k: nat)
    requires DataOf(info).Some? && DataOf(info).value.JArr?
    requires k < |DataOf(info).value.items| && NameOf(DataOf(info).value.items[k]).None?
    requires forall j :: 0 <= j < k ==> Misses(DataOf(info).value.items[j], name)
    ensures GetModelInfo(c, name, info, show) == InfoOutcome(EmptyObject, [ModelInfoRequest(c)])
  {
    FirstUnnamedRaises(DataOf(info).value.items, name, k);
  }

  /**
   * The first entry named `name` decides: a name starting with "ollama/" is
   * delegated with that entry's `litellm_params` (default `{}`); any other name
   * gets the entry's `model_info` (default `{}`).
   */
  lemma GetModelInfoFirstMatch(c: Client, name: string, info: Response, show: Response, k: nat)
    requires DataOf(info).Some? && DataOf(info).value.JArr?
    requires k < |DataOf(info).value.items|
    requires NameOf(DataOf(info).value.items[k]) == Some(JStr(name))
    requires forall j :: 0 <= j < k ==> Misses(DataOf(info).value.items[j], name)
    ensures var item := DataOf(info).value.items[k];
      var r := GetModelInfo(c, name, info, show);
      && item.JObj?
      && (StartsWith(name, OllamaPrefix) ==>
            var delegated := OllamaModelInfo(name, DictGet(item, "litellm_params", EmptyObject).value, show);
            r == InfoOutcome(delegated.info, [ModelInfoRequest(c)] + delegated.requests))
      && (!StartsWith(name, OllamaPrefix) ==>
            r == InfoOutcome(DictGet(item, "model_info", EmptyObject).value, [ModelInfoRequest(c)]))
  {
    var items := DataOf(info).value.items;
    FirstMatchFound(items, name, k);
    assert items[k].fields != map[] by {
      assert "model_name" in items[k].fields;
    }
  }
}
