/** The auto-connect configuration loader: the schema of `/autoconnect.json`
    and the three-way classification of one fetch of it. */
module AutoConnect {
  import opened Wrappers
  import opened JsonValues

  /** The one resource the loader requests. */
  const ConfigPath: string := "/autoconnect.json"

  /** The only transport the schema admits. */
  datatype Transport = Http

  /** The `autoConnect` object once the schema has accepted it. Unknown
      members are stripped, so this is all of it. */
  datatype Config = Config(transport: Transport, url: string)

  /** The JSON encoding of a transport kind. */
  function TransportName(t: Transport): string
  {
    match t
    case Http => "http"
  }

  /** What kind of violation the validator found. */
  datatype IssueCode =
    | InvalidType     // wrong JSON type, or the member is missing
    | InvalidLiteral  // `transport` is not the literal "http"
    | TooSmall        // `url` is the empty string

  /** One violation, located by the member path that leads to it. How the
      validator renders issues into a message is not modelled. */
  datatype Issue = Issue(path: seq<string>, code: IssueCode)

  // ---------------------------------------------------------------------
  // The schema, stated directly
  // ---------------------------------------------------------------------

  /** An object whose `transport` is the string "http" and whose `url` is a
      string of at least one character; any other members are allowed. */
  predicate IsConnectionObject(j: Json)
  {
    && j.JObject?
    && "transport" in j.members
    && j.members["transport"] == JString("http")
    && "url" in j.members
    && j.members["url"].JString?
    && |j.members["url"].s| >= 1
  }

  /** A document the schema accepts: an object whose `autoConnect` member is
      a connection object. Other top-level members are allowed. */
  predicate ConformsToSchema(doc: Json)
  {
    doc.JObject? && "autoConnect" in doc.members && IsConnectionObject(doc.members["autoConnect"])
  }

  /** The `url` a conforming document carries. */
  function ConfiguredUrl(doc: Json): string
    requires ConformsToSchema(doc)
  {
    doc.members["autoConnect"].members["url"].s
  }

  /** The JSON document that describes `c`, with nothing else in it. */
  function Encode(c: Config): Json
  {
    JObject(map["autoConnect" := JObject(map["transport" := JString(TransportName(c.transport)),
                                            "url" := JString(c.url)])])
  }

  // ---------------------------------------------------------------------
  // The validator: every member is checked and all issues are collected
  // ---------------------------------------------------------------------

  /** The issues of a result; none for a success. */
  function IssuesOf<T>(r: Result<T, seq<Issue>>): seq<Issue>
  {
    match r
    case Success(_) => []
    case Failure(issues) => issues
  }

  /** The literal check on `transport`: a missing member fails it too. */
  function ParseTransport(v: Option<Json>, path: seq<string>): (r: Result<Transport, seq<Issue>>)
    ensures r.Success? <==> v == Some(JString("http"))
    ensures r.Failure? ==> r.error == [Issue(path, InvalidLiteral)]
  {
    if v == Some(JString("http")) then Success(Http) else Failure([Issue(path, InvalidLiteral)])
  }

  /** The string-of-length-at-least-one check on `url`. */
  function ParseUrl(v: Option<Json>, path: seq<string>): (r: Result<string, seq<Issue>>)
    ensures r.Success? <==> v.Some? && v.value.JString? && |v.value.s| >= 1
    ensures r.Success? ==> r.value == v.value.s
    ensures r.Failure? ==> |r.error| == 1 && r.error[0].path == path
  {
    match v
    case Some(JString(s)) => if |s| >= 1 then Success(s) else Failure([Issue(path, TooSmall)])
    case _ => Failure([Issue(path, InvalidType)])
  }

  /** The inner object check: both members are checked before failing. */
  function ParseConnection(v: Option<Json>, path: seq<string>): (r: Result<Config, seq<Issue>>)
    ensures r.Success? <==> v.Some? && IsConnectionObject(v.value)
    ensures r.Success? ==> r.value == Config(Http, v.value.members["url"].s)
    ensures r.Failure? ==> |r.error| >= 1
  {
    if v.None? || !v.value.JObject? then
      Failure([Issue(path, InvalidType)])
    else
      var transport := ParseTransport(Member(v.value, "transport"), path + ["transport"]);
      var url := ParseUrl(Member(v.value, "url"), path + ["url"]);
      if transport.Success? && url.Success? then
        Success(Config(transport.value, url.value))
      else
        Failure(IssuesOf(transport) + IssuesOf(url))
  }

  /** Schema validation of a whole document, returning the `autoConnect`
      object on success. */
  function ParseDocument(doc: Json): (r: Result<Config, seq<Issue>>)
    ensures r.Success? <==> ConformsToSchema(doc)
    ensures r.Success? ==> r.value == Config(Http, ConfiguredUrl(doc)) && |r.value.url| >= 1
    ensures r.Failure? ==> |r.error| >= 1
  {
    if !doc.JObject? then Failure([Issue([], InvalidType)])
    else ParseConnection(Member(doc, "autoConnect"), ["autoConnect"])
  }

  // ---------------------------------------------------------------------
  // One fetch and its classification
  // ---------------------------------------------------------------------

  /** What `response.json()` produced: a syntax error or a document. */
  datatype Body = Unparseable | Parsed(doc: Json)

  /** What `fetch` produced: a rejection, or a response with its ok flag and
      the body it would parse to. */
  datatype FetchResult = NetworkError | Response(ok: bool, body: Body)

  /** What the try block can raise. Only the validator's error carries
      `issues`. */
  datatype Raised = FetchRejected | JsonSyntaxError | ValidationError(issues: seq<Issue>)

  /** How the try block ends: it returns a value or raises. */
  datatype Completion = Returned(value: Option<Config>) | Raises(raised: Raised)

  /** The try block: fetch, bail out with null on a non-ok status, parse the
      body, validate it. */
  function TryBlock(response: FetchResult): (r: Completion)
    ensures r == Returned(None) <==> response.Response? && !response.ok
    ensures r.Returned? && r.value.Some?
            <==> response.Response? && response.ok && response.body.Parsed? && ConformsToSchema(response.body.doc)
    ensures r.Raises? && HasIssues(r.raised)
            <==> response.Response? && response.ok && response.body.Parsed? && !ConformsToSchema(response.body.doc)
  {
    match response
    case NetworkError => Raises(FetchRejected)
    case Response(ok, body) =>
      if !ok then Returned(None)
      else
        match body
        case Unparseable => Raises(JsonSyntaxError)
        case Parsed(doc) =>
          match ParseDocument(doc)
          case Success(c) => Returned(Some(c))
          case Failure(issues) => Raises(ValidationError(issues))
  }

  /** The catch block's test: does the raised value carry `issues`? */
  predicate HasIssues(e: Raised)
  {
    e.ValidationError?
  }

  /** The three ways a load can end. */
  datatype LoadOutcome = Absent | Valid(config: Config) | Invalid(issues: seq<Issue>)

  /** The classification the loader makes: anything raised without `issues`
      is swallowed into Absent, a validation error is Invalid. */
  function Classify(response: FetchResult): (r: LoadOutcome)
    ensures r.Absent? <==> response.NetworkError? || !response.ok || response.body.Unparseable?
    ensures r.Valid? <==> response.Response? && response.ok && response.body.Parsed?
                          && ConformsToSchema(response.body.doc)
    ensures r.Valid? ==> r.config == Config(Http, ConfiguredUrl(response.body.doc))
    ensures r.Invalid? ==> |r.issues| >= 1
  {
    match TryBlock(response)
    case Returned(None) => Absent
    case Returned(Some(c)) => Valid(c)
    case Raises(e) => if HasIssues(e) then Invalid(e.issues) else Absent
  }

  // ---------------------------------------------------------------------
  // The loader as its caller sees it
  // ---------------------------------------------------------------------

  /** A thrown JavaScript value: an `Error` with its message, or anything
      else. */
  datatype Thrown = ErrorWithMessage(message: string) | NonError

  /** How the loader's promise settles: resolved with a config or null, or
      rejected with a thrown value. */
  datatype Settled = Resolved(config: Option<Config>) | Rejected(thrown: Thrown)

  /** One call of the loader: the paths it fetched and how it settled. */
  datatype LoaderCall = LoaderCall(requests: seq<string>, settled: Settled)

  /** `loadAutoConnectConfig()`, given the response to its one request. The
      rethrown validation error is an `Error` whose message `render` builds
      from the issues. */
  function LoadAutoConnectConfig(response: FetchResult, render: seq<Issue> -> string): (call: LoaderCall)
    ensures call.requests == [ConfigPath]
    ensures call.settled == Resolved(None)
            <==> response.NetworkError? || !response.ok || response.body.Unparseable?
    ensures call.settled.Resolved? && call.settled.config.Some?
            <==> response.Response? && response.ok && response.body.Parsed?
                 && ConformsToSchema(response.body.doc)
    ensures call.settled.Resolved? && call.settled.config.Some?
            ==> call.settled.config.value.url == ConfiguredUrl(response.body.doc)
    ensures call.settled.Rejected?
            <==> response.Response? && response.ok && response.body.Parsed?
                 && !ConformsToSchema(response.body.doc)
    ensures call.settled.Rejected? ==>
              call.settled.thrown == ErrorWithMessage(render(Classify(response).issues))
  {
    var settled :=
      match Classify(response)
      case Absent => Resolved(None)
      case Valid(c) => Resolved(Some(c))
      case Invalid(issues) => Rejected(ErrorWithMessage(render(issues)));
    LoaderCall([ConfigPath], settled)
  }

  // ---------------------------------------------------------------------
  // Properties of the loader
  // ---------------------------------------------------------------------

  /** Encoding a config with a non-empty url and validating it gives the
      config back. */
  lemma EncodeParseRoundTrip(c: Config)
    requires |c.url| >= 1
    ensures ParseDocument(Encode(c)) == Success(c)
  {
    var inner := Encode(c).members["autoConnect"];
    assert Member(Encode(c), "autoConnect") == Some(inner);
    assert Member(inner, "transport") == Some(JString("http"));
    assert Member(inner, "url") == Some(JString(c.url));
    assert c == Config(Http, c.url);
  }

  /** A non-ok response is Absent whatever its body would have parsed to: the
      body is never read. */
  lemma NotOkNeverReadsBody(b1: Body, b2: Body)
    ensures Classify(Response(false, b1)) == Classify(Response(false, b2)) == Absent
  {
  }

  /** A `transport` other than "http" in an otherwise readable document is a
      validation error located at `autoConnect.transport`. */
  lemma WrongTransportIsInvalid(doc: Json)
    requires doc.JObject? && "autoConnect" in doc.members
    requires doc.members["autoConnect"].JObject?
    requires Member(doc.members["autoConnect"], "transport") != Some(JString("http"))
    ensures Classify(Response(true, Parsed(doc))).Invalid?
    ensures Issue(["autoConnect", "transport"], InvalidLiteral) in Classify(Response(true, Parsed(doc))).issues
  {
    var inner := doc.members["autoConnect"];
    var t := ParseTransport(Member(inner, "transport"), ["autoConnect"] + ["transport"]);
    var u := ParseUrl(Member(inner, "url"), ["autoConnect"] + ["url"]);
    assert ["autoConnect"] + ["transport"] == ["autoConnect", "transport"];
    assert ParseConnection(Member(doc, "autoConnect"), ["autoConnect"]) == Failure(IssuesOf(t) + IssuesOf(u));
    assert (IssuesOf(t) + IssuesOf(u))[0] == Issue(["autoConnect", "transport"], InvalidLiteral);
  }

  /** A missing, non-string or empty `url` in an otherwise readable document
      is a validation error located at `autoConnect.url`. */
  lemma BadUrlIsInvalid(doc: Json)
    requires doc.JObject? && "autoConnect" in doc.members
    requires doc.members["autoConnect"].JObject?
    requires var u := Member(doc.members["autoConnect"], "url");
             u.None? || !u.value.JString? || u.value.s == ""
    ensures Classify(Response(true, Parsed(doc))).Invalid?
    ensures exists i :: 0 <= i < |Classify(Response(true, Parsed(doc))).issues|
                        && Classify(Response(true, Parsed(doc))).issues[i].path == ["autoConnect", "url"]
  {
    var inner := doc.members["autoConnect"];
    var t := ParseTransport(Member(inner, "transport"), ["autoConnect"] + ["transport"]);
    var u := ParseUrl(Member(inner, "url"), ["autoConnect"] + ["url"]);
    assert ["autoConnect"] + ["url"] == ["autoConnect", "url"];
    var issues := IssuesOf(t) + IssuesOf(u);
    assert ParseConnection(Member(doc, "autoConnect"), ["autoConnect"]) == Failure(issues);
    assert issues[|IssuesOf(t)|] == u.error[0];
  }

  /** A document without an `autoConnect` object is a validation error, not
      an absent configuration. */
  lemma MissingAutoConnectIsInvalid(doc: Json)
    requires Member(doc, "autoConnect").None? || !Member(doc, "autoConnect").value.JObject?
    ensures Classify(Response(true, Parsed(doc))) ==
            Invalid([Issue(if doc.JObject? then ["autoConnect"] else [], InvalidType)])
  {
  }

  /** A body that is not JSON is classified as absent, not invalid. */
  lemma SyntaxErrorIsAbsent()
    ensures Classify(Response(true, Unparseable)) == Absent
  {
  }

  /** Members outside the schema are ignored, at the top level and inside
      the `autoConnect` object. */
  lemma ExtraMembersIgnored(doc: Json, key: string, value: Json)
    requires doc.JObject?
    ensures key != "autoConnect" ==>
              ParseDocument(JObject(doc.members[key := value])) == ParseDocument(doc)
    ensures "autoConnect" in doc.members && doc.members["autoConnect"].JObject?
            && key != "transport" && key != "url" ==>
              var inner := doc.members["autoConnect"];
              var widened := JObject(doc.members["autoConnect" := JObject(inner.members[key := value])]);
              ParseDocument(widened) == ParseDocument(doc)
  {
    if key != "autoConnect" {
      assert Member(JObject(doc.members[key := value]), "autoConnect") == Member(doc, "autoConnect");
    }
    if "autoConnect" in doc.members && doc.members["autoConnect"].JObject? && key != "transport" && key != "url" {
      var inner := doc.members["autoConnect"];
      var widenedInner := JObject(inner.members[key := value]);
      assert Member(widenedInner, "transport") == Member(inner, "transport");
      assert Member(widenedInner, "url") == Member(inner, "url");
    }
  }

  /** The well-formed example document loads as its `autoConnect` object. */
  lemma ExampleDocumentLoads()
    ensures Classify(Response(true, Parsed(Encode(Config(Http, "http://192.168.1.100")))))
            == Valid(Config(Http, "http://192.168.1.100"))
  {
    EncodeParseRoundTrip(Config(Http, "http://192.168.1.100"));
  }
}
