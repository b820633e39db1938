/**
 * The Express backend of backend/server.js as one pure function from a
 * request to a response: a health check, two constant fixtures, a contact
 * endpoint that checks three fields for truthiness, a 404 fallthrough and
 * an error handler that always answers 500.
 */
module Server {
  import opened Wrappers

  /** JavaScript values as they arrive in a parsed body and leave in a JSON response. */
  datatype Value =
    | Undefined
    | Null
    | Bool(b: bool)
    | Num(n: real)
    | Str(s: string)
    | Arr(items: seq<Value>)
    | Obj(fields: seq<(string, Value)>)

  /** JavaScript truthiness: `undefined`, `null`, `false`, `0` and `""` are falsy. */
  predicate Truthy(v: Value) {
    match v
    case Undefined => false
    case Null => false
    case Bool(b) => b
    case Num(n) => n != 0.0
    case Str(s) => s != ""
    case Arr(_) => true
    case Obj(_) => true
  }

  /**
   * `req.body` after the body parsers: the parsed properties, `undefined`
   * (newer body-parser releases leave it so when no parser matched the
   * request; Express 4's parsers set `{}` instead, and the Express version
   * is not fixed here), or a parse failure handed to `next(err)` with the
   * status the parser attached.
   */
  datatype Body = Parsed(props: map<string, Value>) | Unparsed | Malformed(status: int)

  /** `verb` is the HTTP method. */
  datatype Request = Request(verb: string, path: string, body: Body)

  datatype Response = Response(status: int, json: Value)

  /** What the contact handler logs. */
  datatype Submission = Submission(name: Value, email: Value, message: Value)

  datatype Handled = Handled(response: Response, logged: Option<Submission>)

  datatype Route = Health | About | Projects | Contact | NoRoute

  /** Which handler a request reaches; exact method and path equality. */
  function RouteOf(verb: string, path: string): (r: Route)
    ensures r == Contact <==> verb == "POST" && path == "/api/contact"
    ensures r == Projects <==> verb == "GET" && path == "/api/projects"
  {
    if verb == "GET" && path == "/health" then Health
    else if verb == "GET" && path == "/api/about" then About
    else if verb == "GET" && path == "/api/projects" then Projects
    else if verb == "POST" && path == "/api/contact" then Contact
    else NoRoute
  }

  function ErrorBody(message: string): Value {
    Obj([("error", Str(message))])
  }

  const InternalError := Response(500, ErrorBody("Internal server error"))
  const MissingFields := Response(400, ErrorBody("Missing required fields"))
  const NotFound := Response(404, ErrorBody("Endpoint not found"))
  const ContactAck := Response(200, Obj([("success", Bool(true)), ("message", Str("Message received. Will respond shortly!"))]))

  const AboutJson := Obj([
    ("name", Str("Daniyal Alidana")),
    ("title", Str("Full Stack Developer")),
    ("bio", Str("Building amazing web experiences")),
    ("contact", Obj([
      ("github", Str("https://github.com/daniyalalidana")),
      ("email", Str("your-email@example.com"))]))])

  const ProjectsJson := Arr([
    Obj([
      ("id", Num(1.0)),
      ("name", Str("Portfolio Website")),
      ("description", Str("Personal portfolio and blog")),
      ("technologies", Arr([Str("HTML"), Str("CSS"), Str("JavaScript")])),
      ("url", Str("https://daniyalalidana.github.io"))]),
    Obj([
      ("id", Num(2.0)),
      ("name", Str("Backend API")),
      ("description", Str("RESTful API for portfolio data")),
      ("technologies", Arr([Str("Node.js"), Str("Express")])),
      ("url", Null)])])

  /** The error-handling middleware: the error's own status is ignored. */
  function ErrorHandler(errorStatus: Option<int>): Response {
    InternalError
  }

  /** A property of the body object; a missing one reads as `undefined`. */
  function Prop(props: map<string, Value>, key: string): Value {
    if key in props then props[key] else Undefined
  }

  /** `const { name, email, message } = req.body` and the falsy check. */
  function ContactHandler(body: Body): (h: Handled)
    ensures body.Parsed? ==>
      (h.response == MissingFields <==>
        !Truthy(Prop(body.props, "name")) || !Truthy(Prop(body.props, "email")) || !Truthy(Prop(body.props, "message")))
    ensures h.logged.Some? <==> h.response == ContactAck
  {
    match body
    case Parsed(props) =>
      var name, email, message := Prop(props, "name"), Prop(props, "email"), Prop(props, "message");
      if !Truthy(name) || !Truthy(email) || !Truthy(message) then Handled(MissingFields, None)
      else Handled(ContactAck, Some(Submission(name, email, message)))
    // destructuring `undefined` throws, and Express hands the TypeError to the error handler
    case Unparsed => Handled(ErrorHandler(None), None)
    case Malformed(status) => Handled(ErrorHandler(Some(status)), None)
  }

  /** The whole application: body parsing, the four routes, the 404 and the error handler. */
  function Handle(req: Request, timestamp: string): (h: Handled)
    ensures req.body.Malformed? ==> h == Handled(InternalError, None)
    ensures h.logged.Some? ==> RouteOf(req.verb, req.path) == Contact && h.response == ContactAck
    ensures h.response.status == 400 <==> RouteOf(req.verb, req.path) == Contact && req.body.Parsed?
                                           && h.response == MissingFields
    ensures h.response.status in {200, 400, 404, 500}
  {
    if req.body.Malformed? then Handled(ErrorHandler(Some(req.body.status)), None)
    else match RouteOf(req.verb, req.path)
      case Health => Handled(Response(200, Obj([("status", Str("ok")), ("timestamp", Str(timestamp))])), None)
      case About => Handled(Response(200, AboutJson), None)
      case Projects => Handled(Response(200, ProjectsJson), None)
      case Contact => ContactHandler(req.body)
      case NoRoute => Handled(NotFound, None)
  }

  // ----- properties -----

  lemma ContactRejectedIffFalsy(props: map<string, Value>, timestamp: string)
    ensures var h := Handle(Request("POST", "/api/contact", Parsed(props)), timestamp);
      && (h.response == MissingFields <==>
           !Truthy(Prop(props, "name")) || !Truthy(Prop(props, "email")) || !Truthy(Prop(props, "message")))
      && (h.response == MissingFields ==> h.logged.None?)
  {
  }

  /** With all three fields truthy the request succeeds whatever they contain, and exactly they are logged. */
  lemma ContactAcceptsAnyTruthyFields(props: map<string, Value>, timestamp: string)
    requires Truthy(Prop(props, "name")) && Truthy(Prop(props, "email")) && Truthy(Prop(props, "message"))
    ensures Handle(Request("POST", "/api/contact", Parsed(props)), timestamp)
      == Handled(ContactAck, Some(Submission(props["name"], props["email"], props["message"])))
  {
  }

  /** The fixed two-element project list: ids 1 and 2, in that order, only the second without a url. */
  lemma ProjectsFixture(body: Body, timestamp: string)
    requires !body.Malformed?
    ensures var r := Handle(Request("GET", "/api/projects", body), timestamp).response;
      && r.status == 200 && r.json.Arr? && |r.json.items| == 2
      && r.json.items[0].Obj? && r.json.items[0].fields[0] == ("id", Num(1.0)) && r.json.items[0].fields[4].1.Str?
      && r.json.items[1].Obj? && r.json.items[1].fields[0] == ("id", Num(2.0)) && r.json.items[1].fields[4] == ("url", Null)
  {
  }

  /** The projects and about answers depend on nothing in the request or the clock. */
  lemma FixturesConstant(b1: Body, b2: Body, t1: string, t2: string)
    requires !b1.Malformed? && !b2.Malformed?
    ensures Handle(Request("GET", "/api/projects", b1), t1) == Handle(Request("GET", "/api/projects", b2), t2)
    ensures Handle(Request("GET", "/api/about", b1), t1) == Handle(Request("GET", "/api/about", b2), t2)
    ensures Handle(Request("GET", "/api/about", b1), t1).response == Response(200, AboutJson)
  {
  }

  lemma HealthOk(body: Body, timestamp: string)
    requires !body.Malformed?
    ensures var r := Handle(Request("GET", "/health", body), timestamp).response;
      r.status == 200 && r.json.Obj? && r.json.fields[0] == ("status", Str("ok"))
  {
  }

  /** A request no route matches is a 404, unless its body already failed to parse. */
  lemma UnmatchedIsNotFound(req: Request, timestamp: string)
    requires RouteOf(req.verb, req.path) == NoRoute && !req.body.Malformed?
    ensures Handle(req, timestamp) == Handled(NotFound, None)
  {
  }

  /** Every error reaching the handler is a 500 with the same body, whatever status it carried. */
  lemma ErrorsAreInternal(s1: Option<int>, s2: Option<int>)
    ensures ErrorHandler(s1) == ErrorHandler(s2) == Response(500, ErrorBody("Internal server error"))
  {
  }

  /** Two sample requests: "Jo"/"jo@x.com"/"hi" is acknowledged, an empty name is refused. */
  lemma ContactExamples(timestamp: string)
    ensures Handle(Request("POST", "/api/contact",
      Parsed(map["name" := Str("Jo"), "email" := Str("jo@x.com"), "message" := Str("hi")])), timestamp).response == ContactAck
    ensures Handle(Request("POST", "/api/contact",
      Parsed(map["name" := Str(""), "email" := Str("jo@x.com"), "message" := Str("hi")])), timestamp).response == MissingFields
  {
  }
}
