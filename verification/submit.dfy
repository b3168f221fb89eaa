/** The `POST /api/submit` route handler (app/api/submit/route.ts):
    required-field validation and construction of the stored complaint
    record. The handler's clock and random draws are explicit inputs. */
module SubmitApi {
  import opened Optional
  import opened Text

  /** A JavaScript value as read from the parsed request body. */
  datatype Value =
    | Undefined
    | Null
    | Bool(b: bool)
    | Number(n: real)
    | Str(s: string)
    | Array(items: seq<Value>)
    | Object(fields: map<string, Value>)

  /** JavaScript truthiness: `undefined`, `null`, `false`, `0` and `""` are
      falsy. */
  predicate Truthy(v: Value) {
    match v
    case Undefined => false
    case Null => false
    case Bool(b) => b
    case Number(n) => n != 0.0
    case Str(s) => s != ""
    case _ => true
  }

  /** Reading a property of these throws a `TypeError`. */
  predicate Nullish(v: Value) {
    v.Undefined? || v.Null?
  }

  /** `body[key]` on a non-nullish value. The keys read here are not
      properties of strings, numbers, booleans or arrays. */
  function Lookup(body: Value, key: string): Value {
    match body
    case Object(fields) => if key in fields then fields[key] else Undefined
    case _ => Undefined
  }

  /** The outcome of `await request.json()`. */
  datatype RequestBody = Unparsable | Parsed(value: Value)

  const RequiredFields: seq<string> :=
    ["name", "email", "phone", "title", "description", "department", "urgency", "location"]

  /** The first of `fields` whose value in `body` is falsy, if any. */
  function FirstMissing(body: Value, fields: seq<string>): (r: Option<string>)
    ensures r.None? <==> forall k :: 0 <= k < |fields| ==> Truthy(Lookup(body, fields[k]))
    ensures r.Some? ==> exists k :: 0 <= k < |fields| && fields[k] == r.value
                          && !Truthy(Lookup(body, fields[k]))
                          && forall j :: 0 <= j < k ==> Truthy(Lookup(body, fields[j]))
  {
    if |fields| == 0 then None
    else if !Truthy(Lookup(body, fields[0])) then Some(fields[0])
    else
      var r := FirstMissing(body, fields[1..]);
      if r.Some? then
        var k :| 0 <= k < |fields[1..]| && fields[1..][k] == r.value
                 && !Truthy(Lookup(body, fields[1..][k]))
                 && forall j :: 0 <= j < k ==> Truthy(Lookup(body, fields[1..][j]));
        assert fields[k + 1] == r.value;
        r
      else r
  }

  /** What the handler draws from its environment: the clock
      (`Date.now()` and `new Date().toISOString()`), the two
      `Math.random().toString(36)` strings and one `Math.random()`. */
  datatype Env = Env(now: nat, isoNow: string, refRandom: string, idRandom: string, similarRandom: real)

  predicate ValidEnv(env: Env) {
    0.0 <= env.similarRandom < 1.0
  }

  datatype Analysis = Analysis(
    category: Value,
    priority: Value,
    department: Value,
    estimatedResolutionTime: string,
    similarComplaints: int)

  datatype SubmittedComplaint = SubmittedComplaint(
    id: string,
    referenceId: string,
    name: Value,
    email: Value,
    phone: Value,
    title: Value,
    description: Value,
    department: Value,
    urgency: Value,
    location: Value,
    timestamp: string,
    status: string,
    aiAnalysis: Analysis)

  datatype ResponseBody =
    | ErrorBody(error: string)
    | SuccessBody(success: bool, message: string, complaint: SubmittedComplaint, referenceId: string)

  datatype Response = Response(status: int, body: ResponseBody)

  /** The estimated resolution time for an urgency: only the exact strings
      "High" and "Medium" have their own estimate. */
  function ResolutionTime(urgency: Value): (r: string)
    ensures r == "24-48 hours" <==> urgency == Str("High")
    ensures r == "3-5 days" <==> urgency == Str("Medium")
    ensures r == "1-2 weeks" <==> urgency != Str("High") && urgency != Str("Medium")
  {
    if urgency == Str("High") then "24-48 hours"
    else if urgency == Str("Medium") then "3-5 days"
    else "1-2 weeks"
  }

  /** `Math.floor(Math.random() * 10) + 1`. */
  function SimilarComplaints(random: real): (r: int)
    requires 0.0 <= random < 1.0
    ensures 1 <= r <= 10
  {
    (random * 10.0).Floor + 1
  }

  /** `HMS` + the last six digits of `Date.now()` + three upper-cased
      characters of a random base-36 string. */
  function ReferenceId(env: Env): (r: string)
    ensures |r| >= 3 && r[..3] == "HMS"
    ensures var digits := Last(NatToString(env.now), 6);
            |r| >= 3 + |digits| && r[3..3 + |digits|] == digits
  {
    var digits := Last(NatToString(env.now), 6);
    var r := "HMS" + digits + Upper(Substring(env.refRandom, 2, 5));
    assert r[..3] == "HMS" && r[3..3 + |digits|] == digits;
    r
  }

  /** From any clock reading of at least six digits, exactly six digits
      follow the prefix. */
  lemma ReferenceIdDigits(env: Env)
    requires env.now >= 100000
    ensures |Last(NatToString(env.now), 6)| == 6
    ensures ReferenceId(env)[3..9] == NatToString(env.now)[|NatToString(env.now)| - 6..]
  {
    NatToStringLength(env.now, 5);
  }

  /** The stored complaint: the body's fields, a fresh id and reference id,
      status "Pending" and the simulated analysis. */
  function BuildComplaint(body: Value, env: Env): (c: SubmittedComplaint)
    requires ValidEnv(env)
    ensures IsPrefix("complaint_" + NatToString(env.now) + "_", c.id)
    ensures c.referenceId == ReferenceId(env)
    ensures c.name == Lookup(body, "name") && c.email == Lookup(body, "email")
    ensures c.phone == Lookup(body, "phone") && c.title == Lookup(body, "title")
    ensures c.description == Lookup(body, "description") && c.department == Lookup(body, "department")
    ensures c.urgency == Lookup(body, "urgency") && c.location == Lookup(body, "location")
    ensures c.timestamp == env.isoNow && c.status == "Pending"
    ensures c.aiAnalysis.category == c.department && c.aiAnalysis.department == c.department
    ensures c.aiAnalysis.priority == c.urgency
    ensures c.aiAnalysis.estimatedResolutionTime == ResolutionTime(c.urgency)
    ensures 1 <= c.aiAnalysis.similarComplaints <= 10
  {
    var department := Lookup(body, "department");
    var urgency := Lookup(body, "urgency");
    SubmittedComplaint(
      "complaint_" + NatToString(env.now) + "_" + Substring(env.idRandom, 2, |env.idRandom|),
      ReferenceId(env),
      Lookup(body, "name"), Lookup(body, "email"), Lookup(body, "phone"),
      Lookup(body, "title"), Lookup(body, "description"), department, urgency,
      Lookup(body, "location"),
      env.isoNow, "Pending",
      Analysis(department, urgency, department, ResolutionTime(urgency),
               SimilarComplaints(env.similarRandom)))
  }

  /** The handler: 500 when the body cannot be read, 400 naming the first
      missing field, otherwise the new complaint and its reference id. */
  function Post(request: RequestBody, env: Env): (r: Response)
    requires ValidEnv(env)
    ensures r.status in {200, 400, 500}
    ensures r.status == 500 <==> request.Unparsable? || Nullish(request.value)
    ensures r.status == 500 ==> r.body == ErrorBody("Internal server error")
    ensures r.status == 400 ==>
      exists k :: 0 <= k < |RequiredFields|
        && r.body == ErrorBody("Missing required field: " + RequiredFields[k])
        && !Truthy(Lookup(request.value, RequiredFields[k]))
        && forall j :: 0 <= j < k ==> Truthy(Lookup(request.value, RequiredFields[j]))
    ensures r.status == 200 <==>
      request.Parsed? && !Nullish(request.value)
      && forall k :: 0 <= k < |RequiredFields| ==> Truthy(Lookup(request.value, RequiredFields[k]))
    ensures r.status == 200 ==> r.body.SuccessBody? && r.body.success
    ensures r.status == 200 ==>
      var c := r.body.complaint;
      var b := request.value;
      && c.name == Lookup(b, "name") && c.email == Lookup(b, "email")
      && c.phone == Lookup(b, "phone") && c.title == Lookup(b, "title")
      && c.description == Lookup(b, "description") && c.department == Lookup(b, "department")
      && c.urgency == Lookup(b, "urgency") && c.location == Lookup(b, "location")
      && c.status == "Pending"
      && c.aiAnalysis.category == c.department && c.aiAnalysis.department == c.department
      && c.aiAnalysis.priority == c.urgency
      && c.aiAnalysis.estimatedResolutionTime == ResolutionTime(c.urgency)
      && 1 <= c.aiAnalysis.similarComplaints <= 10
      && r.body.referenceId == c.referenceId
      && c.referenceId == ReferenceId(env)
      && |c.referenceId| >= 3 && c.referenceId[..3] == "HMS"
  {
    match request
    case Unparsable => Response(500, ErrorBody("Internal server error"))
    case Parsed(body) =>
      if Nullish(body) then Response(500, ErrorBody("Internal server error"))
      else match FirstMissing(body, RequiredFields)
        case Some(field) => Response(400, ErrorBody("Missing required field: " + field))
        case None =>
          var c := BuildComplaint(body, env);
          Response(200, SuccessBody(true, "Complaint submitted successfully", c, c.referenceId))
  }
}
