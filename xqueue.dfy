/** The XQueue client (openedx_certificates/queue_xqueue.py): the checks
    and projections applied to the server's replies, the request addresses,
    and the pull manager's login state. The network is not part of the
    model: each operation takes the replies the server gives it, and the
    manager keeps a log of the requests it sends. JSON encoding and
    decoding are parameters. */
module XQueue {
  import opened Values

  // ---------------------------------------------------------------------
  // Replies

  /** `_validate`: a reply is valid exactly when its return code equals 0
      (False equals 0 in Python); a missing code is invalid. */
  function Validate(response: Dict): (r: Result<bool>)
    ensures r.Ok? ==> r.value
    ensures r.Err? ==> r.error == InvalidReturnCode
  {
    match Get(response, "return_code")
    case VNum(n) => if n == 0.0 then Ok(true) else Err(InvalidReturnCode)
    case VBool(b) => if !b then Ok(true) else Err(InvalidReturnCode)
    case _ => Err(InvalidReturnCode)
  }

  /** A reply is accepted exactly when its code is zero. */
  lemma ValidateIffZero(response: Dict)
    ensures Validate(response).Ok? <==>
      "return_code" in response && (response["return_code"] == VNum(0.0) || response["return_code"] == VBool(false))
    ensures "return_code" !in response ==> Validate(response) == Err(InvalidReturnCode)
  {
  }

  /** The fields of a submission's body the certificate agent reads. */
  const BodyKeys: set<string> := {
    "action", "username", "course_id", "course_name", "name", "template_pdf", "grade", "issued_date",
    "designation", "delete_download_uuid", "delete_verify_uuid"}

  /** The body of a submission restricted to BodyKeys, a missing field
      reading as None. */
  function ProjectBody(response: Dict): (body: Dict)
    ensures body.Keys == BodyKeys
    ensures forall k :: k in BodyKeys && k in response ==> body[k] == response[k]
    ensures forall k :: k in BodyKeys && k !in response ==> body[k] == VNone
  {
    map k | k in BodyKeys :: Get(response, k)
  }

  /** Projection drops every other field and keeps the listed ones, so
      projecting twice is projecting once. */
  lemma ProjectBodyIdempotent(response: Dict, extra: string, v: Value)
    requires extra !in BodyKeys
    ensures ProjectBody(ProjectBody(response)) == ProjectBody(response)
    ensures ProjectBody(response[extra := v]) == ProjectBody(response)
  {
    assert ProjectBody(ProjectBody(response)).Keys == ProjectBody(response).Keys;
    assert ProjectBody(response[extra := v]).Keys == ProjectBody(response).Keys;
  }

  /** A JSON decoder, giving the object a text encodes, or the error that
      decoding or using it as an object raises. */
  type JsonLoads = string -> Result<Dict>

  /** One part of a submission: the text stored under `k` decoded, '{}'
      when it is missing; anything but text is a type error. */
  function DecodePart(data: Dict, k: string, loads: JsonLoads): (r: Result<Dict>)
    ensures k !in data ==> r == Ok(map[])
    ensures k in data && data[k].VStr? ==> r == loads(data[k].s)
  {
    if k !in data then Ok(map[])
    else match data[k]
      case VStr(s) => loads(s)
      case _ => Err(TypeError(k))
  }

  /** `_parse_xqueue_response`: the decoded header, and the decoded body
      projected onto BodyKeys. */
  function ParseXQueueResponse(data: Dict, loads: JsonLoads): (r: Result<(Dict, Dict)>)
    ensures r.Ok? ==> r.value.1.Keys == BodyKeys
    ensures r.Ok? ==> DecodePart(data, "xqueue_header", loads) == Ok(r.value.0)
    ensures r.Ok? <==> DecodePart(data, "xqueue_header", loads).Ok? && DecodePart(data, "xqueue_body", loads).Ok?
  {
    var header :- DecodePart(data, "xqueue_header", loads);
    var response :- DecodePart(data, "xqueue_body", loads);
    Ok((header, ProjectBody(response)))
  }

  /** A submission without a header or a body parses to an empty header
      and a body of None fields. */
  lemma ParseEmptySubmission(loads: JsonLoads)
    ensures ParseXQueueResponse(map[], loads) == Ok((map[], map k | k in BodyKeys :: VNone))
  {
    var body := ProjectBody(map[]);
    assert body == map k | k in BodyKeys :: VNone;
  }

  // ---------------------------------------------------------------------
  // Queue length

  predicate IsSpace(c: char) {
    c == ' ' || c == '\t' || c == '\n' || c == '\r' || c == '\U{0B}' || c == '\U{0C}'
  }

  predicate IsDigit(c: char) {
    '0' <= c <= '9'
  }

  predicate AllDigits(s: string) {
    forall i :: 0 <= i < |s| ==> IsDigit(s[i])
  }

  /** `s.strip()`: leading and trailing white space removed. */
  function Strip(s: string): (t: string)
    ensures |t| <= |s|
    ensures (forall i :: 0 <= i < |s| ==> !IsSpace(s[i])) ==> t == s
    decreases |s|
  {
    if |s| > 0 && IsSpace(s[0]) then Strip(s[1..])
    else if |s| > 0 && IsSpace(s[|s| - 1]) then Strip(s[..|s| - 1])
    else s
  }

  /** The number a string of decimal digits denotes. */
  function DigitsValue(s: string): (n: nat)
    requires AllDigits(s)
    decreases |s|
  {
    if s == [] then 0 else DigitsValue(s[..|s| - 1]) * 10 + (s[|s| - 1] as int - '0' as int)
  }

  /** Python 2's `int(s)` on text: surrounding white space, an optional
      sign, then one or more ASCII digits; anything else is a ValueError,
      here None. */
  function ParseInt(s: string): Option<int> {
    var t := Strip(s);
    if |t| > 1 && (t[0] == '-' || t[0] == '+') && AllDigits(t[1..]) then
      var v: int := DigitsValue(t[1..]);
      Some(if t[0] == '-' then -v else v)
    else if |t| > 0 && AllDigits(t) then Some(DigitsValue(t))
    else None
  }

  /** The decimal digits of a natural number, without leading zeros. */
  function Digits(n: nat): (s: string)
    ensures |s| > 0 && AllDigits(s)
    decreases n
  {
    if n < 10 then [('0' as int + n) as char] else Digits(n / 10) + [('0' as int + n % 10) as char]
  }

  /** `str(n)`. */
  function DecimalString(n: int): string {
    if n < 0 then "-" + Digits(-n) else Digits(n)
  }

  /** Reading back the digits of a number gives the number. */
  lemma {:induction false} DigitsValueOfDigits(n: nat)
    ensures DigitsValue(Digits(n)) == n
    decreases n
  {
    if n >= 10 {
      DigitsValueOfDigits(n / 10);
      var s := Digits(n);
      assert s[..|s| - 1] == Digits(n / 10);
    }
  }

  /** `int(str(n)) == n` for every integer. */
  lemma ParseIntRoundTrip(n: int)
    ensures ParseInt(DecimalString(n)) == Some(n)
  {
    var s := DecimalString(n);
    if n < 0 {
      DigitsValueOfDigits(-n);
      assert s[1..] == Digits(-n);
      assert s[0] == '-';
      forall i | 0 <= i < |s| ensures !IsSpace(s[i]) {
        if i > 0 { assert s[i] == Digits(-n)[i - 1]; }
      }
    } else {
      DigitsValueOfDigits(n);
      assert IsDigit(s[0]);
    }
  }

  /** `int(response.get('content', 0))`, a ValueError counting as 0: the
      content as a number (truncated), as a boolean, or as decimal text.
      A null content raises TypeError, which the source does not catch. */
  function QueueLength(response: Dict): (r: Result<int>)
    ensures "content" !in response ==> r == Ok(0)
    ensures r.Err? <==> "content" in response && response["content"].VNone?
  {
    if "content" !in response then Ok(0)
    else match response["content"]
      case VNum(n) => Ok(Truncate(n))
      case VBool(b) => Ok(if b then 1 else 0)
      case VStr(s) => Ok(match ParseInt(s) case Some(n) => n case None => 0)
      case VNone => Err(TypeError("content"))
  }

  /** A length sent as a number or as its decimal text is read back as
      that number; text that is not a number, such as "seven", reads as 0. */
  lemma QueueLengthReadsNumbers(n: int, s: string)
    ensures QueueLength(map["content" := VNum(n as real)]) == Ok(n)
    ensures QueueLength(map["content" := VStr(DecimalString(n))]) == Ok(n)
    ensures ParseInt(s).None? ==> QueueLength(map["content" := VStr(s)]) == Ok(0)
  {
    ParseIntRoundTrip(n);
  }

  // ---------------------------------------------------------------------
  // The pull manager

  datatype Verb = HttpGet | HttpPost

  /** A request the manager sent: its verb, address and parameters or
      form data. */
  datatype Request = Request(verb: Verb, url: string, data: map<string, string>)

  /** An HTTP session, authenticated with the basic-auth pair. */
  datatype Session = Session(auth: (string, string))

  /** `_get_method_url`. */
  function MethodUrl(base: string, method_: string): (url: string)
    ensures |url| == |base| + |method_| + 9
  {
    base + "/xqueue/" + method_ + "/"
  }

  /** Different methods have different addresses on the same server. */
  lemma MethodUrlInjective(base: string, m1: string, m2: string)
    ensures MethodUrl(base, m1) == MethodUrl(base, m2) <==> m1 == m2
  {
    if MethodUrl(base, m1) == MethodUrl(base, m2) {
      var u := MethodUrl(base, m1);
      assert |m1| == |m2|;
      assert m1 == u[|base| + 8..|base| + 8 + |m1|];
      assert m2 == MethodUrl(base, m2)[|base| + 8..|base| + 8 + |m2|];
    }
  }

  /** `peek`'s reading of a reply: its content decoded as JSON and parsed
      as a submission; a missing content is a KeyError, a content that is
      not text a TypeError. */
  function Submission(reply: Dict, loads: JsonLoads): (r: Result<(Dict, Dict)>)
    ensures "content" !in reply ==> r == Err(KeyError("content"))
    ensures r.Ok? ==> "content" in reply && reply["content"].VStr? && loads(reply["content"].s).Ok?
    ensures r.Ok? ==> r == ParseXQueueResponse(loads(reply["content"].s).value, loads)
  {
    if "content" !in reply then Err(KeyError("content"))
    else if !reply["content"].VStr? then Err(TypeError("content"))
    else
      var data :- loads(reply["content"].s);
      ParseXQueueResponse(data, loads)
  }

  /** What a first login reply does to a call: without a session the
      login is sent and its reply validated; with one nothing is sent. */
  function LoginResult(session: Option<Session>, loginReply: Dict): (r: Result<bool>)
    ensures session.Some? ==> r == Ok(true)
    ensures session.None? ==> r == Validate(loginReply)
  {
    if session.None? then Validate(loginReply) else Ok(true)
  }

  /** The reply a call returns: the login's failure if it fails, else the
      call's own reply once validated. */
  function Answer(session: Option<Session>, loginReply: Dict, reply: Dict): (r: Result<Dict>)
    ensures r.Ok? <==> LoginResult(session, loginReply).Ok? && Validate(reply).Ok?
    ensures r.Ok? ==> r.value == reply
    ensures r.Err? ==> r.error == InvalidReturnCode
  {
    var _ :- LoginResult(session, loginReply);
    var _ :- Validate(reply);
    Ok(reply)
  }

  /** The form `_post` sends: the header and the body, each encoded as
      JSON. */
  function PostData(header: Dict, body: Dict, dumps: Dict -> string): (data: map<string, string>)
    ensures data.Keys == {"xqueue_header", "xqueue_body"}
    ensures data["xqueue_header"] == dumps(header) && data["xqueue_body"] == dumps(body)
  {
    map["xqueue_header" := dumps(header), "xqueue_body" := dumps(body)]
  }

  class XQueuePullManager {
    const url: string
    const name: string
    const authBasic: (string, string)
    const authXQueue: (string, string)
    var session: Option<Session>
    /** The requests sent so far, in order. */
    var requests: seq<Request>

    /** The login request: the XQueue credentials posted to `login`. */
    function LoginRequest(): (r: Request)
      ensures r.verb == HttpPost && r.url == MethodUrl(url, "login")
      ensures r.data == map["username" := authXQueue.0, "password" := authXQueue.1]
    {
      Request(HttpPost, MethodUrl(url, "login"), map["username" := authXQueue.0, "password" := authXQueue.1])
    }

    /** The manager logs in at most once: without a session it has sent
        nothing; with one, its first request was the login and it never
        logged in again. */
    ghost predicate Valid()
      reads this
    {
      (session.None? <==> requests == []) &&
      (session.Some? ==> session.value == Session(authBasic)) &&
      (requests != [] ==> requests[0] == LoginRequest()) &&
      (forall i :: 1 <= i < |requests| ==> requests[i] != LoginRequest())
    }

    /** The requests after a call that sends `query` once logged in: the
        login first if there was no session, then the query unless the
        login was rejected. */
    ghost function SentAfter(oldSession: Option<Session>, oldRequests: seq<Request>, loginReply: Dict, query: Request): seq<Request>
      reads this
    {
      oldRequests + (if oldSession.None? then [LoginRequest()] else [])
                  + (if LoginResult(oldSession, loginReply).Ok? then [query] else [])
    }

    constructor (url: string, name: string, authBasic: (string, string), authXQueue: (string, string))
      ensures this.url == url && this.name == name && this.authBasic == authBasic && this.authXQueue == authXQueue
      ensures session.None? && requests == [] && Valid()
    {
      this.url := url;
      this.name := name;
      this.authBasic := authBasic;
      this.authXQueue := authXQueue;
      session := None;
      requests := [];
    }

    /** `__str__`: the server's base address. */
    function ToString(): (s: string)
      ensures s == url
    {
      url
    }

    /** `_try_login`: without a session, opens one and posts the
        credentials; the session stays even when the login reply is
        rejected, so the login is never sent twice. */
    method TryLogin(reply: Dict) returns (r: Result<bool>)
      requires Valid()
      modifies this`session, this`requests
      ensures Valid() && session == Some(Session(authBasic))
      ensures r == LoginResult(old(session), reply)
      ensures requests == old(requests) + (if old(session).None? then [LoginRequest()] else [])
    {
      if session.None? {
        session := Some(Session(authBasic));
        requests := requests + [LoginRequest()];
        var valid := Validate(reply);
        if valid.Err? {
          return Err(valid.error);
        }
      }
      return Ok(true);
    }

    /** Logs in if need be, then sends `query` and validates its reply. */
    method Call(query: Request, loginReply: Dict, reply: Dict) returns (r: Result<Dict>)
      requires Valid() && query.url != MethodUrl(url, "login")
      modifies this`session, this`requests
      ensures Valid() && session == Some(Session(authBasic))
      ensures requests == SentAfter(old(session), old(requests), loginReply, query)
      ensures r == Answer(old(session), loginReply, reply)
    {
      var login := TryLogin(loginReply);
      if login.Err? {
        return Err(login.error);
      }
      requests := requests + [query];
      var valid := Validate(reply);
      if valid.Err? {
        return Err(valid.error);
      }
      r := Ok(reply);
    }

    /** `__len__`: logs in if need be, asks for the queue's length and
        reads it from the reply. */
    method Length(loginReply: Dict, reply: Dict) returns (r: Result<int>)
      requires Valid()
      modifies this`session, this`requests
      ensures Valid() && session == Some(Session(authBasic))
      ensures requests == SentAfter(old(session), old(requests), loginReply,
                                    Request(HttpGet, MethodUrl(url, "get_queuelen"), map["queue_name" := name]))
      ensures r == (var answer :- Answer(old(session), loginReply, reply); QueueLength(answer))
    {
      MethodUrlInjective(url, "get_queuelen", "login");
      var answer := Call(Request(HttpGet, MethodUrl(url, "get_queuelen"), map["queue_name" := name]), loginReply, reply);
      if answer.Err? {
        return Err(answer.error);
      }
      r := QueueLength(answer.value);
    }

    /** `peek`: logs in if need be, asks for a submission and parses the
        reply's content. */
    method Peek(loginReply: Dict, reply: Dict, loads: JsonLoads) returns (r: Result<(Dict, Dict)>)
      requires Valid()
      modifies this`session, this`requests
      ensures Valid() && session == Some(Session(authBasic))
      ensures requests == SentAfter(old(session), old(requests), loginReply,
                                    Request(HttpGet, MethodUrl(url, "get_submission"), map["queue_name" := name]))
      ensures r == (var answer :- Answer(old(session), loginReply, reply); Submission(answer, loads))
    {
      MethodUrlInjective(url, "get_submission", "login");
      var answer := Call(Request(HttpGet, MethodUrl(url, "get_submission"), map["queue_name" := name]), loginReply, reply);
      if answer.Err? {
        return Err(answer.error);
      }
      r := Submission(answer.value, loads);
    }

    /** `_post`: logs in if need be and posts the header and body to
        `put_result`, returning the validated reply. */
    method PostResult(header: Dict, body: Dict, dumps: Dict -> string, loginReply: Dict, reply: Dict)
      returns (r: Result<Dict>)
      requires Valid()
      modifies this`session, this`requests
      ensures Valid() && session == Some(Session(authBasic))
      ensures requests == SentAfter(old(session), old(requests), loginReply,
                                    Request(HttpPost, MethodUrl(url, "put_result"), PostData(header, body, dumps)))
      ensures r == Answer(old(session), loginReply, reply)
    {
      var data := PostData(header, body, dumps);
      MethodUrlInjective(url, "put_result", "login");
      r := Call(Request(HttpPost, MethodUrl(url, "put_result"), data), loginReply, reply);
    }

    /** `push`: posts a result; the reply is dropped. */
    method Push(header: Dict, body: Dict, dumps: Dict -> string, loginReply: Dict, reply: Dict)
      returns (outcome: Outcome)
      requires Valid()
      modifies this`session, this`requests
      ensures Valid() && session == Some(Session(authBasic))
      ensures requests == SentAfter(old(session), old(requests), loginReply,
                                    Request(HttpPost, MethodUrl(url, "put_result"), PostData(header, body, dumps)))
      ensures outcome == (if Answer(old(session), loginReply, reply).Ok? then Done else Failed(InvalidReturnCode))
    {
      var r := PostResult(header, body, dumps, loginReply, reply);
      outcome := if r.Err? then Failed(r.error) else Done;
    }

    /** `pop`: the same post as `push`. */
    method Pop(header: Dict, body: Dict, dumps: Dict -> string, loginReply: Dict, reply: Dict)
      returns (outcome: Outcome)
      requires Valid()
      modifies this`session, this`requests
      ensures Valid() && session == Some(Session(authBasic))
      ensures requests == SentAfter(old(session), old(requests), loginReply,
                                    Request(HttpPost, MethodUrl(url, "put_result"), PostData(header, body, dumps)))
      ensures outcome == (if Answer(old(session), loginReply, reply).Ok? then Done else Failed(InvalidReturnCode))
    {
      var r := PostResult(header, body, dumps, loginReply, reply);
      outcome := if r.Err? then Failed(r.error) else Done;
    }
  }
}
