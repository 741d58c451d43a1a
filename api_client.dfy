/** The REST client of the bot: how an HTTP response becomes a value or a `ResponseCodeError`, the
    URLs of the endpoints, the member-record payloads and the warning list it sends.
    The HTTP exchange itself is not modelled: each operation takes the response it would receive
    and returns what the client returns, or the request it would send. */
module ApiClient {
  import opened Wrappers
  import opened Text
  import opened Json

  // ---------------------------------------------------------------------------------------------
  // Endpoint URLs

  const BaseUrl: string := "https://api.tortoisecommunity.ml/private/"

  /** The full URL of an endpoint: the fixed base followed by the endpoint, so the endpoint is
      recovered by dropping the base. */
  function UrlFor(endpoint: string): (url: string)
    ensures |url| == |BaseUrl| + |endpoint|
    ensures url[..|BaseUrl|] == BaseUrl && url[|BaseUrl|..] == endpoint
  {
    BaseUrl + endpoint
  }

  /** Different endpoints have different URLs. */
  lemma UrlForInjective(a: string, b: string)
    ensures UrlFor(a) == UrlFor(b) ==> a == b
  {
  }

  /** `prefix/{id}/`-shaped endpoints. */
  function IdEndpoint(prefix: string, id: nat): string {
    prefix + NatToDecimal(id) + "/"
  }

  /** Two endpoints of the same shape are equal only for the same id. */
  lemma {:induction false} IdEndpointInjective(prefix: string, a: nat, b: nat)
    ensures IdEndpoint(prefix, a) == IdEndpoint(prefix, b) ==> a == b
  {
    var ea, eb := IdEndpoint(prefix, a), IdEndpoint(prefix, b);
    if ea == eb {
      var da, db := NatToDecimal(a), NatToDecimal(b);
      assert |da| == |db|;
      assert da == ea[|prefix|..|ea| - 1];
      assert db == eb[|prefix|..|eb| - 1];
      DecimalRoundTrip(a);
      DecimalRoundTrip(b);
    }
  }

  function EditEndpoint(id: nat): string {
    IdEndpoint("members/edit/", id)
  }

  function MetaEndpoint(id: nat): string {
    IdEndpoint("member/meta/", id)
  }

  // ---------------------------------------------------------------------------------------------
  // Responses and the typed error

  /** The body of a response: JSON when its content type says so (`response.json()` succeeds),
      otherwise only text (`response.json()` raises a content-type error). */
  datatype Body = JsonBody(json: Json) | TextBody(text: string)

  datatype Response = Response(status: nat, body: Body)

  /** `ResponseCodeError`: the status of the response, its JSON body (an empty dictionary when it has
      none) and its text. */
  datatype ResponseCodeError = ResponseCodeError(status: nat, responseJson: Json, responseText: string)

  /** The exceptions a client call can raise. */
  datatype Raised =
    | ResponseCode(error: ResponseCodeError)
    | ContentTypeError
    | LookupError(key: string)
    | TypeError

  /** `ResponseCodeError.__init__`: `response_json or {}` keeps a truthy JSON body and replaces every
      other one (absent, `None`, empty) by the empty dictionary. */
  function NewResponseCodeError(status: nat, responseJson: Option<Json>, responseText: string)
    : (e: ResponseCodeError)
    ensures e.status == status && e.responseText == responseText
    ensures Truthy(e.responseJson) || e.responseJson == EmptyObject
    ensures responseJson.Some? && Truthy(responseJson.value) ==> e.responseJson == responseJson.value
    ensures !(responseJson.Some? && Truthy(responseJson.value)) ==> e.responseJson == EmptyObject
  {
    var body := if responseJson.Some? && Truthy(responseJson.value) then responseJson.value else EmptyObject;
    ResponseCodeError(status, body, responseText)
  }

  /** What `str(error)` shows as the response: the JSON body, as `str` writes it, when it is
      non-empty, else the text. */
  function Shown(e: ResponseCodeError): string {
    if Truthy(e.responseJson) then Str(e.responseJson) else e.responseText
  }

  /** `ResponseCodeError.__str__`: the status label first and the shown response last; that the
      two can be read back apart is `ErrorMessageRoundTrip`. */
  function ErrorMessage(e: ResponseCodeError): (s: string)
    ensures |s| >= |StatusLabel| && s[..|StatusLabel|] == StatusLabel
    ensures |s| >= |Shown(e)| && s[|s| - |Shown(e)|..] == Shown(e)
  {
    "Status: " + NatToDecimal(e.status) + " Response: " + Shown(e)
  }

  const StatusLabel: string := "Status: "
  const ResponseLabel: string := " Response: "

  /** The number of leading decimal digits of a string. */
  function DigitRun(s: string): (n: nat)
    ensures n <= |s| && IsDigits(s[..n])
    ensures n < |s| ==> !IsDigit(s[n])
    decreases |s|
  {
    if s == [] || !IsDigit(s[0]) then 0
    else
      var n := 1 + DigitRun(s[1..]);
      assert s[..n] == [s[0]] + s[1..][..n - 1];
      n
  }

  /** Reads an error message back into its status and the response it shows. */
  function ParseErrorMessage(s: string): Option<(nat, string)> {
    if |s| < |StatusLabel| || s[..|StatusLabel|] != StatusLabel then None
    else
      var rest := s[|StatusLabel|..];
      var n := DigitRun(rest);
      var tail := rest[n..];
      if n == 0 || |tail| < |ResponseLabel| || tail[..|ResponseLabel|] != ResponseLabel then None
      else Some((DecimalValue(rest[..n]), tail[|ResponseLabel|..]))
  }

  lemma {:induction false} DigitRunOfNumeral(d: string, t: string)
    requires IsDigits(d)
    requires t == [] || !IsDigit(t[0])
    ensures DigitRun(d + t) == |d|
    decreases |d|
  {
    if d != [] {
      assert (d + t)[1..] == d[1..] + t;
      DigitRunOfNumeral(d[1..], t);
    }
  }

  /** The message of an error names its status and what it shows, and both can be read back:
      the status is never confused with the body. */
  lemma ErrorMessageRoundTrip(e: ResponseCodeError)
    ensures ParseErrorMessage(ErrorMessage(e)) == Some((e.status, Shown(e)))
  {
    var d := NatToDecimal(e.status);
    var s := ErrorMessage(e);
    assert s == StatusLabel + (d + (ResponseLabel + Shown(e)));
    var rest := s[|StatusLabel|..];
    assert rest == d + (ResponseLabel + Shown(e));
    DigitRunOfNumeral(d, ResponseLabel + Shown(e));
    assert rest[..|d|] == d;
    assert rest[|d|..] == ResponseLabel + Shown(e);
    DecimalRoundTrip(e.status);
  }

  /** A non-empty JSON string body is shown as itself, without quotes, as an f-string writes a
      `str`; a truthy dictionary is shown as its `repr`. */
  lemma ErrorMessageShowsStringBare(status: nat, s: string, fields: seq<(string, Json)>)
    requires s != [] && fields != []
    ensures ErrorMessage(NewResponseCodeError(status, Some(JString(s)), ""))
            == "Status: " + NatToDecimal(status) + " Response: " + s
    ensures ErrorMessage(NewResponseCodeError(status, Some(JObject(fields)), ""))
            == "Status: " + NatToDecimal(status) + " Response: " + Repr(JObject(fields))
  {
  }

  /** `raise_for_status`: an error exactly for a status of 400 or more, built from the JSON body when
      there is one and from the text otherwise. */
  function RaiseForStatus(resp: Response): (r: Option<ResponseCodeError>)
    ensures r.Some? <==> resp.status >= 400
    ensures r.Some? ==> r.value.status == resp.status
    ensures r.Some? && resp.body.TextBody? ==>
              r.value.responseJson == EmptyObject && Shown(r.value) == resp.body.text
    ensures r.Some? && resp.body.JsonBody? ==>
              r.value.responseText == ""
              && r.value.responseJson == (if Truthy(resp.body.json) then resp.body.json else EmptyObject)
              && Shown(r.value) == (if Truthy(resp.body.json) then Str(resp.body.json) else "")
  {
    if resp.status >= 400 then
      match resp.body
      case JsonBody(j) => Some(NewResponseCodeError(resp.status, Some(j), ""))
      case TextBody(t) => Some(NewResponseCodeError(resp.status, None, t))
    else None
  }

  /** `get`, `post`, `put` and `patch`: the status check, then the JSON body. */
  function Outcome(resp: Response): (r: Result<Json, Raised>)
    ensures (r.Failure? && r.error.ResponseCode?) <==> resp.status >= 400
    ensures r.Failure? && r.error.ResponseCode? ==> RaiseForStatus(resp) == Some(r.error.error)
    ensures r == Failure(ContentTypeError) <==> resp.status < 400 && resp.body.TextBody?
    ensures r.Success? <==> resp.status < 400 && resp.body.JsonBody?
    ensures r.Success? ==> resp.body == JsonBody(r.value)
  {
    match RaiseForStatus(resp)
    case Some(e) => Failure(ResponseCode(e))
    case None =>
      match resp.body
      case JsonBody(j) => Success(j)
      case TextBody(_) => Failure(ContentTypeError)
  }

  /** `delete`: a 204 answer returns nothing, before the status check and without reading the body;
      any other answer is handled as by the other verbs. */
  function DeleteOutcome(resp: Response): (r: Result<Option<Json>, Raised>)
    ensures resp.status == 204 ==> r == Success(None)
    ensures resp.status != 204 ==> (r.Success? <==> Outcome(resp).Success?)
    ensures resp.status != 204 && r.Success? ==> r.value == Some(Outcome(resp).value)
    ensures resp.status != 204 && r.Failure? ==> r.error == Outcome(resp).error
  {
    if resp.status == 204 then Success(None)
    else
      match Outcome(resp)
      case Success(j) => Success(Some(j))
      case Failure(e) => Failure(e)
  }

  /** A 204 answer with a body that is not JSON: `delete` returns nothing, where the other verbs would
      raise a content-type error. */
  lemma DeleteNoContentSkipsBody(t: string)
    ensures DeleteOutcome(Response(204, TextBody(t))) == Success(None)
    ensures Outcome(Response(204, TextBody(t))) == Failure(ContentTypeError)
  {
  }

  // ---------------------------------------------------------------------------------------------
  // Verification state

  /** `is_verified`: the `verified` field of the answer to `verify-confirmation/{id}/`; an error
      response reads as false, or is re-raised when `re_raise` is set. */
  function IsVerified(resp: Response, reRaise: bool): (r: Result<Json, Raised>)
    ensures r.Success? && resp.status < 400 ==>
              resp.body.JsonBody? && Field(resp.body.json, "verified") == Some(r.value)
    ensures resp.status < 400 && resp.body.JsonBody? && Field(resp.body.json, "verified").Some? ==>
              r == Success(Field(resp.body.json, "verified").value)
    ensures resp.status >= 400 && !reRaise ==> r == Success(JBool(false))
    ensures resp.status >= 400 && reRaise ==> r == Failure(ResponseCode(RaiseForStatus(resp).value))
    ensures r.Failure? && r.error.ResponseCode? ==> reRaise && resp.status >= 400
    ensures resp.status < 400 && r.Failure? ==>
              r.error == (if resp.body.TextBody? then ContentTypeError
                          else if resp.body.json.JObject? then LookupError("verified") else TypeError)
  {
    match Outcome(resp)
    case Failure(ResponseCode(e)) => if reRaise then Failure(ResponseCode(e)) else Success(JBool(false))
    case Failure(other) => Failure(other)
    case Success(data) =>
      match Field(data, "verified")
      case Some(v) => Success(v)
      case None => Failure(if data.JObject? then LookupError("verified") else TypeError)
  }

  /** `does_member_exist`: true exactly when `is_verified(..., re_raise=True)` raises nothing, false
      exactly when it raises `ResponseCodeError`; any other exception passes through. */
  function DoesMemberExist(resp: Response): (r: Result<bool, Raised>)
    ensures r == Success(true) <==> IsVerified(resp, true).Success?
    ensures r == Success(false) <==> resp.status >= 400
    ensures r.Failure? ==> !r.error.ResponseCode? && r.error == IsVerified(resp, true).error
  {
    match IsVerified(resp, true)
    case Success(_) => Success(true)
    case Failure(ResponseCode(_)) => Success(false)
    case Failure(other) => Failure(other)
  }

  /** Whatever body the error response carries, an error response means "no such member". */
  lemma NotFoundMeansAbsent(body: Body, status: nat)
    requires status >= 400
    ensures DoesMemberExist(Response(status, body)) == Success(false)
    ensures IsVerified(Response(status, body), false) == Success(JBool(false))
  {
  }

  // ---------------------------------------------------------------------------------------------
  // Member-record payloads

  datatype Verb = GET | POST | PUT | PATCH | DELETE

  /** One HTTP request the client sends: its verb, URL and JSON payload. */
  datatype Request = Request(verb: Verb, url: string, json: Option<Json>)

  /** The fields of a guild member that the payloads use. */
  datatype Member = Member(id: nat, guildId: nat, displayName: string, discriminator: string)

  /** The invariant of a member record: a record marked as a current member has no leave date. */
  predicate PresenceConsistent(payload: Json) {
    Field(payload, "member") == Some(JBool(true)) ==>
      Field(payload, "leave_date").None? || Field(payload, "leave_date") == Some(JNull)
  }

  /** `insert_new_member`: POST to `members/` of a record marked as a current member. */
  function InsertNewMember(m: Member, now: string): (r: Request)
    ensures r.verb == POST && r.url == UrlFor("members/") && r.json.Some?
    ensures Field(r.json.value, "user_id") == Some(JInt(m.id))
    ensures Field(r.json.value, "guild_id") == Some(JInt(m.guildId))
    ensures Field(r.json.value, "join_date") == Some(JString(now))
    ensures Field(r.json.value, "name") == Some(JString(m.displayName))
    ensures Field(r.json.value, "tag") == Some(JString(m.discriminator))
    ensures Field(r.json.value, "member") == Some(JBool(true))
    ensures Keys(r.json.value) == ["user_id", "guild_id", "join_date", "name", "tag", "member"]
    ensures PresenceConsistent(r.json.value)
  {
    var fields := [
      ("user_id", JInt(m.id)),
      ("guild_id", JInt(m.guildId)),
      ("join_date", JString(now)),
      ("name", JString(m.displayName)),
      ("tag", JString(m.discriminator)),
      ("member", JBool(true))];
    LookupAt(fields, "guild_id", 1);
    LookupAt(fields, "join_date", 2);
    LookupAt(fields, "name", 3);
    LookupAt(fields, "tag", 4);
    LookupAt(fields, "member", 5);
    LookupAbsent(fields, "leave_date");
    Request(POST, UrlFor("members/"), Some(JObject(fields)))
  }

  /** `member_rejoined`: PUT to `members/edit/{id}/` marking the member present, with no leave date. */
  function MemberRejoined(m: Member): (r: Request)
    ensures r.verb == PUT && r.url == UrlFor(EditEndpoint(m.id)) && r.json.Some?
    ensures Field(r.json.value, "user_id") == Some(JInt(m.id))
    ensures Field(r.json.value, "guild_id") == Some(JInt(m.guildId))
    ensures Field(r.json.value, "member") == Some(JBool(true))
    ensures Field(r.json.value, "leave_date") == Some(JNull)
    ensures Keys(r.json.value) == ["user_id", "guild_id", "member", "leave_date"]
    ensures PresenceConsistent(r.json.value)
  {
    var fields := [
      ("user_id", JInt(m.id)),
      ("guild_id", JInt(m.guildId)),
      ("member", JBool(true)),
      ("leave_date", JNull)];
    LookupAt(fields, "guild_id", 1);
    LookupAt(fields, "member", 2);
    LookupAt(fields, "leave_date", 3);
    Request(PUT, UrlFor(EditEndpoint(m.id)), Some(JObject(fields)))
  }

  /** `member_left`: PUT to `members/edit/{id}/` marking the member absent, with the leave date. */
  function MemberLeft(m: Member, now: string): (r: Request)
    ensures r.verb == PUT && r.url == UrlFor(EditEndpoint(m.id)) && r.json.Some?
    ensures Field(r.json.value, "user_id") == Some(JInt(m.id))
    ensures Field(r.json.value, "guild_id") == Some(JInt(m.guildId))
    ensures Field(r.json.value, "leave_date") == Some(JString(now))
    ensures Field(r.json.value, "member") == Some(JBool(false))
    ensures Keys(r.json.value) == ["user_id", "guild_id", "leave_date", "member"]
    ensures PresenceConsistent(r.json.value)
  {
    var fields := [
      ("user_id", JInt(m.id)),
      ("guild_id", JInt(m.guildId)),
      ("leave_date", JString(now)),
      ("member", JBool(false))];
    LookupAt(fields, "guild_id", 1);
    LookupAt(fields, "leave_date", 2);
    LookupAt(fields, "member", 3);
    Request(PUT, UrlFor(EditEndpoint(m.id)), Some(JObject(fields)))
  }

  function IntList(xs: seq<nat>): (r: seq<Json>)
    ensures |r| == |xs| && forall k | 0 <= k < |xs| :: r[k] == JInt(xs[k])
  {
    seq(|xs|, k requires 0 <= k < |xs| => JInt(xs[k]))
  }

  /** `edit_member_roles`: PUT to `members/edit/{id}/` of the role ids, in order; presence untouched. */
  function EditMemberRoles(m: Member, roleIds: seq<nat>): (r: Request)
    ensures r.verb == PUT && r.url == UrlFor(EditEndpoint(m.id)) && r.json.Some?
    ensures Field(r.json.value, "user_id") == Some(JInt(m.id))
    ensures Field(r.json.value, "guild_id") == Some(JInt(m.guildId))
    ensures Field(r.json.value, "roles") == Some(JArray(IntList(roleIds)))
    ensures Keys(r.json.value) == ["user_id", "guild_id", "roles"]
    ensures Field(r.json.value, "member").None? && Field(r.json.value, "leave_date").None?
  {
    var fields := [
      ("user_id", JInt(m.id)),
      ("guild_id", JInt(m.guildId)),
      ("roles", JArray(IntList(roleIds)))];
    LookupAt(fields, "guild_id", 1);
    LookupAt(fields, "roles", 2);
    LookupAbsent(fields, "member");
    LookupAbsent(fields, "leave_date");
    Request(PUT, UrlFor(EditEndpoint(m.id)), Some(JObject(fields)))
  }

  /** Rejoining, leaving and editing roles write the same record of the same member, and only that member's. */
  lemma PresenceWritesTargetOneRecord(m: Member, n: Member, now: string)
    ensures MemberRejoined(m).url == MemberLeft(m, now).url == EditMemberRoles(m, []).url
    ensures MemberRejoined(m).url == MemberRejoined(n).url ==> m.id == n.id
  {
    UrlForInjective(EditEndpoint(m.id), EditEndpoint(n.id));
    IdEndpointInjective("members/edit/", m.id, n.id);
  }

  // ---------------------------------------------------------------------------------------------
  // Warnings

  /** `member_meta["warnings"]`: the stored warnings, each a serialised string. */
  function StoredWarnings(meta: Json): (r: Result<seq<string>, Raised>)
    ensures r.Success? ==>
              Field(meta, "warnings").Some? && Field(meta, "warnings").value.JArray?
              && |r.value| == |Field(meta, "warnings").value.items|
              && forall k | 0 <= k < |r.value| :: Field(meta, "warnings").value.items[k] == JString(r.value[k])
    ensures Field(meta, "warnings").Some? && Field(meta, "warnings").value.JArray?
            && (forall k | 0 <= k < |Field(meta, "warnings").value.items| :: Field(meta, "warnings").value.items[k].JString?)
            ==> r.Success?
    ensures Field(meta, "warnings").None? ==> r == Failure(if meta.JObject? then LookupError("warnings") else TypeError)
  {
    match Field(meta, "warnings")
    case None => Failure(if meta.JObject? then LookupError("warnings") else TypeError)
    case Some(w) =>
      if w.JArray? && forall k | 0 <= k < |w.items| :: w.items[k].JString? then
        Success(seq(|w.items|, k requires 0 <= k < |w.items| => w.items[k].s))
      else Failure(TypeError)
  }

  /** The stored warnings of the answer to `member/meta/{id}/`. */
  function MetaWarnings(resp: Response): (r: Result<seq<string>, Raised>)
    ensures r.Success? ==> Outcome(resp).Success?
    ensures Outcome(resp).Success? ==> r == StoredWarnings(Outcome(resp).value)
    ensures Outcome(resp).Failure? ==> r == Failure(Outcome(resp).error)
  {
    match Outcome(resp)
    case Failure(e) => Failure(e)
    case Success(meta) => StoredWarnings(meta)
  }

  /** `get_member_warnings`: the stored warnings, each deserialised with `loads`, in order. */
  method GetMemberWarnings(resp: Response, loads: string -> Json) returns (r: Result<seq<Json>, Raised>)
    ensures r.Success? <==> MetaWarnings(resp).Success?
    ensures r.Failure? ==> r.error == MetaWarnings(resp).error
    ensures r.Success? ==>
              |r.value| == |MetaWarnings(resp).value|
              && forall k | 0 <= k < |r.value| :: r.value[k] == loads(MetaWarnings(resp).value[k])
  {
    var stored := MetaWarnings(resp);
    if stored.Failure? {
      return Failure(stored.error);
    }
    var raw := stored.value;
    var deserialized: seq<Json> := [];
    for i := 0 to |raw|
      invariant |deserialized| == i
      invariant forall k | 0 <= k < i :: deserialized[k] == loads(raw[k])
    {
      deserialized := deserialized + [loads(raw[i])];
    }
    r := Success(deserialized);
  }

  /** `get_member_warnings_count`: the number of stored warnings. */
  method GetMemberWarningsCount(resp: Response, loads: string -> Json) returns (r: Result<nat, Raised>)
    ensures r.Success? <==> MetaWarnings(resp).Success?
    ensures r.Failure? ==> r.error == MetaWarnings(resp).error
    ensures r.Success? ==> r.value == |MetaWarnings(resp).value|
  {
    var warnings := GetMemberWarnings(resp, loads);
    if warnings.Failure? {
      return Failure(warnings.error);
    }
    r := Success(|warnings.value|);
  }

  /** The warning `add_member_warning` records: moderator, reason and date, in that order. */
  function NewWarning(modId: nat, reason: string, now: string): Json {
    JObject([("mod", JInt(modId)), ("reason", JString(reason)), ("date", JString(now))])
  }

  /** `add_member_warning`: PUT to `member/meta/{id}/` of the stored warnings, deserialised and in
      order, followed by exactly one new entry, the serialised new warning. Old entries and the new
      one thus differ in kind: values from `loads` and a string from `dumps`. */
  method AddMemberWarning(modId: nat, memberId: nat, reason: string, now: string, resp: Response,
                          loads: string -> Json, dumps: Json -> string)
    returns (r: Result<Request, Raised>)
    ensures r.Success? <==> MetaWarnings(resp).Success?
    ensures r.Failure? ==> r.error == MetaWarnings(resp).error
    ensures r.Success? ==>
              var old_ := MetaWarnings(resp).value;
              && r.value.verb == PUT && r.value.url == UrlFor(MetaEndpoint(memberId))
              && r.value.json.Some? && Keys(r.value.json.value) == ["warnings"]
              && Field(r.value.json.value, "warnings").Some?
              && var sent := Field(r.value.json.value, "warnings").value;
              && sent.JArray? && |sent.items| == |old_| + 1
              && (forall k | 0 <= k < |old_| :: sent.items[k] == loads(old_[k]))
              && sent.items[|old_|] == JString(dumps(NewWarning(modId, reason, now)))
  {
    var newWarning := NewWarning(modId, reason, now);
    var current := GetMemberWarnings(resp, loads);
    if current.Failure? {
      return Failure(current.error);
    }
    var currentWarnings := current.value;
    currentWarnings := currentWarnings + [JString(dumps(newWarning))];
    var payload := JObject([("warnings", JArray(currentWarnings))]);
    r := Success(Request(PUT, UrlFor(MetaEndpoint(memberId)), Some(payload)));
  }
}
