/** Response classification (mtproto), its translation by the two API kits and by the
    application adapters, and the proof that the failure class survives every layer. */
module Protocol {
  import opened Domain

  // ---------------------------------------------------------------- responses

  datatype ForumsData = ForumsData(forumIDs: seq<int>, lastPostAuthors: seq<int>)

  datatype Topic = Topic(id: int, author: int, lastPostAuthor: int)

  /** The decoded data field: what each caller's json.Unmarshal would make of it. */
  datatype Payload = Payload(
    forums: Option<ForumsData>,
    topics: Option<seq<Topic>>,
    membersDecode: bool,
    profileDecode: bool)

  datatype Body = Malformed | Json(code: string, payload: Payload)

  datatype Response = Response(status: int, body: Body, headers: seq<Header>)

  const OK_STATUS := 200
  const UNAUTHORIZED_STATUS := 401

  /** mtproto.ValidateHTTPResponse */
  function ValidateHTTPResponse(res: Option<Response>, err: Option<Error>): Option<Error> {
    if err.Some? then err
    else if res.None? then Some(Wrap(Leaf(Proto(Business))))
    else if res.value.status == UNAUTHORIZED_STATUS then Some(Wrap(Leaf(Proto(AuthFailed))))
    else if res.value.status != OK_STATUS then Some(Wrap(Leaf(Proto(HTTPStatus))))
    else None
  }

  const TOTP_CODES := {"1001", "10001"}
  const LOGIN_CODES := {"401", "NOT_LOGIN", "NEED_LOGIN", "LOGIN_REQUIRED", "AUTH_EXPIRED"}

  /** mtproto.ParseResponse */
  function ParseResponse(res: Option<Response>, err: Option<Error>): (r: Result<Payload, Error>)
    ensures r.Success? ==> res.Some? && res.value.body.Json?
  {
    var invalid := ValidateHTTPResponse(res, err);
    if invalid.Some? then Failure(invalid.value)
    else match res.value.body
      case Malformed => Failure(Wrap(Leaf(Proto(Business))))
      case Json(code, payload) =>
        if code == "0" then Success(payload)
        else if code in TOTP_CODES then Failure(Wrap(Leaf(Proto(TOTPRequired))))
        else if code in LOGIN_CODES then Failure(Wrap(Leaf(Proto(AuthFailed))))
        else Failure(Wrap(Leaf(Proto(Business))))
  }

  /** The order in which both kits and both adapters look for a protocol kind. */
  function FirstKind(e: Error, of: Kind -> Sentinel): Option<Kind> {
    if e.Is(of(AuthFailed)) then Some(AuthFailed)
    else if e.Is(of(HTTPStatus)) then Some(HTTPStatus)
    else if e.Is(of(TOTPRequired)) then Some(TOTPRequired)
    else if e.Is(of(Business)) then Some(Business)
    else None
  }

  /** apimtbrowse.translateProtocolError on a non-nil error: a recognised protocol error is
      replaced by the kit's own sentinel (its old chain survives only as text). */
  function TranslateBrowse(e: Error): Error {
    var kind := FirstKind(e, k => Proto(k));
    if kind.Some? then Wrap(Leaf(BrowseKit(kind.value))) else e
  }

  /** apimtauth.translateProtocolError */
  function TranslateAuth(e: Error): Error {
    var kind := FirstKind(e, k => Proto(k));
    if kind.Some? then Wrap(Leaf(AuthKit(kind.value))) else e
  }

  function ParseBrowse(res: Option<Response>, err: Option<Error>): Result<Payload, Error> {
    match ParseResponse(res, err)
    case Success(p) => Success(p)
    case Failure(e) => Failure(TranslateBrowse(e))
  }

  /** app.mapAuthError */
  function MapAuthError(e: Error): Error {
    if e.Is(AuthKit(AuthFailed)) then Coded(MTAuthFailed, e)
    else if e.Is(AuthKit(HTTPStatus)) then Coded(MTHTTPStatus, e)
    else if e.Is(AuthKit(TOTPRequired)) then Coded(MTTOTPRequired, e)
    else if e.Is(AuthKit(Business)) then Coded(MTBusinessFailed, e)
    else e
  }

  /** app.mapBrowseError */
  function MapBrowseError(e: Error): Error {
    if e.Is(BrowseKit(AuthFailed)) then Coded(MTAuthFailed, e)
    else if e.Is(BrowseKit(HTTPStatus)) then Coded(MTHTTPStatus, e)
    else if e.Is(BrowseKit(TOTPRequired)) then Coded(MTTOTPRequired, e)
    else if e.Is(BrowseKit(RequestBuild)) then Coded(MTRequestBuildFailed, e)
    else if e.Is(BrowseKit(Business)) then Coded(MTBusinessFailed, e)
    else e
  }

  // ----------------------------------------------------- the intended reading

  /** What an answer of the server means, read off the answer alone. */
  datatype Class = Accepted | Denied(code: Code) | Transport

  function ClassOf(res: Option<Response>, err: Option<Error>, codeMatters: bool): Class {
    if err.Some? then Transport
    else match res
      case None => Denied(MTBusinessFailed)
      case Some(Response(status, body, _)) =>
        if status == 401 then Denied(MTAuthFailed)
        else if status != 200 then Denied(MTHTTPStatus)
        else if !codeMatters then Accepted
        else match body
          case Malformed => Denied(MTBusinessFailed)
          case Json("0", _) => Accepted
          case Json(code, _) =>
            if code == "1001" || code == "10001" then Denied(MTTOTPRequired)
            else if code == "401" || code == "NOT_LOGIN" || code == "NEED_LOGIN"
                 || code == "LOGIN_REQUIRED" || code == "AUTH_EXPIRED" then Denied(MTAuthFailed)
            else Denied(MTBusinessFailed)
  }

  /** An error, as the refresh service sees it, has exactly the code of its class, and is a
      cancellation or a deadline exactly when the transport error was one. */
  ghost predicate Carries(e: Error, verdict: Class, err: Option<Error>) {
    && !verdict.Accepted?
    && (forall c: Code :: e.IsCode(c) <==> verdict == Denied(c))
    && (forall s: Sentinel | s == Canceled || s == DeadlineExceeded ::
          e.Is(s) <==> err.Some? && err.value.Is(s))
  }

  /** The code that stands for a kind of protocol failure. */
  function CodeOf(k: Kind): Code {
    match k
    case AuthFailed => MTAuthFailed
    case HTTPStatus => MTHTTPStatus
    case Business => MTBusinessFailed
    case TOTPRequired => MTTOTPRequired
    case RequestBuild => MTRequestBuildFailed
  }

  /** What parsing an answer gives, by the class of the answer alone: its payload, the
      transport's error unchanged, or the sentinel of its class and no other. */
  lemma ParseMeaning(res: Option<Response>, err: Option<ForeignError>)
    ensures var r := ParseResponse(res, err);
            match ClassOf(res, err, true)
            case Accepted => r == Success(res.value.body.payload)
            case Transport => r == Failure(err.value)
            case Denied(code) =>
              r.Failure? && forall k: Kind :: r.error.Is(Proto(k)) <==> !k.RequestBuild? && CodeOf(k) == code
  {}

  lemma WrappedKindCarries(k: Kind, wraps: nat)
    ensures Carries(MapBrowseError(WrapTimes(Wrap(Leaf(BrowseKit(k))), wraps)), Denied(CodeOf(k)), None)
  {
    var e := Wrap(Leaf(BrowseKit(k)));
    forall s: Sentinel ensures WrapTimes(e, wraps).Is(s) == e.Is(s) {
      WrapKeepsMatches(e, wraps, s, ConfigInvalid);
    }
    forall c: Code ensures WrapTimes(e, wraps).IsCode(c) == e.IsCode(c) {
      WrapKeepsMatches(e, wraps, Opaque, c);
    }
  }

  lemma WrappedForeignCarries(e: ForeignError, wraps: nat)
    ensures Carries(MapBrowseError(WrapTimes(e, wraps)), Transport, Some(e))
  {
    ForeignIsUntouched(e);
    forall s: Sentinel ensures WrapTimes(e, wraps).Is(s) == e.Is(s) {
      WrapKeepsMatches(e, wraps, s, ConfigInvalid);
    }
    forall c: Code ensures WrapTimes(e, wraps).IsCode(c) == e.IsCode(c) {
      WrapKeepsMatches(e, wraps, Opaque, c);
    }
  }

  /** What the browse kit's error is: the transport's own, or the kit's sentinel for the class. */
  lemma BrowseErrorShape(res: Option<Response>, err: Option<ForeignError>) returns (k: Kind)
    requires ParseBrowse(res, err).Failure?
    ensures err.Some? ==> ParseBrowse(res, err).error == err.value && ClassOf(res, err, true) == Transport
    ensures err.None? ==> ParseBrowse(res, err).error == Wrap(Leaf(BrowseKit(k))) && ClassOf(res, err, true) == Denied(CodeOf(k))
  {
    k := Business;
    if err.Some? {
      ForeignIsUntouched(err.value);
    } else {
      k := FirstKind(ParseResponse(res, err).error, kind => Proto(kind)).value;
    }
  }

  /** The failure class fixed by transport error, status and business code survives protocol
      parsing, kit translation, any number of phase wrappings and the domain mapping. */
  lemma BrowseClassSurvives(res: Option<Response>, err: Option<ForeignError>, wraps: nat)
    ensures ParseBrowse(res, err).Success? <==> ClassOf(res, err, true).Accepted?
    ensures ParseBrowse(res, err).Success? ==> res.Some? && ParseBrowse(res, err).value == res.value.body.payload
    ensures ParseBrowse(res, err).Failure? ==>
              Carries(MapBrowseError(WrapTimes(ParseBrowse(res, err).error, wraps)), ClassOf(res, err, true), err)
  {
    if ParseBrowse(res, err).Failure? {
      var k := BrowseErrorShape(res, err);
      if err.Some? { WrappedForeignCarries(err.value, wraps); } else { WrappedKindCarries(k, wraps); }
    }
  }

  /** The same for /ping, whose body is never decoded. */
  lemma PingClassSurvives(res: Option<Response>, err: Option<ForeignError>)
    ensures ValidateHTTPResponse(res, err).None? <==> ClassOf(res, err, false).Accepted?
    ensures ValidateHTTPResponse(res, err).Some? ==>
              Carries(MapBrowseError(TranslateBrowse(ValidateHTTPResponse(res, err).value)), ClassOf(res, err, false), err)
  {
    if err.Some? { ForeignIsUntouched(err.value); }
  }

  lemma AuthErrorShape(res: Option<Response>, err: Option<ForeignError>) returns (k: Kind)
    requires ParseResponse(res, err).Failure?
    ensures err.Some? ==> TranslateAuth(ParseResponse(res, err).error) == err.value && ClassOf(res, err, true) == Transport
    ensures err.None? ==> TranslateAuth(ParseResponse(res, err).error) == Wrap(Leaf(AuthKit(k)))
                          && ClassOf(res, err, true) == Denied(CodeOf(k)) && !k.RequestBuild?
  {
    k := Business;
    if err.Some? {
      ForeignIsUntouched(err.value);
    } else {
      k := FirstKind(ParseResponse(res, err).error, kind => Proto(kind)).value;
    }
  }

  lemma AuthKindCarries(k: Kind)
    requires !k.RequestBuild?
    ensures Carries(MapAuthError(Wrap(Leaf(AuthKit(k)))), Denied(CodeOf(k)), None)
  {}

  /** The same for the login kit. */
  lemma AuthClassSurvives(res: Option<Response>, err: Option<ForeignError>)
    ensures ParseResponse(res, err).Success? <==> ClassOf(res, err, true).Accepted?
    ensures ParseResponse(res, err).Failure? ==>
              Carries(MapAuthError(TranslateAuth(ParseResponse(res, err).error)), ClassOf(res, err, true), err)
  {
    if ParseResponse(res, err).Failure? {
      var k := AuthErrorShape(res, err);
      if err.Some? { ForeignIsUntouched(err.value); } else { AuthKindCarries(k); }
    }
  }

  lemma ForeignIsUntouched(e: ForeignError)
    ensures TranslateBrowse(e) == e && TranslateAuth(e) == e
    ensures MapBrowseError(e) == e && MapAuthError(e) == e
    ensures forall c: Code :: !e.IsCode(c)
    ensures forall s: Sentinel | s.Proto? || s.AuthKit? || s.BrowseKit? :: !e.Is(s)
  {
    forall s: Sentinel | s.Proto? || s.AuthKit? || s.BrowseKit? ensures !e.Is(s) {
      ForeignCarriesNothing(e, s, ConfigInvalid);
    }
    forall c: Code ensures !e.IsCode(c) {
      ForeignCarriesNothing(e, Opaque, c);
    }
  }
}
