/**
 * The sign-up endpoint (src/app/api/auth/register/route.ts): it checks that
 * a password and an email or phone were sent, builds the attributes for the
 * auth service's user creation step by step, and reports the outcome.
 */
module RegisterRoute {
  import opened Wrappers
  import opened Types
  import opened Http
  import opened JsStrings

  /** The request body; an absent or null field is None. */
  datatype RegisterRequest = RegisterRequest(email: Option<string>, phone: Option<string>, password: Option<string>, fullName: Option<string>)

  /** The object handed to `auth.admin.createUser`; an attribute never assigned is None. */
  datatype UserAttributes = UserAttributes(
    password: Option<string>, email_confirm: bool, phone_confirm: bool,
    full_name: Option<string>, email: Option<string>, phone: Option<string>)

  /** What `createUser` returned: an error message, or data whose `user` may be missing. */
  datatype CreateResult = CreateError(message: string) | Created(user: Option<AuthUser>)

  /** The two checks before any call: None when the request may proceed. */
  function Validate(request: RegisterRequest): (problem: Option<string>)
    ensures !Truthy(request.password) ==> problem == Some("Password is required")
    ensures Truthy(request.password) && !Truthy(request.email) && !Truthy(request.phone) ==>
      problem == Some("Email or Phone is required")
    ensures problem.None? <==> Truthy(request.password) && (Truthy(request.email) || Truthy(request.phone))
  {
    if !Truthy(request.password) then Some("Password is required")
    else if !Truthy(request.email) && !Truthy(request.phone) then Some("Email or Phone is required")
    else None
  }

  /**
   * The attributes built for a request: password, both confirmations and the
   * full name always; the email when one was given; the phone when one was
   * given, with or without an email.
   */
  method BuildAttributes(request: RegisterRequest) returns (attrs: UserAttributes)
    ensures attrs.password == request.password && attrs.email_confirm && attrs.phone_confirm
    ensures attrs.full_name == request.fullName
    ensures Truthy(request.email) ==> attrs.email == request.email
    ensures !Truthy(request.email) ==> attrs.email.None?
    ensures Truthy(request.phone) ==> attrs.phone == request.phone
    ensures !Truthy(request.phone) ==> attrs.phone.None?
  {
    attrs := UserAttributes(request.password, true, true, request.fullName, None, None);
    if Truthy(request.email) {
      attrs := attrs.(email := request.email);
      if Truthy(request.phone) {
        attrs := attrs.(phone := request.phone);
      }
    } else if Truthy(request.phone) {
      attrs := attrs.(phone := request.phone);
    }
  }

  /**
   * `POST`, given the body and what user creation returns for the attributes
   * it is sent. It answers with the reply and the attributes sent, None when
   * validation stopped the request before the call.
   */
  method Register(request: RegisterRequest, created: CreateResult) returns (reply: Reply<AuthUser>, sent: Option<UserAttributes>)
    ensures Validate(request).Some? ==> reply == Err(400, Validate(request).value) && sent.None?
    ensures Validate(request).None? ==> sent.Some? && sent.value.password == request.password
    ensures Validate(request).None? ==> sent.value.email.Some? || sent.value.phone.Some?
    ensures Validate(request).None? ==>
      && sent.value.email_confirm && sent.value.phone_confirm && sent.value.full_name == request.fullName
      && sent.value.email == (if Truthy(request.email) then request.email else None)
      && sent.value.phone == (if Truthy(request.phone) then request.phone else None)
    ensures Validate(request).None? && created.CreateError? ==> reply == Err(400, created.message)
    ensures Validate(request).None? && created.Created? && created.user.Some? ==> reply == Ok(created.user.value)
    ensures Validate(request).None? && created.Created? && created.user.None? ==> reply == Err(500, "Failed to create user")
  {
    if !Truthy(request.password) {
      return Err(400, "Password is required"), None;
    }
    if !Truthy(request.email) && !Truthy(request.phone) {
      return Err(400, "Email or Phone is required"), None;
    }
    var attrs := BuildAttributes(request);
    sent := Some(attrs);
    match created
    case CreateError(message) => reply := Err(400, message);
    case Created(user) =>
      if user.Some? {
        reply := Ok(user.value);
      } else {
        reply := Err(500, "Failed to create user");
      }
  }

  /**
   * The whole handler: `body` is the parsed request, or the message of the
   * error raised while reading it, which the `catch` answers with 500 and
   * that message, or "Internal Server Error" when the message is empty.
   */
  method Post(body: Fetch<RegisterRequest>, created: CreateResult) returns (reply: Reply<AuthUser>, sent: Option<UserAttributes>)
    ensures body.Threw? ==> sent.None? && reply == Err(500, if body.message != "" then body.message else "Internal Server Error")
    ensures body.Loaded? && Validate(body.value).Some? ==> reply == Err(400, Validate(body.value).value) && sent.None?
    ensures body.Loaded? && Validate(body.value).None? ==> sent.Some? && sent.value.password == body.value.password
    ensures body.Loaded? && Validate(body.value).None? ==>
      && sent.value.email_confirm && sent.value.phone_confirm && sent.value.full_name == body.value.fullName
      && sent.value.email == (if Truthy(body.value.email) then body.value.email else None)
      && sent.value.phone == (if Truthy(body.value.phone) then body.value.phone else None)
    ensures body.Loaded? && Validate(body.value).None? && created.CreateError? ==> reply == Err(400, created.message)
    ensures body.Loaded? && Validate(body.value).None? && created.Created? && created.user.Some? ==> reply == Ok(created.user.value)
    ensures body.Loaded? && Validate(body.value).None? && created.Created? && created.user.None? ==>
      reply == Err(500, "Failed to create user")
  {
    match body {
      case Threw(message) =>
        reply := Err(500, if message != "" then message else "Internal Server Error");
        sent := None;
      case Loaded(request) =>
        reply, sent := Register(request, created);
    }
  }
}
