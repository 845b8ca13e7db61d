/** The four request handlers. Each validates the body if it has one,
    awaits the matching service call, and then either sends a success
    envelope, passes the thrown error to next(), or, when the service
    resolved to a falsy value, does neither. The handlers are functions of
    what the service settles with (as the controller tests mock it); the
    Handle* methods run them against the real UserStore. */
module UserController {
  import opened Wrappers
  import opened JsValues
  import opened UserModel
  import opened Http
  import opened UserValidator
  import opened UserService
  import opened ErrorMiddleware

  /** Which service operation a handler awaited, with what arguments. */
  datatype ServiceCall =
    | CreateCall(data: Payload)
    | GetCall(id: Id)
    | UpdateCall(id: Id, data: Payload)
    | DeleteCall(id: Id)

  /** How the awaited service promise settled: a value (None for a falsy
      one) or a thrown error. */
  datatype Settlement = Resolved(value: Option<UserDoc>) | Rejected(error: ErrorObject)

  /** What a handler does with the request: res.send, next(error), or nothing. */
  datatype Outcome = Respond(response: Response) | Forward(error: ErrorObject) | NoResponse

  /** The service call a handler made, if any, and its outcome. */
  datatype Run = Run(call: Option<ServiceCall>, outcome: Outcome)

  const CreatedMessage := "User created successfully"
  const RetrievedMessage := "User details retrieved successfully"
  const UpdatedMessage := "User updated successfully"
  const DeletedMessage := "User deleted successfully"

  function Success(code: int, message: string, data: Option<UserDoc>): Response
  {
    Response(code, Envelope("success", Some(code), Some(message), data))
  }

  /** `if (user) return res.status(code).send(...)` inside try, `next(error)` in catch. */
  function Settle(s: Settlement, code: int, message: string, withData: bool): Outcome
  {
    match s
    case Rejected(e) => Forward(e)
    case Resolved(None) => NoResponse
    case Resolved(Some(user)) => Respond(Success(code, message, if withData then Some(user) else None))
  }

  /** createUser: validateCreateUserData(req.body), then
      userServices.createUser(req.body); 201 without data. */
  function CreateUser(body: Json, isEmail: string -> bool, service: ServiceCall -> Settlement): (r: Run)
    ensures r.call.None? <==> ValidateCreateUserData(body, isEmail).Err?
    ensures r.call.None? ==> r.outcome == Forward(ValidateCreateUserData(body, isEmail).error)
    ensures r.call.Some? ==> body.JObj? && r.call.value == CreateCall(body.fields)
    ensures r.call.Some? ==>
              match service(r.call.value)
              case Rejected(e) => r.outcome == Forward(e)
              case Resolved(None) => r.outcome == NoResponse
              case Resolved(Some(_)) =>
                r.outcome == Respond(Response(201, Envelope("success", Some(201), Some(CreatedMessage), None)))
  {
    match ValidateCreateUserData(body, isEmail)
    case Err(e) => Run(None, Forward(e))
    case Ok(_) =>
      var call := CreateCall(body.fields);
      Run(Some(call), Settle(service(call), 201, CreatedMessage, false))
  }

  /** getUser: userServices.getUser(req.params.id); 200 with the user as data. */
  function GetUser(id: Id, service: ServiceCall -> Settlement): (r: Run)
    ensures r.call == Some(GetCall(id))
    ensures match service(GetCall(id))
            case Rejected(e) => r.outcome == Forward(e)
            case Resolved(None) => r.outcome == NoResponse
            case Resolved(Some(user)) =>
              r.outcome == Respond(Response(200, Envelope("success", Some(200), Some(RetrievedMessage), Some(user))))
  {
    Run(Some(GetCall(id)), Settle(service(GetCall(id)), 200, RetrievedMessage, true))
  }

  /** updateUser: validateUpdateUserData(req.body), then
      userServices.updateUser(id, req.body); 200 with the user as data. */
  function UpdateUser(id: Id, body: Json, isEmail: string -> bool, service: ServiceCall -> Settlement): (r: Run)
    ensures r.call.None? <==> ValidateUpdateUserData(body, isEmail).Err?
    ensures r.call.None? ==> r.outcome == Forward(ValidateUpdateUserData(body, isEmail).error)
    ensures r.call.Some? ==> body.JObj? && r.call.value == UpdateCall(id, body.fields)
    ensures r.call.Some? ==>
              match service(r.call.value)
              case Rejected(e) => r.outcome == Forward(e)
              case Resolved(None) => r.outcome == NoResponse
              case Resolved(Some(user)) =>
                r.outcome == Respond(Response(200, Envelope("success", Some(200), Some(UpdatedMessage), Some(user))))
  {
    match ValidateUpdateUserData(body, isEmail)
    case Err(e) => Run(None, Forward(e))
    case Ok(_) =>
      var call := UpdateCall(id, body.fields);
      Run(Some(call), Settle(service(call), 200, UpdatedMessage, true))
  }

  /** deleteUser: userServices.deleteUser(req.params.id); 200 without data. */
  function DeleteUser(id: Id, service: ServiceCall -> Settlement): (r: Run)
    ensures r.call == Some(DeleteCall(id))
    ensures match service(DeleteCall(id))
            case Rejected(e) => r.outcome == Forward(e)
            case Resolved(None) => r.outcome == NoResponse
            case Resolved(Some(_)) =>
              r.outcome == Respond(Response(200, Envelope("success", Some(200), Some(DeletedMessage), None)))
  {
    Run(Some(DeleteCall(id)), Settle(service(DeleteCall(id)), 200, DeletedMessage, false))
  }

  /** The validator's parsed value is discarded: the service receives the
      body as sent, unknown keys included. */
  lemma ServiceGetsOriginalBody(m: Payload, isEmail: string -> bool, service: ServiceCall -> Settlement, extra: string)
    requires ValidateCreateUserData(JObj(m), isEmail).Ok?
    requires extra in m && extra != "name" && extra != "email" && extra != "age"
    ensures CreateUser(JObj(m), isEmail, service).call == Some(CreateCall(m))
    ensures ValidateCreateUserData(JObj(m), isEmail).value != m
  {
    var parsed := ValidateCreateUserData(JObj(m), isEmail).value;
    assert extra !in KeysOf(CreateSchema);
    assert extra !in parsed;
  }

  /** What the client finally gets: the handler's envelope, the error
      middleware's reply to a forwarded error, Express's own reply when
      the middleware throws, or nothing at all. */
  datatype Delivery = Sent(response: Response) | MiddlewareThrew | Hangs

  function Deliver(o: Outcome): (d: Delivery)
    // a handler's own envelope is what the client gets
    ensures o.Respond? ==> d == Sent(o.response)
    // a forwarded error gets the middleware's reply, when it replies
    ensures o.Forward? && Handle(o.error).Replied? ==> d == Sent(Handle(o.error).response)
    // a request is left hanging exactly when the controller neither replied nor called next
    ensures d.Hangs? <==> o.NoResponse?
    // whatever reaches the client after a forward carries the error envelope
    ensures o.Forward? && d.Sent? ==> d.response.body.status == "error" && d.response.body.data.None?
    ensures d.MiddlewareThrew? ==> o.Forward?
  {
    match o
    case Respond(response) => Sent(response)
    case NoResponse => Hangs
    case Forward(e) =>
      match Handle(e)
      case Replied(response, _) => Sent(response)
      case Threw => MiddlewareThrew
  }

  /** The real service either resolves to a document or throws. */
  function FromService(r: Result<UserDoc, ErrorObject>): (s: Settlement)
    ensures s != Resolved(None)
  {
    match r
    case Ok(user) => Resolved(Some(user))
    case Err(e) => Rejected(e)
  }

  /** Not found: get, update and delete on a well-formed id that matches
      no document reach the client as 404 "User not found". */
  lemma MissingUserIs404(users: map<Id, UserRecord>, isObjectId: Id -> bool, id: Id, m: Payload, isEmail: string -> bool, now: Time)
    requires isObjectId(id) && id !in users
    requires IsUpdateData(m) && ("email" in m ==> isEmail(m["email"].s))
    ensures var notFound := Sent(Response(404, Envelope("error", Some(404), Some("User not found"), None)));
            && Deliver(GetUser(id, _ => FromService(GetResult(users, isObjectId, id))).outcome) == notFound
            && Deliver(DeleteUser(id, _ => FromService(DeleteStep(users, isObjectId, id).result)).outcome) == notFound
            && Deliver(UpdateUser(id, JObj(m), isEmail, _ => FromService(UpdateStep(users, isObjectId, id, m, now).result)).outcome) == notFound
  {
    UpdateAcceptsExactly(m, isEmail);
  }

  /** A malformed id reaches the client as 400 "Invalid resource ID". */
  lemma MalformedIdIs400(users: map<Id, UserRecord>, isObjectId: Id -> bool, id: Id, m: Payload, isEmail: string -> bool, now: Time)
    requires !isObjectId(id)
    ensures var invalid := Sent(Response(400, Envelope("error", Some(400), Some("Invalid resource ID"), None)));
            && Deliver(GetUser(id, _ => FromService(GetResult(users, isObjectId, id))).outcome) == invalid
            && Deliver(DeleteUser(id, _ => FromService(DeleteStep(users, isObjectId, id).result)).outcome) == invalid
            && (IsUpdateData(m) && ("email" in m ==> isEmail(m["email"].s)) ==>
                Deliver(UpdateUser(id, JObj(m), isEmail, _ => FromService(UpdateStep(users, isObjectId, id, m, now).result)).outcome) == invalid)
  {
    if IsUpdateData(m) && ("email" in m ==> isEmail(m["email"].s)) {
      UpdateAcceptsExactly(m, isEmail);
    }
  }

  /** The middleware's duplicate-key message for key email, written out. */
  lemma EmailConflictMessage()
    ensures "email" + " already exist" == "email already exist"
  {
    assert "email" + " already" == "email already";
  }

  /** Conflict: creating a user whose email another user has reaches the
      client as 400 "email already exist". */
  lemma DuplicateEmailIs400(users: map<Id, UserRecord>, m: Payload, isEmail: string -> bool, newId: Id, now: Time, holder: Id)
    requires IsUserData(m) && isEmail(m["email"].s) && newId !in users
    requires m["name"].s != "" && m["email"].s != ""
    requires holder in users && users[holder].email == m["email"].s
    ensures Deliver(CreateUser(JObj(m), isEmail, _ => FromService(CreateStep(users, m, newId, now).result)).outcome)
            == Sent(Response(400, Envelope("error", Some(400), Some("email already exist"), None)))
  {
    CreateAcceptsExactly(m, isEmail);
    CreateRejectsDuplicateEmail(users, m, newId, now, holder);
    EmailConflictMessage();
  }

  /** A valid create of a new email reaches the client as 201 without data. */
  lemma ValidCreateIs201(users: map<Id, UserRecord>, m: Payload, isEmail: string -> bool, newId: Id, now: Time)
    requires IsUserData(m) && isEmail(m["email"].s) && newId !in users
    requires m["name"].s != "" && m["email"].s != ""
    requires forall id :: id in users ==> users[id].email != m["email"].s
    ensures Deliver(CreateUser(JObj(m), isEmail, _ => FromService(CreateStep(users, m, newId, now).result)).outcome)
            == Sent(Response(201, Envelope("success", Some(201), Some(CreatedMessage), None)))
  {
    CreateAcceptsExactly(m, isEmail);
    assert OwnersOf(users, m["email"].s) == {};
  }

  /** The middleware's invalid_type message for path name, written out. */
  lemma NameTypeMessage(received: string)
    ensures "name" + " should be a " + "string" + " not " + received == "name should be a string not " + received
  {
    assert "name" + " should be a " + "string" + " not " == "name should be a string not ";
  }

  /** The middleware's invalid_type message for an array age, written out. */
  lemma AgeTypeMessage()
    ensures "age" + " should be a " + "number" + " not " + "array" == "age should be a number not array"
  {
    assert "age" + " should be a " == "age should be a ";
    assert "age should be a " + "number" == "age should be a number";
  }

  /** The middleware's reply to the create validator's error for a body
      whose name is missing or not a string. */
  lemma BadNameReply(m: Payload, isEmail: string -> bool)
    requires !("name" in m && m["name"].JStr?)
    ensures ValidateCreateUserData(JObj(m), isEmail).Err?
    ensures Handle(ValidateCreateUserData(JObj(m), isEmail).error)
            == ErrorReply(400, Some("name should be a string not " + ReceivedLabel(m, "name")))
  {
    CreateRejectsBadName(m, isEmail);
    var e := ValidateCreateUserData(JObj(m), isEmail).error;
    ZodTypeIssueMessage(e, "name", "string", ReceivedLabel(m, "name"));
    NameTypeMessage(ReceivedLabel(m, "name"));
  }

  /** A create body whose name is missing or not a string reaches the
      client as 400 "name should be a string not <received type>", and
      the service is never called. */
  lemma BadNameMessage(m: Payload, isEmail: string -> bool, service: ServiceCall -> Settlement)
    requires !("name" in m && m["name"].JStr?)
    ensures CreateUser(JObj(m), isEmail, service).call.None?
    ensures Deliver(CreateUser(JObj(m), isEmail, service).outcome)
            == Sent(Response(400, Envelope("error", Some(400),
                      Some("name should be a string not " + ReceivedLabel(m, "name")), None)))
  {
    BadNameReply(m, isEmail);
    var e := ValidateCreateUserData(JObj(m), isEmail).error;
    assert CreateUser(JObj(m), isEmail, service).outcome == Forward(e);
  }

  /** A create body with a string email that fails the email check reaches
      the client as 400 with zod's own message, "Invalid email". */
  lemma BadEmailMessage(m: Payload, isEmail: string -> bool, service: ServiceCall -> Settlement)
    requires "name" in m && m["name"].JStr? && "email" in m && m["email"].JStr? && !isEmail(m["email"].s)
    ensures Deliver(CreateUser(JObj(m), isEmail, service).outcome)
            == Sent(Response(400, Envelope("error", Some(400), Some("Invalid email"), None)))
  {
    CreateEmailRules(m, isEmail);
  }

  /** The middleware's reply to either validator's error for a body whose
      name and email pass and whose age is an array. */
  lemma ArrayAgeReply(s: Schema, name: string, email: string, isEmail: string -> bool)
    requires s == CreateSchema || s == UpdateSchema
    requires isEmail(email)
    ensures var m := map["name" := JStr(name), "email" := JStr(email), "age" := JArr([])];
            && Parse(s, JObj(m), isEmail).Err?
            && Handle(Parse(s, JObj(m), isEmail).error) == ErrorReply(400, Some("age should be a number not array"))
  {
    var m := map["name" := JStr(name), "email" := JStr(email), "age" := JArr([])];
    AgeMustBeNumber(s, m, isEmail);
    ZodTypeIssueMessage(Parse(s, JObj(m), isEmail).error, "age", "number", "array");
    AgeTypeMessage();
  }

  /** A body whose age is an array, as in the controller tests' bad
      requests: both create and update answer 400 "age should be a number
      not array" without calling the service. */
  lemma ArrayAgeMessage(name: string, email: string, isEmail: string -> bool, id: Id, service: ServiceCall -> Settlement)
    requires isEmail(email)
    ensures var body := JObj(map["name" := JStr(name), "email" := JStr(email), "age" := JArr([])]);
            var reply := Sent(Response(400, Envelope("error", Some(400), Some("age should be a number not array"), None)));
            && CreateUser(body, isEmail, service).call.None?
            && Deliver(CreateUser(body, isEmail, service).outcome) == reply
            && UpdateUser(id, body, isEmail, service).call.None?
            && Deliver(UpdateUser(id, body, isEmail, service).outcome) == reply
  {
    var body := JObj(map["name" := JStr(name), "email" := JStr(email), "age" := JArr([])]);
    ArrayAgeReply(CreateSchema, name, email, isEmail);
    assert CreateUser(body, isEmail, service).outcome == Forward(Parse(CreateSchema, body, isEmail).error);
    ArrayAgeReply(UpdateSchema, name, email, isEmail);
    assert UpdateUser(id, body, isEmail, service).outcome == Forward(Parse(UpdateSchema, body, isEmail).error);
  }

  /** An empty name passes the validator but not Mongoose's required check,
      so the client gets the fallback: 500 with the ValidationError's message. */
  lemma EmptyNameOnCreateIs500(users: map<Id, UserRecord>, email: string, isEmail: string -> bool, newId: Id, now: Time)
    requires isEmail(email) && email != "" && newId !in users
    ensures var m := map["name" := JStr(""), "email" := JStr(email)];
            Deliver(CreateUser(JObj(m), isEmail, _ => FromService(CreateStep(users, m, newId, now).result)).outcome)
            == Sent(Response(500, Envelope("error", Some(500),
                      Some("User validation failed: name: Path `name` is required."), None)))
  {
    var m := map["name" := JStr(""), "email" := JStr(email)];
    CreateAcceptsEmptyName(email, isEmail);
    CreateRejectsMissingName(users, m, newId, now);
    var e := ValidationError(["name"]);
    RequiredNameMessage();
    FallbackKeepsMessage(e);
    assert CreateUser(JObj(m), isEmail, _ => FromService(CreateStep(users, m, newId, now).result)).outcome == Forward(e);
  }

  /** POST /users against the real store. `reply` is what the store
      answered; when validation fails the store is never called and
      `reply` carries the validator's error, which is what reaches `next`. */
  method HandleCreateUser(store: UserStore, body: Json, isEmail: string -> bool, newId: Id, now: Time)
    returns (run: Run, reply: Result<UserDoc, ErrorObject>)
    requires store.Valid() && newId !in store.users && store.isObjectId(newId)
    modifies store
    ensures store.Valid()
    ensures run == CreateUser(body, isEmail, _ => FromService(reply))
    ensures !run.outcome.NoResponse?
    ensures run.call.None? ==> store.users == old(store.users)
    ensures run.call.Some? ==> body.JObj? && IsUserData(body.fields)
                               && Step(reply, store.users) == CreateStep(old(store.users), body.fields, newId, now)
  {
    var checked := ValidateCreateUserData(body, isEmail);
    if checked.Err? {
      reply := Err(checked.error);
      run := Run(None, Forward(checked.error));
      return;
    }
    CreateAcceptsExactly(body.fields, isEmail);
    reply := store.CreateUser(body.fields, newId, now);
    run := Run(Some(CreateCall(body.fields)), Settle(FromService(reply), 201, CreatedMessage, false));
  }

  method HandleGetUser(store: UserStore, id: Id) returns (run: Run, reply: Result<UserDoc, ErrorObject>)
    requires store.Valid()
    ensures run == GetUser(id, _ => FromService(reply))
    ensures reply == GetResult(store.users, store.isObjectId, id)
    ensures !run.outcome.NoResponse?
  {
    reply := store.GetUser(id);
    run := Run(Some(GetCall(id)), Settle(FromService(reply), 200, RetrievedMessage, true));
  }

  /** PATCH /users/:id against the real store. `reply` is what the store
      answered; when validation fails the store is never called and
      `reply` carries the validator's error, which is what reaches `next`. */
  method HandleUpdateUser(store: UserStore, id: Id, body: Json, isEmail: string -> bool, now: Time)
    returns (run: Run, reply: Result<UserDoc, ErrorObject>)
    requires store.Valid()
    modifies store
    ensures store.Valid()
    ensures run == UpdateUser(id, body, isEmail, _ => FromService(reply))
    ensures !run.outcome.NoResponse?
    ensures run.call.None? ==> store.users == old(store.users)
    ensures run.call.Some? ==> body.JObj? && IsUpdateData(body.fields)
                               && Step(reply, store.users) == UpdateStep(old(store.users), store.isObjectId, id, body.fields, now)
  {
    var checked := ValidateUpdateUserData(body, isEmail);
    if checked.Err? {
      reply := Err(checked.error);
      run := Run(None, Forward(checked.error));
      return;
    }
    UpdateAcceptsExactly(body.fields, isEmail);
    reply := store.UpdateUser(id, body.fields, now);
    run := Run(Some(UpdateCall(id, body.fields)), Settle(FromService(reply), 200, UpdatedMessage, true));
  }

  method HandleDeleteUser(store: UserStore, id: Id) returns (run: Run, reply: Result<UserDoc, ErrorObject>)
    requires store.Valid()
    modifies store
    ensures store.Valid()
    ensures run == DeleteUser(id, _ => FromService(reply))
    ensures !run.outcome.NoResponse?
    ensures Step(reply, store.users) == DeleteStep(old(store.users), store.isObjectId, id)
  {
    reply := store.DeleteUser(id);
    run := Run(Some(DeleteCall(id)), Settle(FromService(reply), 200, DeletedMessage, false));
  }
}
