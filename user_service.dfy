/** The user service over the users collection. The collection is a map
    from id to stored document; the pure step functions below say what
    each operation returns and what the collection becomes, and the
    class UserStore performs them in place. Whether an id string is a
    valid ObjectId is Mongoose's rule and is left abstract
    (`isObjectId`); fresh ids and the clock are parameters. */
module UserService {
  import opened Wrappers
  import opened JsValues
  import opened UserModel

  /** The HttpException(status, message) the service throws: an Error
      carrying statusCode and message. */
  function HttpException(status: int, message: string): (r: ErrorObject)
    // no parse-failure type, no code, and neither a ZodError nor a CastError:
    // only the error middleware's fallback matches it
    ensures r.errorType.None? && r.code.None?
    ensures r.name != Some("ZodError") && r.name != Some("CastError")
    ensures r.statusCode == Some(status) && r.message == Some(message)
  {
    Bare.(name := Some("Error"), statusCode := Some(status), message := Some(message))
  }

  const NotFound := HttpException(404, "User not found")

  /** ensureUserExists: a null lookup becomes the not-found failure. */
  function EnsureUserExists(user: Option<UserDoc>): (r: Result<UserDoc, ErrorObject>)
    ensures r.Ok? <==> user.Some?
    ensures r.Ok? ==> r.value == user.value
    ensures r.Err? ==> r.error.statusCode == Some(404) && r.error.message == Some("User not found")
  {
    match user
    case None => Err(NotFound)
    case Some(u) => Ok(u)
  }

  /** What an operation returns, and the collection after it. */
  datatype Step = Step(result: Result<UserDoc, ErrorObject>, users: map<Id, UserRecord>)

  /** new UserModel(data): the timestamps come from the store's clock. */
  function NewRecord(data: Payload, now: Time): UserRecord
    requires IsUserData(data)
  {
    UserRecord(data["name"].s, data["email"].s, AgeOf(data), now, now, 0)
  }

  /** The fields present in the update replace the stored ones; updatedAt is stamped. */
  function ApplyUpdate(rec: UserRecord, data: Payload, now: Time): UserRecord
    requires IsUpdateData(data)
  {
    rec.(name := if "name" in data then data["name"].s else rec.name,
         email := if "email" in data then data["email"].s else rec.email,
         age := if "age" in data then Some(data["age"].n) else rec.age,
         updatedAt := now)
  }

  /** createUser: save() validates the required paths, then the unique
      index rejects a duplicate email; only then is the document added. */
  function CreateStep(users: map<Id, UserRecord>, data: Payload, newId: Id, now: Time): (r: Step)
    requires IsUserData(data) && newId !in users
    ensures r.result.Ok? <==> data["name"].s != "" && data["email"].s != ""
                              && forall id :: id in users ==> users[id].email != data["email"].s
    ensures r.result.Err? ==> r.users == users
    ensures r.result.Ok? ==> r.users.Keys == users.Keys + {newId}
                             && forall id :: id in users ==> r.users[id] == users[id]
    // save() resolves to the saved document itself: its new id, the body's
    // fields, the store's timestamps and __v
    ensures r.result.Ok? ==> newId in r.users && r.result.value == Document(newId, r.users[newId], true)
    ensures r.result.Ok? ==> r.result.value.version == Some(0)
                             && r.result.value.createdAt == now && r.result.value.updatedAt == now
  {
    var rec := NewRecord(data, now);
    var missing := MissingRequired(rec.name, rec.email);
    NoOwners(users, rec.email);
    if missing != [] then Step(Err(ValidationError(missing)), users)
    else if OwnersOf(users, rec.email) != {} then Step(Err(DuplicateKeyError("email", rec.email)), users)
    else Step(Ok(Document(newId, rec, true)), users[newId := rec])
  }

  /** getUser: findById(id).select('-__v'), then ensureUserExists. */
  function GetResult(users: map<Id, UserRecord>, isObjectId: Id -> bool, id: Id): (r: Result<UserDoc, ErrorObject>)
    ensures r.Ok? <==> isObjectId(id) && id in users
    ensures r.Ok? ==> r.value == Document(id, users[id], false) && r.value.version.None?
    ensures r.Err? ==> if isObjectId(id) then r.error == NotFound else r.error.name == Some("CastError")
  {
    if !isObjectId(id) then Err(CastError(id))
    else EnsureUserExists(if id in users then Some(Document(id, users[id], false)) else None)
  }

  /** updateUser: findByIdAndUpdate(id, data, { new: true }).select('-__v'),
      then ensureUserExists. Update queries run no schema validators, but
      the unique index still rejects an email held by another document. */
  function UpdateStep(users: map<Id, UserRecord>, isObjectId: Id -> bool, id: Id, data: Payload, now: Time): (r: Step)
    requires IsUpdateData(data)
    ensures r.result.Ok? <==> isObjectId(id) && id in users
                              && !("email" in data && exists other :: other in users && other != id && users[other].email == data["email"].s)
    ensures r.result.Err? ==> r.users == users
    ensures r.result.Ok? ==> r.users.Keys == users.Keys
                             && forall other :: other in users && other != id ==> r.users[other] == users[other]
  {
    if !isObjectId(id) then Step(Err(CastError(id)), users)
    else if id !in users then Step(EnsureUserExists(None), users)
    else
      var rec := ApplyUpdate(users[id], data, now);
      OtherOwners(users, rec.email, id);
      if "email" in data && OwnersOf(users, rec.email) - {id} != {} then
        Step(Err(DuplicateKeyError("email", rec.email)), users)
      else
        Step(EnsureUserExists(Some(Document(id, rec, false))), users[id := rec])
  }

  /** deleteUser: findByIdAndDelete(id) (no projection), then ensureUserExists. */
  function DeleteStep(users: map<Id, UserRecord>, isObjectId: Id -> bool, id: Id): (r: Step)
    ensures r.result.Ok? <==> isObjectId(id) && id in users
    ensures r.users == if r.result.Ok? then users - {id} else users
    ensures r.result.Ok? ==> r.result.value == Document(id, users[id], true)
  {
    if !isObjectId(id) then Step(Err(CastError(id)), users)
    else if id !in users then Step(EnsureUserExists(None), users)
    else Step(EnsureUserExists(Some(Document(id, users[id], true))), users - {id})
  }

  /** The store's invariant: unique emails, and only well-formed ids as keys. */
  ghost predicate StoreInvariant(users: map<Id, UserRecord>, isObjectId: Id -> bool)
  {
    UniqueEmails(users) && forall id :: id in users ==> isObjectId(id)
  }

  lemma CreateKeepsInvariant(users: map<Id, UserRecord>, isObjectId: Id -> bool, data: Payload, newId: Id, now: Time)
    requires StoreInvariant(users, isObjectId) && IsUserData(data) && newId !in users && isObjectId(newId)
    ensures StoreInvariant(CreateStep(users, data, newId, now).users, isObjectId)
  {
    var s := CreateStep(users, data, newId, now);
    if s.result.Ok? {
      var email := data["email"].s;
      assert OwnersOf(users, email) == {};
      assert forall b :: b in users ==> b !in OwnersOf(users, email);
      assert forall b :: b in users ==> users[b].email != email;
    }
  }

  lemma UpdateKeepsInvariant(users: map<Id, UserRecord>, isObjectId: Id -> bool, id: Id, data: Payload, now: Time)
    requires StoreInvariant(users, isObjectId) && IsUpdateData(data)
    ensures StoreInvariant(UpdateStep(users, isObjectId, id, data, now).users, isObjectId)
  {
    var s := UpdateStep(users, isObjectId, id, data, now);
    if s.result.Ok? && "email" in data {
      var email := data["email"].s;
      assert OwnersOf(users, email) - {id} == {};
      forall b | b in users && b != id ensures users[b].email != email {
        assert b !in OwnersOf(users, email) - {id};
      }
    }
  }

  lemma DeleteKeepsInvariant(users: map<Id, UserRecord>, isObjectId: Id -> bool, id: Id)
    requires StoreInvariant(users, isObjectId)
    ensures StoreInvariant(DeleteStep(users, isObjectId, id).users, isObjectId)
  {
  }

  /** A create that would duplicate an email is the 11000 condition, and
      leaves the collection as it was. */
  lemma CreateRejectsDuplicateEmail(users: map<Id, UserRecord>, data: Payload, newId: Id, now: Time, holder: Id)
    requires IsUserData(data) && newId !in users
    requires data["name"].s != "" && data["email"].s != ""
    requires holder in users && users[holder].email == data["email"].s
    ensures CreateStep(users, data, newId, now) == Step(Err(DuplicateKeyError("email", data["email"].s)), users)
  {
    assert holder in OwnersOf(users, data["email"].s);
  }

  /** A create whose name is empty fails Mongoose's required check with a
      ValidationError, before the unique index is consulted. */
  lemma CreateRejectsMissingName(users: map<Id, UserRecord>, data: Payload, newId: Id, now: Time)
    requires IsUserData(data) && newId !in users
    requires data["name"].s == "" && data["email"].s != ""
    ensures CreateStep(users, data, newId, now) == Step(Err(ValidationError(["name"])), users)
  {
    assert MissingRequired("", data["email"].s) == ["name"];
  }

  /** A successful create adds exactly one new document and changes no other. */
  lemma CreateAddsExactlyOne(users: map<Id, UserRecord>, data: Payload, newId: Id, now: Time)
    requires IsUserData(data) && newId !in users
    requires CreateStep(users, data, newId, now).result.Ok?
    ensures var after := CreateStep(users, data, newId, now).users;
            after.Keys == users.Keys + {newId} && |after| == |users| + 1
            && forall id :: id in users ==> after[id] == users[id]
  {
    var rec := NewRecord(data, now);
    var after := users[newId := rec];
    assert CreateStep(users, data, newId, now).users == after;
    assert after.Keys == users.Keys + {newId};
    assert |after.Keys| == |users.Keys| + 1;
  }

  /** createUser then getUser on the new id: the same name, email and age,
      store-chosen timestamps, and no __v. */
  lemma CreateThenGet(users: map<Id, UserRecord>, isObjectId: Id -> bool, data: Payload, newId: Id, now: Time)
    requires IsUserData(data) && newId !in users && isObjectId(newId)
    requires CreateStep(users, data, newId, now).result.Ok?
    ensures var got := GetResult(CreateStep(users, data, newId, now).users, isObjectId, newId);
            && got.Ok? && got.value.id == newId
            && got.value.name == data["name"].s && got.value.email == data["email"].s
            && got.value.age == AgeOf(data)
            && got.value.createdAt == now && got.value.updatedAt == now
            && got.value.version.None?
  {
  }

  /** updateUser returns the document as it now is, the one getUser returns;
      present fields are replaced, absent ones kept, the rest untouched. */
  lemma UpdateThenGet(users: map<Id, UserRecord>, isObjectId: Id -> bool, id: Id, data: Payload, now: Time)
    requires IsUpdateData(data)
    requires UpdateStep(users, isObjectId, id, data, now).result.Ok?
    ensures var s := UpdateStep(users, isObjectId, id, data, now);
            && s.result == GetResult(s.users, isObjectId, id)
            && s.result.value.name == (if "name" in data then data["name"].s else users[id].name)
            && s.result.value.email == (if "email" in data then data["email"].s else users[id].email)
            && s.result.value.age == (if "age" in data then Some(data["age"].n) else users[id].age)
            && s.result.value.createdAt == users[id].createdAt
            && s.result.value.updatedAt == now && s.users[id].updatedAt == now
            && s.users.Keys == users.Keys
            && forall other :: other in users && other != id ==> s.users[other] == users[other]
  {
  }

  /** An update to an email another document holds is the 11000 condition,
      and leaves the collection as it was. */
  lemma UpdateRejectsDuplicateEmail(users: map<Id, UserRecord>, isObjectId: Id -> bool, id: Id, data: Payload, now: Time, holder: Id)
    requires IsUpdateData(data) && isObjectId(id) && id in users
    requires "email" in data && holder in users && holder != id && users[holder].email == data["email"].s
    ensures UpdateStep(users, isObjectId, id, data, now) == Step(Err(DuplicateKeyError("email", data["email"].s)), users)
  {
    assert holder in OwnersOf(users, data["email"].s) - {id};
  }

  /** deleteUser removes exactly that document and returns it with __v;
      a later getUser on it is the not-found failure. */
  lemma DeleteThenGet(users: map<Id, UserRecord>, isObjectId: Id -> bool, id: Id)
    requires DeleteStep(users, isObjectId, id).result.Ok?
    ensures var s := DeleteStep(users, isObjectId, id);
            && s.result.value == Document(id, users[id], true) && s.result.value.version.Some?
            && s.users.Keys == users.Keys - {id}
            && (forall other :: other in s.users ==> s.users[other] == users[other])
            && GetResult(s.users, isObjectId, id) == Err(NotFound)
  {
  }

  /** A well-formed id that matches no document: update and delete are the
      not-found failure and change nothing (getUser: see GetResult). */
  lemma MissingIdIsNotFound(users: map<Id, UserRecord>, isObjectId: Id -> bool, id: Id, data: Payload, now: Time)
    requires isObjectId(id) && id !in users && IsUpdateData(data)
    ensures UpdateStep(users, isObjectId, id, data, now) == Step(Err(NotFound), users)
    ensures DeleteStep(users, isObjectId, id) == Step(Err(NotFound), users)
  {
  }

  /** A malformed id: every id-taking operation raises a CastError and changes nothing. */
  lemma MalformedIdIsCastError(users: map<Id, UserRecord>, isObjectId: Id -> bool, id: Id, data: Payload, now: Time)
    requires !isObjectId(id) && IsUpdateData(data)
    ensures GetResult(users, isObjectId, id) == Err(CastError(id))
    ensures UpdateStep(users, isObjectId, id, data, now) == Step(Err(CastError(id)), users)
    ensures DeleteStep(users, isObjectId, id) == Step(Err(CastError(id)), users)
  {
  }

  /** The users collection, changed in place by the service's operations. */
  class UserStore {
    var users: map<Id, UserRecord>
    const isObjectId: Id -> bool

    ghost predicate Valid()
      reads this
    {
      StoreInvariant(users, isObjectId)
    }

    constructor (isObjectId: Id -> bool)
      ensures Valid() && users == map[] && this.isObjectId == isObjectId
    {
      this.isObjectId := isObjectId;
      users := map[];
    }

    method CreateUser(data: Payload, newId: Id, now: Time) returns (r: Result<UserDoc, ErrorObject>)
      requires Valid() && IsUserData(data) && newId !in users && isObjectId(newId)
      modifies this
      ensures Valid()
      ensures Step(r, users) == CreateStep(old(users), data, newId, now)
    {
      CreateKeepsInvariant(users, isObjectId, data, newId, now);
      var rec := NewRecord(data, now);
      var missing := MissingRequired(rec.name, rec.email);
      if missing != [] {
        r := Err(ValidationError(missing));
      } else if OwnersOf(users, rec.email) != {} {
        r := Err(DuplicateKeyError("email", rec.email));
      } else {
        users := users[newId := rec];
        r := Ok(Document(newId, rec, true));
      }
    }

    method GetUser(id: Id) returns (r: Result<UserDoc, ErrorObject>)
      requires Valid()
      ensures r == GetResult(users, isObjectId, id)
      ensures r.Ok? <==> isObjectId(id) && id in users
      ensures r.Ok? ==> r.value.id == id && r.value.name == users[id].name
                        && r.value.email == users[id].email && r.value.age == users[id].age
                        && r.value.version.None?
    {
      if !isObjectId(id) {
        r := Err(CastError(id));
      } else if id in users {
        r := EnsureUserExists(Some(Document(id, users[id], false)));
      } else {
        r := EnsureUserExists(None);
      }
    }

    method UpdateUser(id: Id, data: Payload, now: Time) returns (r: Result<UserDoc, ErrorObject>)
      requires Valid() && IsUpdateData(data)
      modifies this
      ensures Valid()
      ensures Step(r, users) == UpdateStep(old(users), isObjectId, id, data, now)
    {
      UpdateKeepsInvariant(users, isObjectId, id, data, now);
      if !isObjectId(id) {
        r := Err(CastError(id));
      } else if id !in users {
        r := EnsureUserExists(None);
      } else {
        var rec := ApplyUpdate(users[id], data, now);
        OtherOwners(users, rec.email, id);
        if "email" in data && OwnersOf(users, rec.email) - {id} != {} {
          r := Err(DuplicateKeyError("email", rec.email));
        } else {
          users := users[id := rec];
          r := EnsureUserExists(Some(Document(id, rec, false)));
        }
      }
    }

    method DeleteUser(id: Id) returns (r: Result<UserDoc, ErrorObject>)
      requires Valid()
      modifies this
      ensures Valid()
      ensures Step(r, users) == DeleteStep(old(users), isObjectId, id)
    {
      DeleteKeepsInvariant(users, isObjectId, id);
      if !isObjectId(id) {
        r := Err(CastError(id));
      } else if id !in users {
        r := EnsureUserExists(None);
      } else {
        r := EnsureUserExists(Some(Document(id, users[id], true)));
        users := users - {id};
      }
    }
  }
}
