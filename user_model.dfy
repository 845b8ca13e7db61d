/** The User document of the Mongoose schema: a required string name, a
    required string email that a unique index keeps distinct across the
    collection, an optional numeric age, and createdAt/updatedAt stamps
    maintained by the store. */
module UserModel {
  import opened Wrappers
  import opened JsValues

  /** A document id as the client writes it in the URL. */
  type Id = string

  /** An opaque timestamp supplied by the store's clock. */
  type Time = int

  /** A stored document; `version` is Mongoose's `__v` key. */
  datatype UserRecord = UserRecord(
    name: string,
    email: string,
    age: Option<real>,
    createdAt: Time,
    updatedAt: Time,
    version: nat)

  /** A document as a query returns it: with its `_id`, and with `__v`
      unless the query projected it away. */
  datatype UserDoc = UserDoc(
    id: Id,
    name: string,
    email: string,
    age: Option<real>,
    createdAt: Time,
    updatedAt: Time,
    version: Option<nat>)

  function Document(id: Id, rec: UserRecord, withVersion: bool): UserDoc
  {
    UserDoc(id, rec.name, rec.email, rec.age, rec.createdAt, rec.updatedAt,
            if withVersion then Some(rec.version) else None)
  }

  /** The ids of the stored documents holding a given email. */
  function OwnersOf(users: map<Id, UserRecord>, email: string): set<Id>
  {
    set id | id in users && users[id].email == email
  }

  /** Some document other than `id` holds the email exactly when the
      owners of that email, less `id`, are not empty. */
  lemma OtherOwners(users: map<Id, UserRecord>, email: string, id: Id)
    ensures OwnersOf(users, email) - {id} != {}
            <==> exists other :: other in users && other != id && users[other].email == email
  {
    if OwnersOf(users, email) - {id} != {} {
      var other :| other in OwnersOf(users, email) - {id};
      assert other in users && other != id && users[other].email == email;
    }
    if exists other :: other in users && other != id && users[other].email == email {
      var other :| other in users && other != id && users[other].email == email;
      assert other in OwnersOf(users, email) - {id};
    }
  }

  /** No document holds the email exactly when it has no owners. */
  lemma NoOwners(users: map<Id, UserRecord>, email: string)
    ensures OwnersOf(users, email) == {} <==> forall id :: id in users ==> users[id].email != email
  {
    if OwnersOf(users, email) != {} {
      var holder :| holder in OwnersOf(users, email);
      assert holder in users && users[holder].email == email;
    } else {
      forall id | id in users ensures users[id].email != email {
        assert id !in OwnersOf(users, email);
      }
    }
  }

  /** The unique index on email: no two stored documents share one. */
  ghost predicate UniqueEmails(users: map<Id, UserRecord>)
  {
    forall a, b :: a in users && b in users && users[a].email == users[b].email ==> a == b
  }

  /** The shape of the `User` interface that createUser's data is typed
      with: string name and email, and a number age when present. */
  predicate IsUserData(data: Payload)
  {
    && "name" in data && data["name"].JStr?
    && "email" in data && data["email"].JStr?
    && ("age" in data ==> data["age"].JNum?)
  }

  /** The shape of a partial update: every schema field that is present
      has the schema's type. Other plain keys are ignored by the strict
      schema; update operators such as `$set` are not modelled. */
  predicate IsUpdateData(data: Payload)
  {
    && ("name" in data ==> data["name"].JStr?)
    && ("email" in data ==> data["email"].JStr?)
    && ("age" in data ==> data["age"].JNum?)
  }

  /** The age a payload carries, if any. */
  function AgeOf(data: Payload): Option<real>
    requires "age" in data ==> data["age"].JNum?
  {
    if "age" in data then Some(data["age"].n) else None
  }

  /** The paths whose `required: true` check fails, in schema order.
      Mongoose's required check on a String rejects the empty string. */
  function MissingRequired(name: string, email: string): (r: seq<string>)
    ensures r == [] <==> name != "" && email != ""
    ensures "name" in r <==> name == ""
    ensures "email" in r <==> email == ""
  {
    (if name == "" then ["name"] else []) + (if email == "" then ["email"] else [])
  }

  function RequiredMessages(paths: seq<string>): string
    decreases |paths|
  {
    if paths == [] then ""
    else
      var item := paths[0] + ": Path `" + paths[0] + "` is required.";
      if |paths| == 1 then item else item + ", " + RequiredMessages(paths[1..])
  }

  /** The ValidationError that save() raises when required paths are missing. */
  function ValidationError(paths: seq<string>): (r: ErrorObject)
    // no parse-failure type, no code and no status: only the fallback
    // branch of the error middleware matches it, and its message is non-empty
    ensures r.errorType.None? && r.code.None? && r.statusCode.None?
    ensures r.name == Some("ValidationError")
    ensures r.message.Some? && |r.message.value| > 0
  {
    Bare.(name := Some("ValidationError"),
          message := Some("User validation failed: " + RequiredMessages(paths)))
  }

  /** The MongoServerError the unique index raises: code 11000 and a
      keyValue object whose only key is the duplicated field. */
  function DuplicateKeyError(key: string, value: string): (r: ErrorObject)
    // neither a parse failure nor a ZodError, so the 11000 branch sees it,
    // and the first key of keyValue is the duplicated field
    ensures r.errorType.None? && r.name != Some("ZodError")
    ensures r.code == Some(11000) && r.keyValue.Some? && |r.keyValue.value| > 0 && r.keyValue.value[0] == key
  {
    Bare.(name := Some("MongoServerError"), code := Some(11000), keyValue := Some([key]),
          message := Some("E11000 duplicate key error collection: users index: " + key
                          + "_1 dup key: { " + key + ": \"" + value + "\" }"))
  }

  /** The CastError a query raises for an id that is not an ObjectId. */
  function CastError(value: string): (r: ErrorObject)
    // no parse-failure type, not a ZodError and no code 11000, so the
    // middleware's CastError branch is the first to match it
    ensures r.name == Some("CastError") && r.errorType.None? && r.code.None?
  {
    Bare.(name := Some("CastError"),
          message := Some("Cast to ObjectId failed for value \"" + value
                          + "\" (type string) at path \"_id\" for model \"User\""))
  }

  /** The message save() gives when only the name is missing. */
  lemma RequiredNameMessage()
    ensures ValidationError(["name"]).message == Some("User validation failed: name: Path `name` is required.")
  {
    assert ["name"][0] == "name";
    assert RequiredMessages(["name"]) == "name" + ": Path `" + "name" + "` is required.";
    assert "name" + ": Path `" == "name: Path `";
    assert "name: Path `" + "name" == "name: Path `name";
    assert "name: Path `name" + "` is required." == "name: Path `name` is required.";
    assert "User validation failed: " + "name: Path `name` is required."
           == "User validation failed: name: Path `name` is required.";
  }
}
