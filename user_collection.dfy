/** The users collection behind the Mongoose model, reduced to what the
    business layers ask of it: look a user up by id or email, save a
    document, update or delete by id. The collection enforces the schema's
    unique indexes on `email` and `username`. Object ids come from a counter:
    what matters is only that a new id is unused. */
module UserCollection {
  import opened Wrappers
  import opened UserDocument
  import opened ObjectIds

  /** The start of the driver's message for a write that breaks a unique index. */
  const DuplicateKeyMessage: string := "E11000 duplicate key error"

  /** An id as a request or a query names it: a string that casts to the
      object id of `id`, or one that does not cast. */
  datatype IdArg = Cast(id: Id) | Malformed(text: MalformedId)

  /** No two users share an email or a username. */
  predicate UniqueKeys(users: map<Id, UserRecord>)
  {
    forall a, b :: a in users && b in users && a != b ==>
      users[a].email != users[b].email && users[a].username != users[b].username
  }

  /** `findOne({$or: [{email}, {username}]})` finds a document. */
  predicate Taken(users: map<Id, UserRecord>, email: Option<string>, username: Option<string>)
  {
    exists id :: id in users && (Some(users[id].email) == email || Some(users[id].username) == username)
  }

  /** Storing `u` under its id would share an email or a username with another user. */
  predicate Clashes(users: map<Id, UserRecord>, u: UserRecord)
  {
    exists id :: id in users && id != u.id && (users[id].email == u.email || users[id].username == u.username)
  }

  /** Replacing or adding a user that clashes with no other keeps the keys unique. */
  lemma StoreKeepsKeysUnique(users: map<Id, UserRecord>, u: UserRecord)
    requires UniqueKeys(users) && !Clashes(users, u)
    ensures UniqueKeys(users[u.id := u])
  {
  }

  class UserStore {
    var users: map<Id, UserRecord>
    var nextId: Id

    ghost predicate Valid()
      reads this
    {
      (forall id :: id in users ==> id < nextId && users[id].id == id) && UniqueKeys(users)
    }

    constructor ()
      ensures Valid() && users == map[]
    {
      users, nextId := map[], 0;
    }

    /** The `_id` `new User(...)` assigns: not used by any stored user. */
    method NewObjectId() returns (id: Id)
      requires Valid()
      modifies this`nextId
      ensures Valid() && id !in users && id == old(nextId) && nextId == id + 1
    {
      id := nextId;
      nextId := nextId + 1;
    }

    /** `User.findById(id)`: the cast error of a malformed id; otherwise a
        fresh document, or `null`. */
    method FindById(arg: IdArg) returns (r: Result<UserDoc?>)
      ensures arg.Malformed? ==> r == Failure(CastMessage("User", arg.text))
      ensures arg.Cast? ==> r.Success? && (r.value == null <==> arg.id !in users)
      ensures arg.Cast? && r.Success? && r.value != null ==>
                fresh(r.value) && r.value.Record() == users[arg.id] && !r.value.passwordModified
    {
      if arg.Malformed? {
        return Failure(CastMessage("User", arg.text));
      }
      if arg.id in users {
        var doc := new UserDoc.Load(users[arg.id]);
        r := Success(doc);
      } else {
        r := Success(null);
      }
    }

    /** `User.findOne({email})`: the user with this email, or `null`. */
    method FindOneByEmail(email: string) returns (doc: UserDoc?)
      requires Valid()
      ensures doc == null <==> forall id :: id in users ==> users[id].email != email
      ensures doc != null ==> fresh(doc) && doc.id in users && users[doc.id].email == email
      ensures doc != null ==> doc.Record() == users[doc.id] && !doc.passwordModified
    {
      if exists id :: id in users && users[id].email == email {
        var id :| id in users && users[id].email == email;
        doc := new UserDoc.Load(users[id]);
      } else {
        doc := null;
      }
    }

    /** `doc.save()`: run the pre-save hook, then store the document under its id. */
    method Save(doc: UserDoc, hash: string -> string)
      requires Valid()
      requires doc.id in users ==> doc.email == users[doc.id].email && doc.username == users[doc.id].username
      requires doc.id !in users ==> doc.id < nextId && !Taken(users, Some(doc.email), Some(doc.username))
      modifies this, doc
      ensures Valid() && nextId == old(nextId)
      ensures doc.Record() == if old(doc.passwordModified) then old(doc.Record()).(password := hash(old(doc.password)))
                              else old(doc.Record())
      ensures users == old(users)[doc.id := doc.Record()]
    {
      doc.PreSave(hash);
      StoreKeepsKeysUnique(users, doc.Record());
      users := users[doc.id := doc.Record()];
    }

    /** `User.findByIdAndUpdate(id, d, {new: true, runValidators: true})`:
        the cast of the id comes first, then the validators of the given
        paths, then the lookup, then the unique indexes. `Success(None)` is
        the `null` of a missing user. */
    method FindByIdAndUpdate(arg: IdArg, d: UserData, emailPattern: string -> bool) returns (r: Result<Option<UserRecord>>)
      requires Valid()
      modifies this`users
      ensures Valid()
      ensures arg.Malformed? ==> r == Failure(CastMessage("User", arg.text)) && users == old(users)
      ensures arg.Cast? && ValidationErrors(d, false, emailPattern) != [] ==>
                r == Failure("Validation failed: " + JoinMessages(ValidationErrors(d, false, emailPattern))) &&
                users == old(users)
      ensures arg.Cast? && ValidationErrors(d, false, emailPattern) == [] && arg.id !in old(users) ==>
                r == Success(None) && users == old(users)
      ensures arg.Cast? && ValidationErrors(d, false, emailPattern) == [] && arg.id in old(users) &&
              Clashes(old(users), ApplyUpdate(old(users)[arg.id], d)) ==>
                r == Failure(DuplicateKeyMessage) && users == old(users)
      ensures arg.Cast? && ValidationErrors(d, false, emailPattern) == [] && arg.id in old(users) &&
              !Clashes(old(users), ApplyUpdate(old(users)[arg.id], d)) ==>
                r == Success(Some(ApplyUpdate(old(users)[arg.id], d))) &&
                users == old(users)[arg.id := ApplyUpdate(old(users)[arg.id], d)]
    {
      if arg.Malformed? {
        return Failure(CastMessage("User", arg.text));
      }
      var id := arg.id;
      var errors := ValidationErrors(d, false, emailPattern);
      if errors != [] {
        return Failure("Validation failed: " + JoinMessages(errors));
      }
      if id !in users {
        return Success(None);
      }
      var updated := ApplyUpdate(users[id], d);
      if Clashes(users, updated) {
        return Failure(DuplicateKeyMessage);
      }
      StoreKeepsKeysUnique(users, updated);
      users := users[id := updated];
      r := Success(Some(updated));
    }

    /** `User.findByIdAndDelete(id)`: the cast error of a malformed id; the
        removed user, or `null`. */
    method FindByIdAndDelete(arg: IdArg) returns (r: Result<Option<UserRecord>>)
      requires Valid()
      modifies this`users
      ensures Valid()
      ensures arg.Malformed? ==> r == Failure(CastMessage("User", arg.text)) && users == old(users)
      ensures arg.Cast? && arg.id !in old(users) ==> r == Success(None) && users == old(users)
      ensures arg.Cast? && arg.id in old(users) ==>
                r == Success(Some(old(users)[arg.id])) && users == old(users) - {arg.id}
    {
      if arg.Malformed? {
        return Failure(CastMessage("User", arg.text));
      }
      if arg.id in users {
        r := Success(Some(users[arg.id]));
        users := users - {arg.id};
      } else {
        r := Success(None);
      }
    }

    /** `new User(d).save()` for data no stored user conflicts with:
        validate, take a fresh id, hash the password, store. */
    method Insert(d: UserData, emailPattern: string -> bool, hash: string -> string, now: Millis)
      returns (r: Result<UserRecord>)
      requires Valid() && !Taken(users, d.email, d.username)
      modifies this
      ensures Valid()
      ensures ValidationErrors(d, true, emailPattern) != [] ==>
                r == Failure("User validation failed: " + JoinMessages(ValidationErrors(d, true, emailPattern))) &&
                users == old(users) && nextId == old(nextId)
      ensures ValidationErrors(d, true, emailPattern) == [] ==>
                d.username.Some? && d.email.Some? && d.password.Some? &&
                old(nextId) !in old(users) && nextId == old(nextId) + 1 &&
                r == Success(NewUserRecord(old(nextId), d, hash, now)) &&
                users == old(users)[old(nextId) := NewUserRecord(old(nextId), d, hash, now)]
    {
      var errors := ValidationErrors(d, true, emailPattern);
      if errors != [] {
        return Failure("User validation failed: " + JoinMessages(errors));
      }
      CreateValidationMeans(d, emailPattern);
      var id := NewObjectId();
      var role := if d.role.Some? then ParseRole(d.role.value) else None;
      var doc := new UserDoc.Create(id, d.username.value, d.email.value, d.password.value, role, d.isVerified, d.isActive,
                                 d.otp, d.lastLogin, now);
      Save(doc, hash);
      r := Success(doc.Record());
    }
  }
}
