/** The users of the JSON-file version (modules/users/users-model.js). Every
    call reads `data/users.json` into an array, changes the array in memory
    and writes it back; the file is the state. A write that fails leaves the
    file as it was and the call answers `null`. Ids are compared with
    `=== parseInt(id)`, so the id argument is the already parsed integer. */
module UsersFile {
  import opened Wrappers
  import opened Json
  import opened DataHelpers
  import opened RecordArrays

  /** `getUserByID(id)`: the first user whose `id` is the number `id`. */
  function GetUserById(users: seq<Object>, id: int): (r: Option<Object>)
    ensures r.None? <==> forall j :: 0 <= j < |users| ==> !FieldIs(users[j], "id", Num(id as real))
    ensures r.Some? ==> r.value in users && FieldIs(r.value, "id", Num(id as real))
    ensures r.Some? ==> exists i :: 0 <= i < |users| && users[i] == r.value &&
                                    forall j :: 0 <= j < i ==> !FieldIs(users[j], "id", Num(id as real))
  {
    FindFirst(users, "id", Num(id as real))
  }

  /** `getUserByUsername(username)`. */
  function GetUserByUsername(users: seq<Object>, username: string): (r: Option<Object>)
    ensures r.None? <==> forall j :: 0 <= j < |users| ==> !FieldIs(users[j], "username", Str(username))
    ensures r.Some? ==> r.value in users && FieldIs(r.value, "username", Str(username))
    ensures r.Some? ==> exists i :: 0 <= i < |users| && users[i] == r.value &&
                                    forall j :: 0 <= j < i ==> !FieldIs(users[j], "username", Str(username))
  {
    FindFirst(users, "username", Str(username))
  }

  /** `getUserByEmail(email)`. */
  function GetUserByEmail(users: seq<Object>, email: string): (r: Option<Object>)
    ensures r.None? <==> forall j :: 0 <= j < |users| ==> !FieldIs(users[j], "email", Str(email))
    ensures r.Some? ==> r.value in users && FieldIs(r.value, "email", Str(email))
    ensures r.Some? ==> exists i :: 0 <= i < |users| && users[i] == r.value &&
                                    forall j :: 0 <= j < i ==> !FieldIs(users[j], "email", Str(email))
  {
    FindFirst(users, "email", Str(email))
  }

  /** `{id: newId, joinedDate, ...userData}`: because `...userData` comes
      last, an `id` or `joinedDate` in the data replaces the generated one;
      every other property is the data's. */
  function NewUser(users: seq<Object>, userData: Object, joinedDate: string): (u: Object)
    ensures u.Keys == userData.Keys + {"id", "joinedDate"}
    ensures u["id"] == (if "id" in userData then userData["id"] else IdValue(NewId(users)))
    ensures u["joinedDate"] == (if "joinedDate" in userData then userData["joinedDate"] else Str(joinedDate))
    ensures forall k :: k in userData ==> u[k] == userData[k]
  {
    Spread(map["id" := IdValue(NewId(users)), "joinedDate" := Str(joinedDate)], userData)
  }

  /** `{...user, ...userData, id: parseInt(id), joinedDate: user.joinedDate}`.
      A missing `joinedDate` is `undefined`, which `JSON.stringify` drops. */
  function MergedUser(previous: Object, userData: Object, id: int): (u: Object)
    ensures "id" in u && u["id"] == Num(id as real)
    ensures "joinedDate" in u <==> "joinedDate" in previous
    ensures "joinedDate" in previous ==> u["joinedDate"] == previous["joinedDate"]
    ensures u.Keys == previous.Keys + userData.Keys + {"id"} - (if "joinedDate" in previous then {} else {"joinedDate"})
    ensures forall k :: k in userData && k != "id" && k != "joinedDate" ==> u[k] == userData[k]
    ensures forall k :: k in previous && k !in userData && k != "id" ==> u[k] == previous[k]
  {
    var merged := Spread(Spread(previous, userData), map["id" := Num(id as real)]);
    if "joinedDate" in previous then merged["joinedDate" := previous["joinedDate"]]
    else merged - {"joinedDate"}
  }

  /** The favourites `addFavoriteBook`/`removeFavoriteBook` see: absent or
      falsy is no list yet, an array is the list, any other value is not a list. */
  function FavoritesOf(user: Object): (f: Option<seq<Json>>)
  {
    if "favoriteBooks" !in user || !Truthy(user["favoriteBooks"]) then Some([])
    else if user["favoriteBooks"].Arr? then Some(user["favoriteBooks"].items)
    else None
  }

  /** The user after `addFavoriteBook`: the list is created if missing, and
      the id appended only when it is not in it yet. `None` when the
      property holds something other than an array. */
  function WithFavorite(user: Object, bookId: int): (r: Option<Object>)
    ensures r.Some? <==> FavoritesOf(user).Some?
    ensures r.Some? ==> r.value.Keys == user.Keys + {"favoriteBooks"}
    ensures r.Some? ==> forall k :: k in user && k != "favoriteBooks" ==> r.value[k] == user[k]
    ensures r.Some? ==>
              r.value["favoriteBooks"] ==
                Arr(if Num(bookId as real) in FavoritesOf(user).value then FavoritesOf(user).value
                    else FavoritesOf(user).value + [Num(bookId as real)])
  {
    var favorites := FavoritesOf(user);
    if favorites.None? then None
    else
      var b := Num(bookId as real);
      Some(user["favoriteBooks" := Arr(if b in favorites.value then favorites.value else favorites.value + [b])])
  }

  /** Adding a favourite twice is adding it once. */
  lemma AddFavoriteIdempotent(user: Object, bookId: int)
    requires WithFavorite(user, bookId).Some?
    ensures WithFavorite(WithFavorite(user, bookId).value, bookId) == WithFavorite(user, bookId)
  {
    var once := WithFavorite(user, bookId).value;
    assert FavoritesOf(once).Some? && Num(bookId as real) in FavoritesOf(once).value;
    assert once["favoriteBooks" := once["favoriteBooks"]] == once;
  }

  /** The user after `removeFavoriteBook`: every occurrence of the id is
      filtered out of an array that holds it; otherwise nothing changes.
      `None` when `includes` would be called on something not an array. */
  function WithoutFavorite(user: Object, bookId: int): (r: Option<Object>)
    ensures r.Some? <==> FavoritesOf(user).Some?
    ensures r.Some? ==> r.value.Keys == user.Keys
    ensures r.Some? ==> forall k :: k in user && k != "favoriteBooks" ==> r.value[k] == user[k]
    ensures r.Some? && Num(bookId as real) !in FavoritesOf(user).value ==> r.value == user
  {
    var b := Num(bookId as real);
    if "favoriteBooks" !in user || !Truthy(user["favoriteBooks"]) then Some(user)
    else if !user["favoriteBooks"].Arr? then None
    else if b in user["favoriteBooks"].items then
      Some(user["favoriteBooks" := Arr(RemoveAll(user["favoriteBooks"].items, b))])
    else Some(user)
  }

  /** Removing a favourite leaves no occurrence of it and keeps every other
      entry in its order; all other properties are untouched. */
  lemma WithoutFavoriteSpec(user: Object, bookId: int)
    requires FavoritesOf(user).Some?
    ensures var r := WithoutFavorite(user, bookId);
            r.Some? && r.value.Keys == user.Keys &&
            (forall k :: k in user && k != "favoriteBooks" ==> r.value[k] == user[k]) &&
            FavoritesOf(r.value).Some? &&
            FavoritesOf(r.value).value == RemoveAll(FavoritesOf(user).value, Num(bookId as real))
  {
    var items := FavoritesOf(user).value;
    if Num(bookId as real) !in items {
      RemoveAllAbsent(items, Num(bookId as real));
    }
  }

  /** Removing a favourite that adding just put there gives the list back. */
  lemma RemoveUndoesAdd(user: Object, bookId: int)
    requires FavoritesOf(user).Some? && Num(bookId as real) !in FavoritesOf(user).value
    ensures var added := WithFavorite(user, bookId).value;
            FavoritesOf(WithoutFavorite(added, bookId).value) == FavoritesOf(user)
  {
    var items := FavoritesOf(user).value;
    var b := Num(bookId as real);
    var added := WithFavorite(user, bookId).value;
    assert FavoritesOf(added) == Some(items + [b]);
    WithoutFavoriteSpec(added, bookId);
    RemoveAllDistributes(items, [b], b);
    RemoveAllAbsent(items, b);
    assert RemoveAll([b], b) == [];
    assert RemoveAll(items + [b], b) == items + [];
    assert items + [] == items;
  }

  /** The outcome of a favourites call: `null` (no such user, or the write
      failed), the user, or a
      `TypeError` thrown by `includes`/`filter` on a value that is not an array. */
  datatype Reply = NoUser | User(user: Object) | TypeError

  /** The content of `data/users.json`. */
  class UsersStore {
    var users: seq<Object>

    constructor (users: seq<Object>)
      ensures this.users == users
    {
      this.users := users;
    }

    /** `addNewUser(userData)`: append one user; the id is allocated from the file's records. */
    method AddNewUser(userData: Object, joinedDate: string, writeOk: bool) returns (r: Option<Object>)
      modifies this
      ensures var u := NewUser(old(users), userData, joinedDate);
              r == (if writeOk then Some(u) else None) &&
              users == if writeOk then old(users) + [u] else old(users)
    {
      var list := users;
      var newId := NewId(list);
      var newUser := Spread(map["id" := IdValue(newId), "joinedDate" := Str(joinedDate)], userData);
      list := list + [newUser];
      if writeOk {
        users := list;
        r := Some(newUser);
      } else {
        r := None;
      }
    }

    /** `updateExistingUser(id, userData)`: replace the first user with this
        id by the merge, in place; everyone else stays where they were. */
    method UpdateExistingUser(id: int, userData: Object, writeOk: bool) returns (r: Option<Object>)
      modifies this
      ensures var i := IndexOfFirst(old(users), "id", Num(id as real));
              if i == -1 then r.None? && users == old(users)
              else
                var u := MergedUser(old(users)[i], userData, id);
                r == (if writeOk then Some(u) else None) &&
                users == if writeOk then old(users)[i := u] else old(users)
      ensures |users| == |old(users)|
      ensures forall j :: 0 <= j < |users| && !FieldIs(old(users)[j], "id", Num(id as real)) ==> users[j] == old(users)[j]
    {
      var list := users;
      var userIndex := IndexOfFirst(list, "id", Num(id as real));
      if userIndex == -1 {
        return None;
      }
      var updatedUser := MergedUser(list[userIndex], userData, id);
      list := list[userIndex := updatedUser];
      if writeOk {
        users := list;
        r := Some(updatedUser);
      } else {
        r := None;
      }
    }

    /** `deleteUser(id)`: remove the first user with this id. */
    method DeleteUser(id: int, writeOk: bool) returns (deleted: bool)
      modifies this
      ensures var i := IndexOfFirst(old(users), "id", Num(id as real));
              if i == -1 then !deleted && users == old(users)
              else deleted == writeOk && users == if writeOk then RemoveAt(old(users), i) else old(users)
    {
      var list := users;
      var userIndex := IndexOfFirst(list, "id", Num(id as real));
      if userIndex == -1 {
        return false;
      }
      list := list[..userIndex] + list[userIndex + 1..];
      if writeOk {
        users := list;
      }
      deleted := writeOk;
    }

    /** `addFavoriteBook(userId, bookId)`. */
    method AddFavoriteBook(userId: int, bookId: int, writeOk: bool) returns (r: Reply)
      modifies this
      ensures var i := IndexOfFirst(old(users), "id", Num(userId as real));
              if i == -1 then r == NoUser && users == old(users)
              else if WithFavorite(old(users)[i], bookId).None? then r == TypeError && users == old(users)
              else
                var u := WithFavorite(old(users)[i], bookId).value;
                r == (if writeOk then User(u) else NoUser) &&
                users == if writeOk then old(users)[i := u] else old(users)
    {
      var list := users;
      var userIndex := IndexOfFirst(list, "id", Num(userId as real));
      if userIndex == -1 {
        return NoUser;
      }
      var user := list[userIndex];
      var bookIdNum := Num(bookId as real);
      if "favoriteBooks" !in user || !Truthy(user["favoriteBooks"]) {
        user := user["favoriteBooks" := Arr([])];
      }
      if !user["favoriteBooks"].Arr? {
        return TypeError;
      }
      if bookIdNum !in user["favoriteBooks"].items {
        user := user["favoriteBooks" := Arr(user["favoriteBooks"].items + [bookIdNum])];
      }
      list := list[userIndex := user];
      if writeOk {
        users := list;
        r := User(user);
      } else {
        r := NoUser;
      }
    }

    /** `removeFavoriteBook(userId, bookId)`. */
    method RemoveFavoriteBook(userId: int, bookId: int, writeOk: bool) returns (r: Reply)
      modifies this
      ensures var i := IndexOfFirst(old(users), "id", Num(userId as real));
              if i == -1 then r == NoUser && users == old(users)
              else if WithoutFavorite(old(users)[i], bookId).None? then r == TypeError && users == old(users)
              else
                var u := WithoutFavorite(old(users)[i], bookId).value;
                r == (if writeOk then User(u) else NoUser) &&
                users == if writeOk then old(users)[i := u] else old(users)
    {
      var list := users;
      var userIndex := IndexOfFirst(list, "id", Num(userId as real));
      if userIndex == -1 {
        return NoUser;
      }
      var user := list[userIndex];
      var bookIdNum := Num(bookId as real);
      if "favoriteBooks" in user && Truthy(user["favoriteBooks"]) {
        if !user["favoriteBooks"].Arr? {
          return TypeError;
        }
        if bookIdNum in user["favoriteBooks"].items {
          user := user["favoriteBooks" := Arr(RemoveAll(user["favoriteBooks"].items, bookIdNum))];
        }
      }
      list := list[userIndex := user];
      if writeOk {
        users := list;
        r := User(user);
      } else {
        r := NoUser;
      }
    }
  }
}
