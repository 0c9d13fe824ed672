/** The user account store: an in-memory list of user records plus the
    session (the active user and the authenticated flag), with the actions
    login, register, savePreferences and logout. */
module UserStore {
  import opened Js

  /** A user record is a plain object: property name to value. */
  type Record = map<string, Value>

  /** `record[key] === s` for a string `s`: the property is present and holds
      exactly that string (a missing property reads as `undefined`). */
  predicate HasString(r: Record, key: string, s: string) {
    key in r && r[key] == Str(s)
  }

  /** The tests the store's lookups apply to one record. */
  datatype Criterion =
    | ByEmail(email: string)
    | ByUsername(username: string)
    | ByCredentials(identifier: string, password: string)

  predicate Matches(u: Record, c: Criterion) {
    match c
    case ByEmail(email) => HasString(u, "email", email)
    case ByUsername(username) => HasString(u, "username", username)
    case ByCredentials(identifier, password) =>
      (HasString(u, "username", identifier) || HasString(u, "email", identifier))
      && HasString(u, "password", password)
  }

  /** `users.findIndex(...)`, with `None` for -1: the first record that
      matches. `users.find(...)` and `users.some(...)` are read off it. */
  function FindIndex(users: seq<Record>, c: Criterion): (r: Option<nat>)
    ensures r.Some? ==> r.value < |users| && Matches(users[r.value], c)
    ensures r.Some? ==> forall j :: 0 <= j < r.value ==> !Matches(users[j], c)
    ensures r.None? <==> forall j :: 0 <= j < |users| ==> !Matches(users[j], c)
  {
    if |users| == 0 then None
    else if Matches(users[0], c) then Some(0)
    else match FindIndex(users[1..], c)
      case None => None
      case Some(i) => Some(i + 1)
  }

  /** The object spread `{ ...base, ...overrides }`: a shallow merge in which
      the properties of `overrides` win. */
  function Merge(base: Record, overrides: Record): (r: Record)
    ensures r.Keys == base.Keys + overrides.Keys
    ensures forall k :: k in overrides ==> r[k] == overrides[k]
    ensures forall k :: k in base && k !in overrides ==> r[k] == base[k]
  {
    base + overrides
  }

  /** The record `register` creates, with its default preferences. */
  function NewUser(email: string, username: string, password: string): (r: Record)
    ensures Matches(r, ByEmail(email)) && Matches(r, ByUsername(username))
    ensures Matches(r, ByCredentials(username, password)) && Matches(r, ByCredentials(email, password))
    ensures r.Keys == {"username", "email", "password", "nimbusCoins", "userRegion", "userLocations",
                       "userPreferences", "allowGamification", "selectedAvatar", "userLang"}
    ensures r["nimbusCoins"] == Num(50) && r["userRegion"] == Null && r["userLocations"] == Arr([])
  {
    map[
      "username" := Str(username),
      "email" := Str(email),
      "password" := Str(password),
      "nimbusCoins" := Num(50),
      "userRegion" := Null,
      "userLocations" := Arr([]),
      "userPreferences" := Arr([]),
      "allowGamification" := Bool(false),
      "selectedAvatar" := Null,
      "userLang" := Null
    ]
  }

  /** The two example accounts the store starts with. */
  function SeedUsers(): (r: seq<Record>)
    ensures |r| == 2
    ensures HasString(r[0], "username", "maria") && HasString(r[0], "email", "maria@example.com")
      && HasString(r[0], "password", "54321")
    ensures HasString(r[1], "username", "john") && HasString(r[1], "email", "john@example.com")
      && HasString(r[1], "password", "12345")
  {
    [
      map["username" := Str("maria"), "password" := Str("54321"), "email" := Str("maria@example.com"),
          "nimbusCoins" := Num(50), "userRegion" := Null, "userLocations" := Arr([])],
      map["username" := Str("john"), "password" := Str("12345"), "email" := Str("john@example.com"),
          "nimbusCoins" := Num(50), "userRegion" := Null, "userLocations" := Arr([])]
    ]
  }

  /** No two records hold the same value under `key`. */
  ghost predicate DistinctOn(users: seq<Record>, key: string) {
    forall i, j ::
      (0 <= i < |users| && 0 <= j < |users| && i != j && key in users[i] && key in users[j]) ==>
        users[i][key] != users[j][key]
  }

  /** No two accounts share an email and no two share a username. */
  ghost predicate UniqueAccounts(users: seq<Record>) {
    DistinctOn(users, "email") && DistinctOn(users, "username")
  }

  /** The seed accounts are unique. */
  lemma SeedUsersUnique()
    ensures UniqueAccounts(SeedUsers())
  {
    var users := SeedUsers();
    assert users[0]["email"] != users[1]["email"] by {
      assert users[0]["email"] == Str("maria@example.com");
    }
    assert users[0]["username"] != users[1]["username"] by {
      assert users[0]["username"] == Str("maria");
    }
  }

  /** Appending the record of a registration that passed both checks keeps
      emails and usernames unique. */
  lemma RegisterKeepsAccountsUnique(users: seq<Record>, email: string, username: string, password: string)
    requires UniqueAccounts(users)
    requires FindIndex(users, ByEmail(email)).None?
    requires FindIndex(users, ByUsername(username)).None?
    ensures UniqueAccounts(users + [NewUser(email, username, password)])
  {
    var users' := users + [NewUser(email, username, password)];
    forall key | key == "email" || key == "username"
      ensures DistinctOn(users', key)
    {
      forall i, j | 0 <= i < |users'| && 0 <= j < |users'| && i != j
        && key in users'[i] && key in users'[j]
        ensures users'[i][key] != users'[j][key]
      {
        if i == |users| {
          assert !Matches(users[j], if key == "email" then ByEmail(email) else ByUsername(username));
        } else if j == |users| {
          assert !Matches(users[i], if key == "email" then ByEmail(email) else ByUsername(username));
        }
      }
    }
  }

  /** Merging preferences that touch neither the email nor the username into
      one record keeps emails and usernames unique. (Preferences that do set
      either property are merged as given: the store does not re-check.) */
  lemma SavePreferencesKeepsAccountsUnique(users: seq<Record>, i: nat, preferences: Record)
    requires UniqueAccounts(users)
    requires i < |users|
    requires "email" !in preferences && "username" !in preferences
    ensures UniqueAccounts(users[i := Merge(users[i], preferences)])
  {
    var users' := users[i := Merge(users[i], preferences)];
    forall key | key == "email" || key == "username"
      ensures DistinctOn(users', key)
    {
      forall a, b | 0 <= a < |users'| && 0 <= b < |users'| && a != b
        && key in users'[a] && key in users'[b]
        ensures users'[a][key] != users'[b][key]
      {
        assert key in users[a] && users'[a][key] == users[a][key];
        assert key in users[b] && users'[b][key] == users[b][key];
      }
    }
  }

  /** Preferences that do set a username are merged unchecked: renaming
      maria to john leaves two accounts named john. */
  lemma SavePreferencesCanBreakUniqueness()
    ensures UniqueAccounts(SeedUsers())
    ensures FindIndex(SeedUsers(), ByUsername("maria")) == Some(0)
    ensures !UniqueAccounts(SeedUsers()[0 := Merge(SeedUsers()[0], map["username" := Str("john")])])
  {
    SeedUsersUnique();
    var users := SeedUsers();
    var users' := users[0 := Merge(users[0], map["username" := Str("john")])];
    assert users'[0]["username"] == users'[1]["username"];
  }

  /** What an action that may `throw Error(...)` ends with. */
  datatype Outcome = Returned | Threw(error: Rejection)

  class Store {
    var isUserAuthenticated: bool
    var user: Option<Record>
    var users: seq<Record>

    /** The flag is set exactly when a user is active. */
    ghost predicate Valid()
      reads this
    {
      isUserAuthenticated <==> user.Some?
    }

    /** The initial state: nobody logged in, two seed accounts. */
    constructor ()
      ensures Valid() && !isUserAuthenticated && user == None
      ensures users == SeedUsers() && UniqueAccounts(users)
    {
      isUserAuthenticated := false;
      user := None;
      users := SeedUsers();
      SeedUsersUnique();
    }

    /** Authenticates by username or email plus password; on success the
        active user is a copy of the first matching record. */
    method Login(identifier: string, password: string) returns (r: Outcome)
      modifies this`isUserAuthenticated, this`user
      ensures Valid() && users == old(users)
      ensures r.Returned? <==> exists i :: 0 <= i < |users| && Matches(users[i], ByCredentials(identifier, password))
      ensures r.Returned? ==> isUserAuthenticated
      ensures r.Returned? ==>
        exists i :: 0 <= i < |users| && Matches(users[i], ByCredentials(identifier, password))
          && (forall j :: 0 <= j < i ==> !Matches(users[j], ByCredentials(identifier, password)))
          && user == Some(users[i])
      ensures r.Threw? ==> r == Threw(ErrorObject("Invalid credentials!")) && !isUserAuthenticated && user == None
    {
      var found := FindIndex(users, ByCredentials(identifier, password));
      if found.Some? {
        isUserAuthenticated := true;
        user := Some(users[found.value]);
        r := Returned;
      } else {
        isUserAuthenticated := false;
        user := None;
        r := Threw(ErrorObject("Invalid credentials!"));
      }
    }

    /** Adds an account; a duplicate email is reported before a duplicate
        username. The session is not touched. */
    method Register(email: string, username: string, password: string) returns (r: Outcome)
      modifies this`users
      ensures (exists i :: 0 <= i < |old(users)| && HasString(old(users)[i], "email", email)) ==>
        r == Threw(ErrorObject("Email already exists!")) && users == old(users)
      ensures ((forall i :: 0 <= i < |old(users)| ==> !HasString(old(users)[i], "email", email))
               && (exists i :: 0 <= i < |old(users)| && HasString(old(users)[i], "username", username))) ==>
        r == Threw(ErrorObject("Username already exists!")) && users == old(users)
      ensures r.Returned? <==>
        forall i :: 0 <= i < |old(users)| ==>
          !HasString(old(users)[i], "email", email) && !HasString(old(users)[i], "username", username)
      ensures r.Returned? ==> users == old(users) + [NewUser(email, username, password)]
      ensures UniqueAccounts(old(users)) ==> UniqueAccounts(users)
      ensures user == old(user) && isUserAuthenticated == old(isUserAuthenticated)
    {
      if FindIndex(users, ByEmail(email)).Some? {
        return Threw(ErrorObject("Email already exists!"));
      }
      if FindIndex(users, ByUsername(username)).Some? {
        return Threw(ErrorObject("Username already exists!"));
      }
      if UniqueAccounts(users) {
        RegisterKeepsAccountsUnique(users, email, username, password);
      }
      users := users + [NewUser(email, username, password)];
      r := Returned;
    }

    /** Shallow-merges `preferences` into the first record with that
        username, and into the active user when the active user has that
        username. */
    method SavePreferences(username: string, preferences: Record) returns (r: Outcome)
      requires Valid()
      modifies this`users, this`user
      ensures Valid() && |users| == |old(users)|
      ensures FindIndex(old(users), ByUsername(username)).None? ==>
        r == Threw(ErrorObject("User not found!")) && users == old(users) && user == old(user)
      ensures FindIndex(old(users), ByUsername(username)).Some? ==>
        var i := FindIndex(old(users), ByUsername(username)).value;
        r == Returned
        && users == old(users)[i := Merge(old(users)[i], preferences)]
        && user == (if old(user).Some? && HasString(old(user).value, "username", username)
                    then Some(Merge(old(user).value, preferences)) else old(user))
      ensures UniqueAccounts(old(users)) && "email" !in preferences && "username" !in preferences ==>
        UniqueAccounts(users)
    {
      var index := FindIndex(users, ByUsername(username));
      if index.Some? {
        var i := index.value;
        if UniqueAccounts(users) && "email" !in preferences && "username" !in preferences {
          SavePreferencesKeepsAccountsUnique(users, i, preferences);
        }
        users := users[i := Merge(users[i], preferences)];
        if user.Some? && HasString(user.value, "username", username) {
          user := Some(Merge(user.value, preferences));
        }
        r := Returned;
      } else {
        r := Threw(ErrorObject("User not found!"));
      }
    }

    /** Ends the session; the account list is kept. */
    method Logout()
      modifies this`isUserAuthenticated, this`user
      ensures Valid() && !isUserAuthenticated && user == None
      ensures users == old(users)
    {
      isUserAuthenticated := false;
      user := None;
    }
  }

  /** A fresh store lets each seed account log in with its username or its
      email and its password, and the session then holds that account. */
  method SeedAccountsLogIn() returns (byName: Outcome, byEmail: Outcome, wrong: Outcome)
    ensures byName == Returned && byEmail == Returned
    ensures wrong == Threw(ErrorObject("Invalid credentials!"))
  {
    var s := new Store();
    byName := s.Login("maria", "54321");
    assert Matches(s.users[0], ByCredentials("maria", "54321"));
    byEmail := s.Login("john@example.com", "12345");
    assert Matches(s.users[1], ByCredentials("john@example.com", "12345"));
    wrong := s.Login("john", "54321");
  }
}
