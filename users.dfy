/** Citizen registration and login: a store of users keyed by email,
    registration that refuses an email already present, and a login that
    looks the user up by email and checks the password. */
module Users {
  import opened Common

  /** The eight fields a registration submits. */
  datatype Profile = Profile(
    fullName: string,
    email: string,
    phone: string,
    address: string,
    dateOfBirth: string,
    emergencyContact: string,
    emergencyPhone: string,
    password: string)

  datatype User = User(id: nat, profile: Profile)

  datatype RegisterResponse = Registered | EmailTaken | RegisterServerError {
    function StatusCode(): int {
      match this
      case Registered => 201
      case EmailTaken => 400
      case RegisterServerError => 500
    }
    function Message(): string {
      match this
      case Registered => "Registration successful"
      case EmailTaken => "Email already registered"
      case RegisterServerError => "Server error"
    }
  }

  /** An unknown email and a wrong password give the same response. */
  datatype LoginResponse = LoggedIn(userId: nat) | InvalidEmailOrPassword {
    function StatusCode(): int {
      match this
      case LoggedIn(_) => 200
      case InvalidEmailOrPassword => 400
    }
    function Message(): string {
      match this
      case LoggedIn(_) => "Login successful"
      case InvalidEmailOrPassword => "Invalid email or password"
    }
  }

  /** The three registration outcomes differ in status code and in message:
      an email conflict (400) and a storage failure (500) can be told apart. */
  lemma RegisterResponsesDistinct(a: RegisterResponse, b: RegisterResponse)
    ensures a.StatusCode() == b.StatusCode() <==> a == b
    ensures a.Message() == b.Message() <==> a == b
  {
  }

  /** Success and failure differ in status code and message; every failure has the same code and message. */
  lemma LoginResponsesDistinct(a: LoginResponse, b: LoginResponse)
    ensures a.StatusCode() == b.StatusCode() <==> a.LoggedIn? == b.LoggedIn?
    ensures !a.LoggedIn? && !b.LoggedIn? ==> a.Message() == b.Message()
    ensures a.LoggedIn? != b.LoggedIn? ==> a.Message() != b.Message()
  {
  }

  /** Emails are compared exactly, as the lookup does. */
  ghost predicate EmailsUnique(users: seq<User>) {
    forall i, j :: 0 <= i < j < |users| ==> users[i].profile.email != users[j].profile.email
  }

  class UserStore {
    var users: seq<User>
    var nextId: nat

    ghost predicate Valid()
      reads this
    {
      && EmailsUnique(users)
      && (forall i, j :: 0 <= i < j < |users| ==> users[i].id < users[j].id)
      && (forall i :: 0 <= i < |users| ==> users[i].id < nextId)
    }

    constructor ()
      ensures Valid() && users == [] && nextId == 0
    {
      users := [];
      nextId := 0;
    }

    /** `findOne({ email })`: the first user with that email. */
    method FindByEmail(email: string) returns (found: Option<nat>)
      ensures found.Some? ==> found.value < |users| && users[found.value].profile.email == email
      ensures found.Some? ==> forall j :: 0 <= j < found.value ==> users[j].profile.email != email
      ensures found.None? <==> forall j :: 0 <= j < |users| ==> users[j].profile.email != email
    {
      var i := 0;
      while i < |users|
        invariant 0 <= i <= |users|
        invariant forall j :: 0 <= j < i ==> users[j].profile.email != email
      {
        if users[i].profile.email == email {
          return Some(i);
        }
        i := i + 1;
      }
      return None;
    }

    /** POST /register. `saved` is whether the store accepted the new record. */
    method Register(profile: Profile, saved: bool) returns (response: RegisterResponse)
      requires Valid()
      modifies this
      ensures Valid()
      ensures (exists j :: 0 <= j < |old(users)| && old(users)[j].profile.email == profile.email)
              ==> response == EmailTaken
      ensures response == Registered <==>
              saved && forall j :: 0 <= j < |old(users)| ==> old(users)[j].profile.email != profile.email
      ensures response == Registered ==>
              users == old(users) + [User(old(nextId), profile)] && nextId == old(nextId) + 1
      ensures (forall j :: 0 <= j < |old(users)| ==> old(users)[j].profile.email != profile.email) && !saved
              ==> response == RegisterServerError
      ensures response != Registered ==> users == old(users) && nextId == old(nextId)
    {
      var existing := FindByEmail(profile.email);
      if existing.Some? {
        return EmailTaken;
      }
      if !saved {
        return RegisterServerError;
      }
      users := users + [User(nextId, profile)];
      nextId := nextId + 1;
      response := Registered;
    }

    /** POST /login. `matches(stored, given)` is the store's password comparison. */
    method Login(email: string, password: string, matches: (string, string) -> bool)
      returns (response: LoginResponse)
      requires Valid()
      ensures response.LoggedIn? <==>
              exists j :: 0 <= j < |users| && users[j].profile.email == email
                          && matches(users[j].profile.password, password)
      ensures response.LoggedIn? ==>
              exists j :: 0 <= j < |users| && users[j].profile.email == email && response.userId == users[j].id
      ensures !response.LoggedIn? ==> response == InvalidEmailOrPassword
    {
      var found := FindByEmail(email);
      if found.None? {
        return InvalidEmailOrPassword;
      }
      var user := users[found.value];
      if !matches(user.profile.password, password) {
        return InvalidEmailOrPassword;
      }
      response := LoggedIn(user.id);
    }
  }

  /** A fresh registration followed by a login with the same password yields the
      new user's id; registering the same email again is refused and changes nothing. */
  method RegisterLoginRegisterAgain(store: UserStore, profile: Profile, matches: (string, string) -> bool)
    returns (first: RegisterResponse, login: LoginResponse, second: RegisterResponse)
    requires store.Valid()
    requires forall p :: matches(p, p)
    requires forall j :: 0 <= j < |store.users| ==> store.users[j].profile.email != profile.email
    modifies store
    ensures first == Registered && login == LoggedIn(old(store.nextId)) && second == EmailTaken
    ensures store.users == old(store.users) + [User(old(store.nextId), profile)]
  {
    first := store.Register(profile, true);
    var n := |store.users| - 1;
    assert store.users[n] == User(old(store.nextId), profile);
    login := store.Login(profile.email, profile.password, matches);
    forall j | 0 <= j < |store.users| && store.users[j].profile.email == profile.email
      ensures j == n
    {
    }
    second := store.Register(profile, true);
  }

  /** The `fullName` and `email` of the user with id `userId`, as the report
      listing's `populate('user', 'fullName email')` resolves it; none for a
      dangling id. It lives here because it reads the user store; the `_id`
      that `populate` also returns is the report's own `user` value and is not repeated. */
  datatype Owner = Owner(fullName: string, email: string)

  function OwnerOf(users: seq<User>, userId: nat): (o: Option<Owner>)
    ensures o.None? <==> forall j :: 0 <= j < |users| ==> users[j].id != userId
    ensures o.Some? ==> exists j :: 0 <= j < |users| && users[j].id == userId
                                    && o.value == Owner(users[j].profile.fullName, users[j].profile.email)
  {
    if users == [] then None
    else if users[0].id == userId then Some(Owner(users[0].profile.fullName, users[0].profile.email))
    else
      var rest := OwnerOf(users[1..], userId);
      assert forall j :: 1 <= j < |users| ==> users[j] == users[1..][j - 1];
      rest
  }
}
