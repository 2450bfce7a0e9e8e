/** Officer registration and login: a store of officers keyed by badge number,
    registration that refuses a badge already present, and a login that looks
    an officer up by badge and station, checks the password and issues the
    claims of a one-day session token. */
module Officers {
  import opened Common

  /** A stored officer. `password` is what the store keeps for the password;
      hashing it is the store's business and is not modelled. */
  datatype Officer = Officer(id: nat, badgeNumber: string, station: string, password: string)

  /** The claims a session token carries. */
  datatype Claims = Claims(id: nat, badgeNumber: string, station: string)

  /** A signed token: its claims, its lifetime and the key it is signed with. */
  datatype Token = Token(claims: Claims, expiresInSeconds: nat, signingKey: string)

  /** '1d' */
  const OneDaySeconds: nat := 86400

  const FallbackSecret: string := "secretkey"

  /** `process.env.JWT_SECRET || 'secretkey'`: an unset or empty secret falls back. */
  function SigningKey(envSecret: Option<string>): (key: string)
    ensures envSecret.Some? && envSecret.value != "" ==> key == envSecret.value
    ensures envSecret.None? || envSecret.value == "" ==> key == FallbackSecret
  {
    if envSecret.Some? && envSecret.value != "" then envSecret.value else FallbackSecret
  }

  datatype RegisterResponse = Registered | AlreadyRegistered | RegisterServerError {
    function StatusCode(): int {
      match this
      case Registered => 201
      case AlreadyRegistered => 400
      case RegisterServerError => 500
    }
    function Message(): string {
      match this
      case Registered => "Registration successful! Please wait for admin approval."
      case AlreadyRegistered => "Police officer already registered"
      case RegisterServerError => "Server error"
    }
  }

  /** An unknown officer and a wrong password give the same response. */
  datatype LoginResponse = LoggedIn(token: Token) | InvalidCredentials {
    function StatusCode(): int {
      match this
      case LoggedIn(_) => 200
      case InvalidCredentials => 400
    }
    function Message(): string {
      match this
      case LoggedIn(_) => "Login successful"
      case InvalidCredentials => "Invalid credentials"
    }
  }

  /** The three registration outcomes differ in status code and in message:
      a badge conflict (400) and a storage failure (500) can be told apart. */
  lemma RegisterResponsesDistinct(a: RegisterResponse, b: RegisterResponse)
    ensures a.StatusCode() == b.StatusCode() <==> a == b
    ensures a.Message() == b.Message() <==> a == b
  {
  }

  /** Success and failure differ in status code; every failure has the same code and message. */
  lemma LoginResponsesDistinct(a: LoginResponse, b: LoginResponse)
    ensures a.StatusCode() == b.StatusCode() <==> a.LoggedIn? == b.LoggedIn?
    ensures !a.LoggedIn? && !b.LoggedIn? ==> a.Message() == b.Message()
    ensures a.LoggedIn? != b.LoggedIn? ==> a.Message() != b.Message()
  {
  }

  ghost predicate BadgesUnique(officers: seq<Officer>) {
    forall i, j :: 0 <= i < j < |officers| ==> officers[i].badgeNumber != officers[j].badgeNumber
  }

  /** The claims and token a successful login issues for officer `o`. */
  function TokenFor(o: Officer, envSecret: Option<string>): (t: Token)
    ensures t.claims.id == o.id && t.claims.badgeNumber == o.badgeNumber && t.claims.station == o.station
    ensures t.expiresInSeconds == OneDaySeconds && t.signingKey == SigningKey(envSecret)
  {
    Token(Claims(o.id, o.badgeNumber, o.station), OneDaySeconds, SigningKey(envSecret))
  }

  class OfficerStore {
    var officers: seq<Officer>
    var nextId: nat

    /** Badge numbers are unique and ids are handed out in increasing order below `nextId`. */
    ghost predicate Valid()
      reads this
    {
      && BadgesUnique(officers)
      && (forall i, j :: 0 <= i < j < |officers| ==> officers[i].id < officers[j].id)
      && (forall i :: 0 <= i < |officers| ==> officers[i].id < nextId)
    }

    constructor ()
      ensures Valid() && officers == [] && nextId == 0
    {
      officers := [];
      nextId := 0;
    }

    /** `findOne({ badgeNumber })`: the first officer with that badge. */
    method FindByBadge(badgeNumber: string) returns (found: Option<nat>)
      ensures found.Some? ==> found.value < |officers| && officers[found.value].badgeNumber == badgeNumber
      ensures found.Some? ==> forall j :: 0 <= j < found.value ==> officers[j].badgeNumber != badgeNumber
      ensures found.None? <==> forall j :: 0 <= j < |officers| ==> officers[j].badgeNumber != badgeNumber
    {
      var i := 0;
      while i < |officers|
        invariant 0 <= i <= |officers|
        invariant forall j :: 0 <= j < i ==> officers[j].badgeNumber != badgeNumber
      {
        if officers[i].badgeNumber == badgeNumber {
          return Some(i);
        }
        i := i + 1;
      }
      return None;
    }

    /** `findOne({ badgeNumber, station })`: the first officer with that badge and station. */
    method FindByBadgeAndStation(badgeNumber: string, station: string) returns (found: Option<nat>)
      ensures found.Some? ==> found.value < |officers|
      ensures found.Some? ==> officers[found.value].badgeNumber == badgeNumber && officers[found.value].station == station
      ensures found.Some? ==> forall j :: 0 <= j < found.value ==>
                !(officers[j].badgeNumber == badgeNumber && officers[j].station == station)
      ensures found.None? <==> forall j :: 0 <= j < |officers| ==>
                !(officers[j].badgeNumber == badgeNumber && officers[j].station == station)
    {
      var i := 0;
      while i < |officers|
        invariant 0 <= i <= |officers|
        invariant forall j :: 0 <= j < i ==> !(officers[j].badgeNumber == badgeNumber && officers[j].station == station)
      {
        if officers[i].badgeNumber == badgeNumber && officers[i].station == station {
          return Some(i);
        }
        i := i + 1;
      }
      return None;
    }

    /** POST /register. `saved` is whether the store accepted the new record. */
    method Register(badgeNumber: string, station: string, password: string, saved: bool)
      returns (response: RegisterResponse)
      requires Valid()
      modifies this
      ensures Valid()
      ensures (exists j :: 0 <= j < |old(officers)| && old(officers)[j].badgeNumber == badgeNumber)
              ==> response == AlreadyRegistered
      ensures response == Registered <==>
              saved && forall j :: 0 <= j < |old(officers)| ==> old(officers)[j].badgeNumber != badgeNumber
      ensures response == Registered ==>
              && officers == old(officers) + [Officer(old(nextId), badgeNumber, station, password)]
              && nextId == old(nextId) + 1
      ensures (forall j :: 0 <= j < |old(officers)| ==> old(officers)[j].badgeNumber != badgeNumber) && !saved
              ==> response == RegisterServerError
      ensures response != Registered ==> officers == old(officers) && nextId == old(nextId)
    {
      var existing := FindByBadge(badgeNumber);
      if existing.Some? {
        return AlreadyRegistered;
      }
      if !saved {
        return RegisterServerError;
      }
      officers := officers + [Officer(nextId, badgeNumber, station, password)];
      nextId := nextId + 1;
      response := Registered;
    }

    /** POST /login. `matches(stored, given)` is the store's password comparison. */
    method Login(badgeNumber: string, station: string, password: string,
                 matches: (string, string) -> bool, envSecret: Option<string>)
      returns (response: LoginResponse)
      requires Valid()
      ensures response.LoggedIn? <==>
              exists j :: 0 <= j < |officers| && officers[j].badgeNumber == badgeNumber
                          && officers[j].station == station && matches(officers[j].password, password)
      ensures response.LoggedIn? ==>
              exists j :: 0 <= j < |officers| && officers[j].badgeNumber == badgeNumber
                          && officers[j].station == station && response.token == TokenFor(officers[j], envSecret)
      ensures !response.LoggedIn? ==> response == InvalidCredentials
    {
      var found := FindByBadgeAndStation(badgeNumber, station);
      if found.None? {
        return InvalidCredentials;
      }
      var officer := officers[found.value];
      if !matches(officer.password, password) {
        return InvalidCredentials;
      }
      response := LoggedIn(TokenFor(officer, envSecret));
    }
  }

  /** A registered officer can log in with the password given at registration,
      when the comparison accepts a password against itself. */
  method RegisterThenLogin(store: OfficerStore, badgeNumber: string, station: string, password: string,
                           matches: (string, string) -> bool)
    returns (registered: RegisterResponse, login: LoginResponse)
    requires store.Valid()
    requires forall p :: matches(p, p)
    requires forall j :: 0 <= j < |store.officers| ==> store.officers[j].badgeNumber != badgeNumber
    modifies store
    ensures registered == Registered
    ensures login.LoggedIn? && login.token.claims == Claims(old(store.nextId), badgeNumber, station)
  {
    registered := store.Register(badgeNumber, station, password, true);
    login := store.Login(badgeNumber, station, password, matches, None);
    var n := |store.officers| - 1;
    assert store.officers[n] == Officer(old(store.nextId), badgeNumber, station, password);
    forall j | 0 <= j < |store.officers| && store.officers[j].badgeNumber == badgeNumber
      ensures j == n
    {
    }
  }
}
