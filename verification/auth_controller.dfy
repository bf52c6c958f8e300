/**
 * Sign-up and login: the check order of the two handlers over the user store.
 * Password hashing and comparison, token signing and the schema's validation
 * are parameters.
 */
module AuthController {
  import opened Wrappers
  import opened Constants
  import opened Json

  type UserId = string

  /** A stored user; `password` holds the hash. */
  datatype UserDoc = UserDoc(
    id: UserId, name: string, email: string, password: string,
    phone: string, location: string, role: string, isActive: bool)

  /** The `data` object of a sign-up or login response; it has no password field. */
  datatype UserData = UserData(
    id: UserId, name: string, email: string, role: string, phone: string, location: string)

  function DataOf(u: UserDoc): UserData {
    UserData(u.id, u.name, u.email, u.role, u.phone, u.location)
  }

  /** The sign-up body; absent fields are `None`. */
  datatype SignupBody = SignupBody(
    name: Option<string>, email: Option<string>, password: Option<string>,
    phone: Option<string>, location: Option<string>, role: Option<string>)

  datatype LoginBody = LoginBody(email: Option<string>, password: Option<string>)

  /**
   * A JSON response with its status, message and, on success, the user data
   * and the token; `Forwarded` is an error passed on to the error handler.
   */
  datatype AuthResponse =
    | Reply(status: int, message: string, data: Option<UserData>, token: Option<string>)
    | Forwarded

  const MissingSignupFields: string := "Please provide all required fields"
  const SignupSucceeded: string := "User created successfully"
  const MissingLoginFields: string := "Please provide email and password"
  const LoginSucceeded: string := "Login successful"
  const Deactivated: string := "Your account has been deactivated"

  /** `User.findOne({ email })`. */
  function FindByEmail(users: seq<UserDoc>, email: string): (r: Option<UserDoc>)
    ensures r.None? <==> forall u :: u in users ==> u.email != email
    ensures r.Some? ==> r.value in users && r.value.email == email
  {
    if users == [] then None
    else if users[0].email == email then Some(users[0])
    else FindByEmail(users[1..], email)
  }

  /** No two stored users share an email (the schema's unique index). */
  ghost predicate UniqueEmails(users: seq<UserDoc>) {
    forall i, j :: 0 <= i < j < |users| ==> users[i].email != users[j].email
  }

  /** `name && email && password && phone && location`; the role is optional. */
  predicate HasSignupFields(b: SignupBody) {
    Present(b.name) && Present(b.email) && Present(b.password)
    && Present(b.phone) && Present(b.location)
  }

  /**
   * The document `User.create` validates: the entered password, since the
   * schema's checks run before the save hook hashes it; the role or `farmer`, active.
   */
  function Candidate(b: SignupBody, id: UserId): (u: UserDoc)
    requires HasSignupFields(b)
    ensures u.id == id && u.email == b.email.value && u.password == b.password.value
    ensures u.role == (if Present(b.role) then b.role.value else RoleFarmer)
    ensures u.isActive
  {
    UserDoc(id, b.name.value, b.email.value, b.password.value, b.phone.value,
            b.location.value, if Present(b.role) then b.role.value else RoleFarmer, true)
  }

  /** The document `User.create` stores: the validated one with its password hashed. */
  function NewUser(b: SignupBody, id: UserId, hash: string -> string): (u: UserDoc)
    requires HasSignupFields(b)
    ensures u.email == b.email.value && u.password == hash(b.password.value)
    ensures u.role == (if Present(b.role) then b.role.value else RoleFarmer)
    ensures u.isActive
    ensures u.(password := b.password.value) == Candidate(b, id)
  {
    Candidate(b, id).(password := hash(b.password.value))
  }

  /** The users collection. */
  class UserStore {
    var users: seq<UserDoc>

    ghost predicate Valid()
      reads this
    {
      UniqueEmails(users)
    }

    constructor (users: seq<UserDoc>)
      requires UniqueEmails(users)
      ensures Valid() && this.users == users
    {
      this.users := users;
    }

    /**
     * `signup`: 400 without a required field, 409 when the email is taken,
     * the schema's error when it rejects the document, else the new user is
     * stored with its password hashed and 201 carries its data and a token.
     * `id` is the id the database assigns, `valid` the schema's validation
     * (applied to the entered password), `token` the signer.
     */
    method Signup(body: SignupBody, id: UserId, hash: string -> string,
                  valid: UserDoc -> bool, token: (UserId, string) -> string)
      returns (response: AuthResponse)
      requires Valid()
      modifies this
      ensures Valid()
      ensures !HasSignupFields(body) ==>
                response == Reply(StatusBadRequest, MissingSignupFields, None, None)
                && users == old(users)
      ensures HasSignupFields(body) && FindByEmail(old(users), body.email.value).Some? ==>
                response == Reply(StatusConflict, UserExists, None, None) && users == old(users)
      ensures HasSignupFields(body) && FindByEmail(old(users), body.email.value).None? ==>
                var u := NewUser(body, id, hash);
                if valid(Candidate(body, id)) then
                  response == Reply(StatusCreated, SignupSucceeded, Some(DataOf(u)), Some(token(u.id, u.role)))
                  && users == old(users) + [u]
                else
                  response == Forwarded && users == old(users)
    {
      if !Present(body.name) || !Present(body.email) || !Present(body.password)
         || !Present(body.phone) || !Present(body.location) {
        return Reply(StatusBadRequest, MissingSignupFields, None, None);
      }
      var existing := FindByEmail(users, body.email.value);
      if existing.Some? {
        return Reply(StatusConflict, UserExists, None, None);
      }
      if !valid(Candidate(body, id)) {
        return Forwarded;
      }
      var u := NewUser(body, id, hash);
      users := users + [u];
      response := Reply(StatusCreated, SignupSucceeded, Some(DataOf(u)), Some(token(u.id, u.role)));
    }
  }

  /**
   * `login`: 400 without email or password; the same 401 for an unknown
   * email and a wrong password; the deactivated 401 only once the password
   * matches; else 200 with the user's data and a token. `matches` is the
   * password comparison against the stored hash.
   */
  function Login(users: seq<UserDoc>, body: LoginBody, matches: (string, string) -> bool,
                 token: (UserId, string) -> string): (r: AuthResponse)
    ensures r.Reply?
    ensures r.status == StatusBadRequest <==> !(Present(body.email) && Present(body.password))
    ensures r.status == StatusOk <==>
              Present(body.email) && Present(body.password)
              && var found := FindByEmail(users, body.email.value);
                 found.Some? && matches(body.password.value, found.value.password) && found.value.isActive
    ensures r.status == StatusOk ==>
              var u := FindByEmail(users, body.email.value).value;
              r.data == Some(DataOf(u)) && r.token == Some(token(u.id, u.role))
    ensures r.status != StatusOk ==> r.data.None? && r.token.None?
    ensures r.message == InvalidCredentials <==>
              Present(body.email) && Present(body.password)
              && var found := FindByEmail(users, body.email.value);
                 found.None? || !matches(body.password.value, found.value.password)
    ensures r.message == Deactivated ==>
              Present(body.email) && Present(body.password) &&
              var found := FindByEmail(users, body.email.value);
              found.Some? && matches(body.password.value, found.value.password) && !found.value.isActive
    ensures r.status == StatusBadRequest || r.status == StatusUnauthorized || r.status == StatusOk
  {
    if !Present(body.email) || !Present(body.password) then
      Reply(StatusBadRequest, MissingLoginFields, None, None)
    else
      var found := FindByEmail(users, body.email.value);
      if found.None? then
        Reply(StatusUnauthorized, InvalidCredentials, None, None)
      else if !matches(body.password.value, found.value.password) then
        Reply(StatusUnauthorized, InvalidCredentials, None, None)
      else if !found.value.isActive then
        Reply(StatusUnauthorized, Deactivated, None, None)
      else
        Reply(StatusOk, LoginSucceeded, Some(DataOf(found.value)), Some(token(found.value.id, found.value.role)))
  }

  /** An unknown email and a wrong password get the very same response. */
  lemma UnknownEmailLooksLikeWrongPassword(
    users: seq<UserDoc>, unknown: LoginBody, wrong: LoginBody,
    matches: (string, string) -> bool, token: (UserId, string) -> string)
    requires Present(unknown.email) && Present(unknown.password)
    requires FindByEmail(users, unknown.email.value).None?
    requires Present(wrong.email) && Present(wrong.password)
    requires var found := FindByEmail(users, wrong.email.value);
             found.Some? && !matches(wrong.password.value, found.value.password)
    ensures Login(users, unknown, matches, token) == Login(users, wrong, matches, token)
  {
  }

  /** In a store with unique emails, the user found for an email is the one stored under it. */
  lemma {:induction false} FindUnique(users: seq<UserDoc>, i: nat)
    requires UniqueEmails(users) && i < |users|
    ensures FindByEmail(users, users[i].email) == Some(users[i])
  {
    if i > 0 {
      assert users[0].email != users[i].email;
      assert UniqueEmails(users[1..]) by {
        forall a, b | 0 <= a < b < |users[1..]|
          ensures users[1..][a].email != users[1..][b].email
        {
          assert users[1..][a] == users[a + 1] && users[1..][b] == users[b + 1];
        }
      }
      FindUnique(users[1..], i - 1);
    }
  }

  /**
   * After a successful sign-up, logging in with the same email and password
   * succeeds and returns the new user, given that the comparison accepts a
   * password against its own hash.
   */
  lemma SignupThenLogin(
    users: seq<UserDoc>, body: SignupBody, id: UserId, hash: string -> string,
    matches: (string, string) -> bool, token: (UserId, string) -> string)
    requires UniqueEmails(users) && HasSignupFields(body)
    requires FindByEmail(users, body.email.value).None?
    requires forall p :: matches(p, hash(p))
    ensures var u := NewUser(body, id, hash);
      UniqueEmails(users + [u])
      && Login(users + [u], LoginBody(body.email, body.password), matches, token)
         == Reply(StatusOk, LoginSucceeded, Some(DataOf(u)), Some(token(id, u.role)))
  {
    var u := NewUser(body, id, hash);
    var s := users + [u];
    assert forall k :: 0 <= k < |users| ==> users[k] in users;
    assert UniqueEmails(s);
    FindUnique(s, |users|);
  }
}
