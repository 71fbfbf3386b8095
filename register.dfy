/** `POST /api/auth/register` (src/app/api/auth/register/route.ts) as a
    function from the user table and the request to the reply and the new
    table. The caller is what `authenticateRequest` returned; the `isEmail`
    validator of the column is an oracle; hashing the password and signing
    the token are left to their libraries, so the token is represented by
    its payload. */
module Register {
  import opened Wrappers
  import opened Models
  import opened ApiHelpers
  import opened Auth

  /** The body's four fields; an absent field is `None`. */
  datatype RegisterBody = RegisterBody(name: Option<string>, email: Option<string>, password: Option<string>, role: Option<string>)

  /** The reply's data: the token's payload and the new user row. */
  datatype Registered = Registered(token: JwtPayload, user: UserRow)

  datatype Outcome = Outcome(response: Response<Registered>, users: seq<UserRow>)

  /** `User.count()` on a paranoid table: soft-deleted rows are not
      counted. */
  function LiveCount(users: seq<UserRow>): (n: nat)
    ensures n <= |users|
    ensures n == 0 <==> forall i :: 0 <= i < |users| ==> users[i].deleted
    decreases |users|
  {
    if users == [] then 0
    else LiveCount(users[..|users| - 1]) + (if users[|users| - 1].deleted then 0 else 1)
  }

  /** `User.findOne({ where: { email } })`: a live user with that email. */
  predicate LiveEmail(users: seq<UserRow>, email: string) {
    exists i :: 0 <= i < |users| && !users[i].deleted && users[i].email == email
  }

  /** The unique index on `email` covers every row, soft-deleted ones too. */
  predicate AnyEmail(users: seq<UserRow>, email: string) {
    exists i :: 0 <= i < |users| && users[i].email == email
  }

  /** The next auto-increment id: one above every id in the table. */
  function NextId(users: seq<UserRow>): (id: int)
    ensures forall i :: 0 <= i < |users| ==> users[i].id < id
    decreases |users|
  {
    if users == [] then 1
    else
      var rest := NextId(users[..|users| - 1]);
      var last := users[|users| - 1].id;
      if last < rest then rest else last + 1
  }

  /** A character JavaScript's `\s` matches: the ECMAScript white space and
      line terminators. */
  predicate JsWhitespace(c: char) {
    c == '\t' || c == '\n' || c == '\U{B}' || c == '\U{C}' || c == '\r' || c == ' '
    || c == '\U{A0}' || c == '\U{1680}' || '\U{2000}' <= c <= '\U{200A}'
    || c == '\U{2028}' || c == '\U{2029}' || c == '\U{202F}' || c == '\U{205F}'
    || c == '\U{3000}' || c == '\U{FEFF}'
  }

  /** What Sequelize's `notEmpty` refuses: a string made only of `\s`
      characters, the empty string included. */
  predicate Blank(s: string) {
    forall i :: 0 <= i < |s| ==> JsWhitespace(s[i])
  }

  /** The column validators `User.create` runs, in attribute order and, on
      one attribute, in declaration order, each contributing its message when
      it fails: a name that is not blank and has 2 to 100 characters, a valid
      email, a password of 6 to 255 characters. */
  function CreateValidationMessages(name: string, email: string, password: string, isEmail: string -> bool): (msgs: seq<string>)
    ensures msgs == [] <==> !Blank(name) && 2 <= |name| <= 100 && isEmail(email) && 6 <= |password| <= 255
    ensures Blank(name) ==> msgs[0] == "Name is required"
  {
    (if Blank(name) then ["Name is required"] else []) +
    (if 2 <= |name| <= 100 then [] else ["Name must be 2-100 characters"]) +
    (if isEmail(email) then [] else ["Must be a valid email"]) +
    (if 6 <= |password| <= 255 then [] else ["Password must be at least 6 characters"])
  }

  /** `userCount === 0 ? "admin" : role || "cashier"`. */
  function AssignedRole(liveCount: nat, role: Option<string>): (r: string)
    ensures liveCount == 0 ==> r == "admin"
    ensures liveCount > 0 && role.Some? && role.value != "" ==> r == role.value
    ensures liveCount > 0 && (role.None? || role.value == "") ==> r == "cashier"
  {
    if liveCount == 0 then "admin"
    else if role.Some? && role.value != "" then role.value
    else "cashier"
  }

  /** The handler: the admin check (skipped while no live user exists),
      then the required fields, the password length, the live email lookup,
      and the insert with its validators and unique index. */
  function Register(users: seq<UserRow>, caller: Option<JwtPayload>, body: RegisterBody, isEmail: string -> bool): (out: Outcome)
    ensures !out.response.success ==> out.users == users
    ensures out.response.success ==> |out.users| == |users| + 1 && out.users[..|users|] == users
  {
    var userCount := LiveCount(users);
    if userCount > 0 && !AuthorizeRoles(["admin"], caller) then
      Outcome(ErrorResponse("Only admins can register new users", 403), users)
    else if body.name.None? || body.name.value == "" || body.email.None? || body.email.value == ""
         || body.password.None? || body.password.value == "" then
      Outcome(ErrorResponse("Name, email, and password are required", 400), users)
    else
      var name, email, password := body.name.value, body.email.value, body.password.value;
      if |password| < 6 then
        Outcome(ErrorResponse("Password must be at least 6 characters", 400), users)
      else if LiveEmail(users, email) then
        Outcome(ErrorResponse("Email already exists", 409), users)
      else
        var messages := CreateValidationMessages(name, email, password, isEmail);
        if messages != [] then
          Outcome(HandleApiError(ErrorThrown(ValidationErrorName, "Validation error", Some(messages))), users)
        else if AnyEmail(users, email) then
          Outcome(HandleApiError(ErrorThrown(UniqueConstraintErrorName, "Validation error", Some(["Email already exists"]))), users)
        else
          var user := UserRow(NextId(users), name, email, AssignedRole(userCount, body.role), false);
          var token := JwtPayload(user.id, user.email, user.role);
          assert (users + [user])[..|users|] == users;
          Outcome(SuccessResponse(Registered(token, user), "User registered successfully", 201), users + [user])
  }

  /** With at least one live user, a caller who is not an admin is refused
      with 403 whatever the body holds. */
  lemma NonAdminRefused(users: seq<UserRow>, caller: Option<JwtPayload>, body: RegisterBody, isEmail: string -> bool)
    requires LiveCount(users) > 0
    requires caller.None? || caller.value.role != "admin"
    ensures Register(users, caller, body, isEmail) ==
      Outcome(ErrorResponse("Only admins can register new users", 403), users)
  {
  }

  /** The body checks, in order, once the caller is allowed: a missing or
      empty field is 400, a short password is 400, and an email a live user
      already has is 409. */
  lemma BodyChecks(users: seq<UserRow>, caller: Option<JwtPayload>, body: RegisterBody, isEmail: string -> bool)
    requires LiveCount(users) == 0 || AuthorizeRoles(["admin"], caller)
    ensures body.name.None? || body.name == Some("") || body.email.None? || body.email == Some("")
            || body.password.None? || body.password == Some("") ==>
      Register(users, caller, body, isEmail).response.status == 400
    ensures body.name.Some? && body.name.value != "" && body.email.Some? && body.email.value != "" &&
            body.password.Some? && 0 < |body.password.value| < 6 ==>
      Register(users, caller, body, isEmail).response ==
        ErrorResponse("Password must be at least 6 characters", 400)
    ensures body.name.Some? && body.name.value != "" && body.email.Some? && body.email.value != "" &&
            body.password.Some? && |body.password.value| >= 6 && LiveEmail(users, body.email.value) ==>
      Register(users, caller, body, isEmail).response == ErrorResponse("Email already exists", 409)
  {
  }

  /** The insert, once the body checks have passed. A failing validator
      gives 400 with its messages, joined by ", " and as the errors list; an
      email that only a soft-deleted user has trips the unique index, which
      gives 400 "Email already exists". Either way the table is unchanged.
      Otherwise the registration succeeds. */
  lemma InsertOutcomes(users: seq<UserRow>, caller: Option<JwtPayload>, body: RegisterBody, isEmail: string -> bool)
    requires LiveCount(users) == 0 || AuthorizeRoles(["admin"], caller)
    requires body.name.Some? && body.name.value != "" && body.email.Some? && body.email.value != ""
    requires body.password.Some? && |body.password.value| >= 6
    requires !LiveEmail(users, body.email.value)
    ensures var msgs := CreateValidationMessages(body.name.value, body.email.value, body.password.value, isEmail);
      msgs != [] ==>
        Register(users, caller, body, isEmail) == Outcome(ErrorResponse(Join(msgs, ", "), 400, Some(msgs)), users)
    ensures var msgs := CreateValidationMessages(body.name.value, body.email.value, body.password.value, isEmail);
      msgs == [] && AnyEmail(users, body.email.value) ==>
        Register(users, caller, body, isEmail) ==
          Outcome(ErrorResponse("Email already exists", 400, Some(["Email already exists"])), users)
    ensures var msgs := CreateValidationMessages(body.name.value, body.email.value, body.password.value, isEmail);
      msgs == [] && !AnyEmail(users, body.email.value) ==> Register(users, caller, body, isEmail).response.success
  {
  }

  /** A name of two spaces passes the route's own check and the length
      validator, but not `notEmpty`: the first user is refused with 400
      "Name is required", and no row is added. */
  lemma BlankNameRefused(isEmail: string -> bool)
    requires isEmail("a@b.co")
    ensures Register([], None, RegisterBody(Some("  "), Some("a@b.co"), Some("secret"), None), isEmail) ==
      Outcome(ErrorResponse("Name is required", 400, Some(["Name is required"])), [])
  {
    assert Blank("  ") && LiveCount([]) == 0 && !LiveEmail([], "a@b.co");
    InsertOutcomes([], None, RegisterBody(Some("  "), Some("a@b.co"), Some("secret"), None), isEmail);
    assert CreateValidationMessages("  ", "a@b.co", "secret", isEmail) == ["Name is required"];
  }

  /** A one-space name fails both name validators, which report in order
      (the message is their join, as `HandleApiError` states). */
  lemma OneSpaceNameRefused(isEmail: string -> bool)
    requires isEmail("a@b.co")
    ensures var r := Register([], None, RegisterBody(Some(" "), Some("a@b.co"), Some("secret"), None), isEmail).response;
      r.status == 400 && r.errors == Some(["Name is required", "Name must be 2-100 characters"])
  {
    assert Blank(" ") && LiveCount([]) == 0 && !LiveEmail([], "a@b.co");
    InsertOutcomes([], None, RegisterBody(Some(" "), Some("a@b.co"), Some("secret"), None), isEmail);
    var msgs := CreateValidationMessages(" ", "a@b.co", "secret", isEmail);
    assert msgs == ["Name is required", "Name must be 2-100 characters"];
  }

  /** A successful registration adds exactly one row: a live user with a
      fresh id and the submitted name and email, and the token carries that
      row's id, email and role. */
  lemma RegisteredUser(users: seq<UserRow>, caller: Option<JwtPayload>, body: RegisterBody, isEmail: string -> bool)
    requires Register(users, caller, body, isEmail).response.success
    ensures var out := Register(users, caller, body, isEmail);
      var user := out.users[|users|];
      && out.response.status == 201
      && out.response.data == Some(Registered(JwtPayload(user.id, user.email, user.role), user))
      && !user.deleted
      && Some(user.name) == body.name && Some(user.email) == body.email
      && (forall i :: 0 <= i < |users| ==> users[i].id != user.id)
      && 6 <= |body.password.value| <= 255
  {
    SuccessPath(users, caller, body, isEmail);
    var user := UserRow(NextId(users), body.name.value, body.email.value,
                        AssignedRole(LiveCount(users), body.role), false);
    assert (users + [user])[|users|] == user;
    assert CreateValidationMessages(body.name.value, body.email.value, body.password.value, isEmail) == [];
  }

  /** The one path that succeeds, spelled out. */
  lemma SuccessPath(users: seq<UserRow>, caller: Option<JwtPayload>, body: RegisterBody, isEmail: string -> bool)
    requires Register(users, caller, body, isEmail).response.success
    ensures body.name.Some? && body.email.Some? && body.password.Some?
    ensures CreateValidationMessages(body.name.value, body.email.value, body.password.value, isEmail) == []
    ensures !Blank(body.name.value) && 2 <= |body.name.value| <= 100 && isEmail(body.email.value)
    ensures !AnyEmail(users, body.email.value)
    ensures var user := UserRow(NextId(users), body.name.value, body.email.value,
                                AssignedRole(LiveCount(users), body.role), false);
      Register(users, caller, body, isEmail) ==
        Outcome(SuccessResponse(Registered(JwtPayload(user.id, user.email, user.role), user),
                                "User registered successfully", 201), users + [user])
  {
  }

  /** After the first user, the new user gets the requested role, or
      "cashier" when none (or an empty one) was given. */
  lemma RequestedRole(users: seq<UserRow>, caller: Option<JwtPayload>, body: RegisterBody, isEmail: string -> bool)
    requires LiveCount(users) > 0
    requires Register(users, caller, body, isEmail).response.success
    ensures Register(users, caller, body, isEmail).users[|users|].role ==
      (if body.role.Some? && body.role.value != "" then body.role.value else "cashier")
  {
    SuccessPath(users, caller, body, isEmail);
  }

  /** The bootstrap rule: while no live user exists anyone may register,
      and the user created is an admin whatever role was asked for. */
  lemma BootstrapAdmin(users: seq<UserRow>, caller: Option<JwtPayload>, body: RegisterBody, isEmail: string -> bool)
    requires LiveCount(users) == 0
    requires Register(users, caller, body, isEmail).response.success
    ensures Register(users, caller, body, isEmail).users[|users|].role == "admin"
  {
    SuccessPath(users, caller, body, isEmail);
  }

  /** Emails stay unique over the whole table, soft-deleted rows included. */
  predicate EmailsUnique(users: seq<UserRow>) {
    forall i, j :: 0 <= i < j < |users| ==> users[i].email != users[j].email
  }

  lemma RegisterKeepsEmailsUnique(users: seq<UserRow>, caller: Option<JwtPayload>, body: RegisterBody, isEmail: string -> bool)
    requires EmailsUnique(users)
    ensures EmailsUnique(Register(users, caller, body, isEmail).users)
  {
    var out := Register(users, caller, body, isEmail);
    if out.response.success {
      forall i, j | 0 <= i < j < |out.users| ensures out.users[i].email != out.users[j].email {
        if j == |users| {
          assert out.users[i] == users[i];
          assert !AnyEmail(users, out.users[j].email);
        } else {
          assert out.users[i] == users[i] && out.users[j] == users[j];
        }
      }
    }
  }
}
