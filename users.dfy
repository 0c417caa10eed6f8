/**
 * CustomUserManager: how user accounts are created. A user needs a
 * username; a superuser's `is_staff` and `is_superuser` default to True
 * and must be exactly True. Usernames and non-null e-mails are unique in
 * the user table.
 */
module Users {
  import opened Wrappers
  import opened PyStr

  const UsernameRequired: string := "O nome de usuário deve ser fornecido."
  const StaffRequired: string := "Superuser deve ter is_staff=True."
  const SuperuserRequired: string := "Superuser deve ter is_superuser=True."

  /**
   * A value passed for a flag in `extra_fields`: a boolean, or a value of
   * another type with what the boolean column converts it to when saved:
   * 1, "t", "True" and "1" give True, 0, "f", "False" and "0" give False,
   * and anything else (such as 2 or "yes") is refused, `None`.
   */
  datatype PyValue = PyBool(b: bool) | PyOther(converted: Option<bool>)

  /** `value is True`. */
  predicate IsTrue(v: Option<PyValue>) {
    v == Some(PyBool(true))
  }

  /** The boolean column accepts the value: absent, a boolean, or one it converts. */
  predicate Converts(v: Option<PyValue>) {
    v.None? || v.value.PyBool? || v.value.converted.Some?
  }

  /** Both flags can be saved. */
  predicate FlagsConvert(extras: Extras) {
    Converts(extras.isStaff) && Converts(extras.isSuperuser)
  }

  /** The flag as the boolean column stores it, `default` when not passed (or not convertible). */
  function FlagOf(v: Option<PyValue>, default: bool): bool {
    match v
    case None => default
    case Some(PyBool(b)) => b
    case Some(PyOther(c)) => if c.Some? then c.value else default
  }

  /** The `extra_fields` the manager inspects. */
  datatype Extras = Extras(isStaff: Option<PyValue>, isSuperuser: Option<PyValue>)

  /** `set_password`: a hash of the given text, or an unusable password for None. */
  datatype Password = Unusable | HashOf(raw: string)

  function PasswordOf(raw: Option<string>): Password {
    if raw.None? then Unusable else HashOf(raw.value)
  }

  /**
   * A refused creation: the manager's own check, a flag the boolean column
   * cannot convert, or a unique constraint.
   */
  datatype UserError = ValueError(message: string) | InvalidBoolean | IntegrityError(field: string)

  /** `str.lower()` on ASCII letters. */
  function LowerAscii(s: string): (r: string)
    ensures |r| == |s|
    ensures forall k :: 0 <= k < |s| ==> r[k] == if 'A' <= s[k] <= 'Z' then (s[k] as int + 32) as char else s[k]
  {
    if s == [] then []
    else
      var c := s[0];
      [if 'A' <= c <= 'Z' then (c as int + 32) as char else c] + LowerAscii(s[1..])
  }

  /**
   * `BaseUserManager.normalize_email`: None becomes "", and when the
   * stripped address has an '@', the part after the last '@' is
   * lower-cased and the surrounding whitespace dropped.
   */
  function NormalizeEmail(email: Option<string>): string {
    var e := if email.Some? then email.value else "";
    var stripped := Strip(e);
    var at := RFind(stripped, '@');
    if at < 0 then e else stripped[..at] + "@" + LowerAscii(stripped[at + 1..])
  }

  /** Lower-casing after the '@' at `at` keeps the text up to it and the length, and leaves no capital. */
  lemma LowerDomain(s: string, at: int)
    requires 0 <= at < |s| && s[at] == '@'
    ensures var r := s[..at] + "@" + LowerAscii(s[at + 1..]);
      && r[..at + 1] == s[..at + 1]
      && |r| == |s|
      && forall k :: at < k < |r| ==> !('A' <= r[k] <= 'Z')
  {
    var low := LowerAscii(s[at + 1..]);
    var pre := s[..at] + "@";
    assert pre == s[..at + 1];
    var r := pre + low;
    forall k | at < k < |r| ensures !('A' <= r[k] <= 'Z') {
      assert r[k] == low[k - (at + 1)];
    }
  }

  /** With an '@', the local part is kept and the lower-cased domain keeps its length. */
  lemma NormalizeEmailWithAt(e: string)
    requires '@' in Strip(e)
    ensures var s := Strip(e);
      var at := RFind(s, '@');
      var r := NormalizeEmail(Some(e));
      && r[..at + 1] == s[..at + 1]
      && |r| == |s|
      && forall k :: at < k < |r| ==> !('A' <= r[k] <= 'Z')
  {
    var s := Strip(e);
    var at := RFind(s, '@');
    assert at >= 0 by {
      var k :| 0 <= k < |s| && s[k] == '@';
    }
    assert NormalizeEmail(Some(e)) == s[..at] + "@" + LowerAscii(s[at + 1..]);
    LowerDomain(s, at);
  }

  /**
   * No address normalises to "" for a missing e-mail; an address without
   * '@' is kept as it is; otherwise the local part is kept and the domain
   * has no upper-case ASCII letter.
   */
  lemma NormalizeEmailCases(email: Option<string>)
    ensures email.None? ==> NormalizeEmail(email) == ""
    ensures email.Some? && '@' !in Strip(email.value) ==> NormalizeEmail(email) == email.value
    ensures email.Some? && '@' in Strip(email.value) ==>
      var s := Strip(email.value);
      var at := RFind(s, '@');
      var r := NormalizeEmail(email);
      && r[..at + 1] == s[..at + 1]
      && |r| == |s|
      && forall k :: at < k < |r| ==> !('A' <= r[k] <= 'Z')
  {
    if email.Some? && '@' in Strip(email.value) {
      NormalizeEmailWithAt(email.value);
    }
  }

  class User {
    const id: nat
    const username: string
    const email: Option<string>
    const isStaff: bool
    const isSuperuser: bool
    const isActive: bool
    var password: Password

    /** `self.model(username=..., email=..., **extra_fields)`: model defaults for the rest. */
    constructor (id: nat, username: string, email: Option<string>, extras: Extras)
      ensures this.id == id && this.username == username && this.email == email
      ensures isStaff == FlagOf(extras.isStaff, false) && isSuperuser == FlagOf(extras.isSuperuser, false)
      ensures isActive && password == Unusable
    {
      this.id := id;
      this.username := username;
      this.email := email;
      isStaff := FlagOf(extras.isStaff, false);
      isSuperuser := FlagOf(extras.isSuperuser, false);
      isActive := true;
      password := Unusable;
    }

    method SetPassword(raw: Option<string>)
      modifies this`password
      ensures password == PasswordOf(raw)
    {
      password := PasswordOf(raw);
    }
  }

  /**
   * `extra_fields.setdefault` for both flags, then the two checks in
   * order: each flag must be exactly True once defaulted.
   */
  function SuperuserExtras(extras: Extras): (r: Result<Extras, UserError>)
  {
    var staff := if extras.isStaff.None? then Some(PyBool(true)) else extras.isStaff;
    var superuser := if extras.isSuperuser.None? then Some(PyBool(true)) else extras.isSuperuser;
    if !IsTrue(staff) then Failure(ValueError(StaffRequired))
    else if !IsTrue(superuser) then Failure(ValueError(SuperuserRequired))
    else Success(Extras(staff, superuser))
  }

  /**
   * A superuser's flags pass exactly when each is absent or True; False or
   * a truthy non-boolean such as 1 is refused, `is_staff` first; what
   * passes on has both flags True.
   */
  lemma SuperuserExtrasSpec(extras: Extras)
    ensures var r := SuperuserExtras(extras);
      && (r.Success? <==> (extras.isStaff.None? || IsTrue(extras.isStaff))
                          && (extras.isSuperuser.None? || IsTrue(extras.isSuperuser)))
      && (r.Success? ==> IsTrue(r.value.isStaff) && IsTrue(r.value.isSuperuser))
      && (extras.isStaff.Some? && !IsTrue(extras.isStaff) ==> r == Failure(ValueError(StaffRequired)))
      && ((extras.isStaff.None? || IsTrue(extras.isStaff)) && extras.isSuperuser.Some? && !IsTrue(extras.isSuperuser)
          ==> r == Failure(ValueError(SuperuserRequired)))
  {
  }

  /** The user table behind `CustomUser.objects`. */
  class UserManager {
    var users: seq<User>
    var nextId: nat

    /** Ids and usernames are distinct; non-null e-mails are distinct. */
    ghost predicate Valid()
      reads this, users
    {
      && nextId >= 1
      && (forall u :: u in users ==> u.id < nextId)
      && (forall i, j :: 0 <= i < j < |users| ==>
            && users[i].id != users[j].id && users[i].username != users[j].username
            && (users[i].email.Some? ==> users[i].email != users[j].email))
    }

    constructor ()
      ensures Valid() && users == [] && nextId == 1
    {
      users := [];
      nextId := 1;
    }

    predicate UsernameTaken(username: string)
      reads this, users
    {
      exists i :: 0 <= i < |users| && users[i].username == username
    }

    /** SQL uniqueness: NULL never collides, equal strings do. */
    predicate EmailTaken(email: Option<string>)
      reads this, users
    {
      email.Some? && exists i :: 0 <= i < |users| && users[i].email == email
    }

    /**
     * Build the user, set its password, and save it. The save first
     * converts the flags, failing on one the column refuses, and then fails
     * on a taken username or e-mail, in that order; a failed save stores
     * nothing.
     */
    method Insert(username: string, email: Option<string>, password: Option<string>, extras: Extras)
      returns (r: Result<User, UserError>)
      requires Valid()
      modifies this
      ensures Valid()
      ensures r.Success? <==> FlagsConvert(extras) && !old(UsernameTaken(username)) && !old(EmailTaken(email))
      ensures r.Failure? ==>
        && users == old(users) && nextId == old(nextId)
        && r.error == (if !FlagsConvert(extras) then InvalidBoolean
                       else if old(UsernameTaken(username)) then IntegrityError("username")
                       else IntegrityError("email"))
      ensures r.Success? ==>
        && fresh(r.value) && users == old(users) + [r.value] && nextId == old(nextId) + 1
        && r.value.id == old(nextId) && r.value.username == username && r.value.email == email
        && r.value.isStaff == FlagOf(extras.isStaff, false) && r.value.isSuperuser == FlagOf(extras.isSuperuser, false)
        && r.value.isActive && r.value.password == PasswordOf(password)
    {
      var user := new User(nextId, username, email, extras);
      user.SetPassword(password);
      if !FlagsConvert(extras) {
        return Failure(InvalidBoolean);
      }
      if UsernameTaken(username) {
        return Failure(IntegrityError("username"));
      }
      if EmailTaken(email) {
        return Failure(IntegrityError("email"));
      }
      users := users + [user];
      nextId := nextId + 1;
      r := Success(user);
    }

    /**
     * `create_user` as written: an empty username is refused before
     * anything else; the e-mail is stored normalised, so a missing one is
     * stored as "" rather than NULL.
     */
    method CreateUserAsWritten(username: string, email: Option<string>, password: Option<string>, extras: Extras)
      returns (r: Result<User, UserError>)
      requires Valid()
      modifies this
      ensures Valid()
      ensures username == "" ==> r == Failure(ValueError(UsernameRequired)) && users == old(users) && nextId == old(nextId)
      ensures username != "" ==>
        && (r.Success? <==> FlagsConvert(extras) && !old(UsernameTaken(username)) && !old(EmailTaken(Some(NormalizeEmail(email)))))
        && (r.Success? ==>
              && fresh(r.value) && users == old(users) + [r.value] && nextId == old(nextId) + 1
              && r.value.id == old(nextId) && r.value.username == username
              && r.value.email == Some(NormalizeEmail(email))
              && r.value.isStaff == FlagOf(extras.isStaff, false)
              && r.value.isSuperuser == FlagOf(extras.isSuperuser, false)
              && r.value.isActive && r.value.password == PasswordOf(password))
        && (r.Failure? ==>
              && users == old(users) && nextId == old(nextId)
              && r.error == (if !FlagsConvert(extras) then InvalidBoolean
                             else if old(UsernameTaken(username)) then IntegrityError("username")
                             else IntegrityError("email")))
    {
      if username == "" {
        return Failure(ValueError(UsernameRequired));
      }
      r := Insert(username, Some(NormalizeEmail(email)), password, extras);
    }

    /**
     * `create_user` with a missing e-mail stored as NULL: an empty username
     * is refused; otherwise the user is saved unless the username (or a
     * given e-mail) is taken. A user without e-mail never collides on it.
     */
    method CreateUser(username: string, email: Option<string>, password: Option<string>, extras: Extras)
      returns (r: Result<User, UserError>)
      requires Valid()
      modifies this
      ensures Valid()
      ensures username == "" ==> r == Failure(ValueError(UsernameRequired)) && users == old(users) && nextId == old(nextId)
      ensures username != "" ==>
        var stored := if NormalizeEmail(email) == "" then None else Some(NormalizeEmail(email));
        && (r.Success? <==> FlagsConvert(extras) && !old(UsernameTaken(username)) && !old(EmailTaken(stored)))
        && (r.Failure? ==>
              && users == old(users) && nextId == old(nextId)
              && r.error == (if !FlagsConvert(extras) then InvalidBoolean
                             else if old(UsernameTaken(username)) then IntegrityError("username")
                             else IntegrityError("email")))
        && (r.Success? ==>
              && fresh(r.value) && users == old(users) + [r.value] && nextId == old(nextId) + 1
              && r.value.id == old(nextId) && r.value.username == username && r.value.email == stored
              && r.value.isStaff == FlagOf(extras.isStaff, false)
              && r.value.isSuperuser == FlagOf(extras.isSuperuser, false)
              && r.value.isActive && r.value.password == PasswordOf(password))
      ensures email.None? && username != "" ==> (r.Success? <==> FlagsConvert(extras) && !old(UsernameTaken(username)))
    {
      if username == "" {
        return Failure(ValueError(UsernameRequired));
      }
      var normalized := NormalizeEmail(email);
      r := Insert(username, if normalized == "" then None else Some(normalized), password, extras);
    }

    /**
     * `create_superuser` as written: both flags default to True and must be
     * exactly True; then `create_user` as written creates the user, so a
     * missing e-mail is stored as "" and collides with any earlier "".
     */
    method CreateSuperuserAsWritten(username: string, email: Option<string>, password: Option<string>, extras: Extras)
      returns (r: Result<User, UserError>)
      requires Valid()
      modifies this
      ensures Valid()
      ensures SuperuserExtras(extras).Failure? ==>
        r == Failure(SuperuserExtras(extras).error) && users == old(users) && nextId == old(nextId)
      ensures SuperuserExtras(extras).Success? && username == "" ==>
        r == Failure(ValueError(UsernameRequired)) && users == old(users) && nextId == old(nextId)
      ensures SuperuserExtras(extras).Success? && username != "" ==>
        && (r.Success? <==> !old(UsernameTaken(username)) && !old(EmailTaken(Some(NormalizeEmail(email)))))
        && (r.Failure? ==>
              && users == old(users) && nextId == old(nextId)
              && r.error == (if old(UsernameTaken(username)) then IntegrityError("username") else IntegrityError("email")))
      ensures r.Success? ==>
        && fresh(r.value) && users == old(users) + [r.value] && nextId == old(nextId) + 1
        && r.value.id == old(nextId) && r.value.isStaff && r.value.isSuperuser
        && r.value.username == username && r.value.email == Some(NormalizeEmail(email))
        && r.value.isActive && r.value.password == PasswordOf(password)
    {
      SuperuserExtrasSpec(extras);
      match SuperuserExtras(extras)
      case Failure(e) =>
        r := Failure(e);
      case Success(checked) =>
        r := CreateUserAsWritten(username, email, password, checked);
        if r.Success? {
          assert r.value == users[|users| - 1];
        }
    }

    /**
     * `create_superuser` over `create_user` with a missing e-mail stored as
     * NULL: the same flag checks, and a superuser without e-mail fails only
     * on a taken username.
     */
    method CreateSuperuser(username: string, email: Option<string>, password: Option<string>, extras: Extras)
      returns (r: Result<User, UserError>)
      requires Valid()
      modifies this
      ensures Valid()
      ensures SuperuserExtras(extras).Failure? ==>
        r == Failure(SuperuserExtras(extras).error) && users == old(users) && nextId == old(nextId)
      ensures SuperuserExtras(extras).Success? && username == "" ==>
        r == Failure(ValueError(UsernameRequired)) && users == old(users) && nextId == old(nextId)
      ensures SuperuserExtras(extras).Success? && username != "" ==>
        var stored := if NormalizeEmail(email) == "" then None else Some(NormalizeEmail(email));
        && (r.Success? <==> !old(UsernameTaken(username)) && !old(EmailTaken(stored)))
        && (r.Failure? ==>
              && users == old(users) && nextId == old(nextId)
              && r.error == (if old(UsernameTaken(username)) then IntegrityError("username") else IntegrityError("email")))
        && (r.Success? ==> r.value.username == username && r.value.email == stored)
      ensures r.Success? ==>
        && fresh(r.value) && users == old(users) + [r.value] && nextId == old(nextId) + 1
        && r.value.id == old(nextId) && r.value.isStaff && r.value.isSuperuser
        && r.value.isActive && r.value.password == PasswordOf(password)
      ensures SuperuserExtras(extras).Success? && username != "" && email.None? ==>
        (r.Success? <==> !old(UsernameTaken(username)))
    {
      SuperuserExtrasSpec(extras);
      match SuperuserExtras(extras)
      case Failure(e) =>
        r := Failure(e);
      case Success(checked) =>
        r := CreateUser(username, email, password, checked);
    }
  }

  /**
   * As written, two accounts created without an e-mail cannot coexist:
   * the first stores "", and the second's "" hits the unique constraint.
   */
  method NoEmailUsersCollideAsWritten()
    returns (first: Result<User, UserError>, second: Result<User, UserError>, root: Result<User, UserError>)
    ensures first.Success?
    ensures second == Failure(IntegrityError("email"))
    ensures root == Failure(IntegrityError("email"))
  {
    var manager := new UserManager();
    first := manager.CreateUserAsWritten("ana", None, None, Extras(None, None));
    assert NormalizeEmail(None) == "";
    assert manager.users[0].email == Some("");
    assert !manager.UsernameTaken("bia");
    second := manager.CreateUserAsWritten("bia", None, None, Extras(None, None));
    assert manager.users[0].email == Some("");
    assert !manager.UsernameTaken("root");
    SuperuserExtrasSpec(Extras(None, None));
    root := manager.CreateSuperuserAsWritten("root", None, None, Extras(None, None));
  }

  /**
   * Flags given as other values: "0" is stored as False (not by its truth
   * value, which is True), and "yes" makes the save fail, leaving no user.
   */
  method NonBooleanFlags()
    returns (zero: Result<User, UserError>, yes: Result<User, UserError>)
    ensures zero.Success? && !zero.value.isStaff
    ensures yes == Failure(InvalidBoolean)
  {
    var manager := new UserManager();
    zero := manager.CreateUser("ana", None, None, Extras(Some(PyOther(Some(false))), None));
    assert !manager.UsernameTaken("bia");
    yes := manager.CreateUser("bia", None, None, Extras(Some(PyOther(None)), None));
  }

  /** With NULL for a missing e-mail, both accounts and a superuser are created. */
  method NoEmailUsersCoexist()
    returns (first: Result<User, UserError>, second: Result<User, UserError>, root: Result<User, UserError>)
    ensures first.Success? && second.Success? && root.Success?
    ensures first.value.email.None? && second.value.email.None? && root.value.email.None?
    ensures root.value.isStaff && root.value.isSuperuser
  {
    var manager := new UserManager();
    first := manager.CreateUser("ana", None, None, Extras(None, None));
    assert !manager.UsernameTaken("bia");
    second := manager.CreateUser("bia", None, None, Extras(None, None));
    assert !manager.UsernameTaken("root");
    SuperuserExtrasSpec(Extras(None, None));
    root := manager.CreateSuperuser("root", None, None, Extras(None, None));
  }
}
