/**
 * The user document: the checks its schema makes before a save, the two
 * pre-save hooks, the password-change test used by the route guard, the
 * password-reset token, and the collection the documents are saved to.
 *
 * bcrypt and SHA-256 are symbolic: `Bcrypt(text, cost)` stands for the hash
 * of `text` and `Sha256(text)` for the hex digest of `text`, so equal hashes
 * mean equal texts (no collisions).
 */
module UserModel {
  import opened Common
  import opened Errors

  /** A document id (`_id`). */
  type Id = string

  /** A password value: plain text as assigned from a request body, or the
      bcrypt hash that replaces it before the document is written. */
  datatype Secret = Plain(text: string) | Bcrypt(text: string, cost: nat)

  /** `bcrypt.compare(candidate, stored)`: only a hash of exactly the
      candidate matches. */
  predicate CorrectPassword(candidate: string, stored: Secret) {
    stored.Bcrypt? && stored.text == candidate
  }

  /** `crypto.createHash("sha256").update(text).digest("hex")`. */
  datatype Digest = Sha256(preimage: string)

  const HashCost: nat := 12
  const MinPasswordLength: nat := 8
  /** Ten minutes, in milliseconds. */
  const ResetTokenLifetime: int := 10 * 60 * 1000
  /** How far `passwordChangedAt` is set back from the time of the save. */
  const ChangeBackdate: int := 1000

  /** The paths of a user document. Dates are milliseconds since the epoch. */
  datatype UserData = UserData(
    username: Option<string>,
    email: Option<string>,
    password: Option<Secret>,
    confirmPassword: Option<string>,
    passwordChangedAt: Option<int>,
    passwordResetToken: Option<Digest>,
    passwordResetTokenExpiresAt: Option<int>)

  /** The paths the request handlers assign to and the hooks rewrite. */
  datatype Path = PasswordPath | ConfirmPasswordPath | ChangedAtPath | ResetTokenPath | ResetExpiresPath

  // ---------------------------------------------------------------------------
  // the schema's checks
  // ---------------------------------------------------------------------------

  function MinLengthMessage(p: string): string {
    "Path `password` (`" + p + "`) is shorter than the minimum allowed length (8)."
  }

  function UsernameErrors(u: Option<string>): (fs: seq<ValidatorError>)
    ensures |fs| <= 1 && (fs != [] ==> fs[0].path == "username")
    ensures fs == [] <==> Truthy(u)
  {
    if !Truthy(u) then [ValidatorError("username", "Please enter a username")] else []
  }

  function EmailErrors(e: Option<string>, isEmail: string -> bool): (fs: seq<ValidatorError>)
    ensures |fs| <= 1 && (fs != [] ==> fs[0].path == "email")
    ensures fs == [] <==> Truthy(e) && isEmail(e.value)
  {
    if !Truthy(e) then [ValidatorError("email", "Please enter an email")]
    else if !isEmail(e.value) then [ValidatorError("email", "Please enter a valid email")]
    else []
  }

  /** `required`, then `minlength: 8`. A hash is a 60-character text, so a
      hashed password passes both. */
  function PasswordErrors(p: Option<Secret>): (fs: seq<ValidatorError>)
    ensures |fs| <= 1 && (fs != [] ==> fs[0].path == "password")
  {
    if p.None? || p.value == Plain("") then [ValidatorError("password", "Please enter a password")]
    else if p.value.Plain? && |p.value.text| < MinPasswordLength then
      [ValidatorError("password", MinLengthMessage(p.value.text))]
    else []
  }

  /** `required`, then the custom validator `val === this.password`. A typed
      confirmation never equals a hash. */
  function ConfirmPasswordErrors(c: Option<string>, p: Option<Secret>): (fs: seq<ValidatorError>)
    ensures |fs| <= 1 && (fs != [] ==> fs[0].path == "confirmPassword")
    ensures fs == [] <==> Truthy(c) && p == Some(Plain(c.value))
  {
    if !Truthy(c) then [ValidatorError("confirmPassword", "Please enter a confirmation password")]
    else if p != Some(Plain(c.value)) then [ValidatorError("confirmPassword", "Passwords do not match")]
    else []
  }

  /** What a save may store: a username, a well-formed email, a typed password
      of at least eight characters, and a confirmation equal to it. */
  predicate UserValid(d: UserData, isEmail: string -> bool) {
    Truthy(d.username) && Truthy(d.email) && isEmail(d.email.value)
    && d.confirmPassword.Some? && d.password == Some(Plain(d.confirmPassword.value))
    && |d.confirmPassword.value| >= MinPasswordLength
  }

  /** The errors of a validation, one per failing path, in schema order; the
      save goes ahead exactly when there are none. */
  function UserErrors(d: UserData, isEmail: string -> bool): (fs: seq<ValidatorError>)
    ensures fs == [] <==> UserValid(d, isEmail)
    ensures |fs| <= 4
  {
    UsernameErrors(d.username) + EmailErrors(d.email, isEmail)
    + PasswordErrors(d.password) + ConfirmPasswordErrors(d.confirmPassword, d.password)
  }

  /** The path of the `k`th error when the first three paths report `na`,
      `nb` and `nc` errors. */
  function PathAt(k: nat, na: nat, nb: nat, nc: nat): string {
    if k < na then "username"
    else if k < na + nb then "email"
    else if k < na + nb + nc then "password"
    else "confirmPassword"
  }

  /** A validation reports at most one error per path. */
  lemma OneErrorPerPath(d: UserData, isEmail: string -> bool)
    ensures var fs := UserErrors(d, isEmail);
      forall i, j :: 0 <= i < j < |fs| ==> fs[i].path != fs[j].path
  {
    var a, b := UsernameErrors(d.username), EmailErrors(d.email, isEmail);
    var c, e := PasswordErrors(d.password), ConfirmPasswordErrors(d.confirmPassword, d.password);
    var fs := a + b + c + e;
    forall k | 0 <= k < |fs|
      ensures fs[k].path == PathAt(k, |a|, |b|, |c|)
    {
      if k < |a| {
      } else if k < |a| + |b| {
        assert fs[k] == b[k - |a|];
      } else if k < |a| + |b| + |c| {
        assert fs[k] == c[k - |a| - |b|];
      } else {
        assert fs[k] == e[k - |a| - |b| - |c|];
      }
    }
    forall i, j | 0 <= i < j < |fs|
      ensures fs[i].path != fs[j].path
    {
      assert PathAt(i, |a|, |b|, |c|) != PathAt(j, |a|, |b|, |c|);
    }
  }

  /** A short password is reported with the typed text and the minimum length. */
  lemma ShortPasswordReported(d: UserData, isEmail: string -> bool, p: string)
    requires d.password == Some(Plain(p)) && 0 < |p| < MinPasswordLength
    ensures ValidatorError("password", MinLengthMessage(p)) in UserErrors(d, isEmail)
    ensures !UserValid(d, isEmail)
  {
    var fs := UsernameErrors(d.username) + EmailErrors(d.email, isEmail);
    assert UserErrors(d, isEmail) == fs + PasswordErrors(d.password) + ConfirmPasswordErrors(d.confirmPassword, d.password);
    assert UserErrors(d, isEmail)[|fs|] == ValidatorError("password", MinLengthMessage(p));
  }

  // ---------------------------------------------------------------------------
  // changedPasswordAfter
  // ---------------------------------------------------------------------------

  /** `changedPasswordAfter(iat)`: the token's issue time, in seconds, lies
      before the change time cut down to whole seconds; never when the
      password was not changed. */
  function ChangedPasswordAfter(changedAt: Option<int>, iat: int): (r: bool)
    ensures changedAt.None? ==> !r
  {
    changedAt.Some? && iat < TruncDiv(changedAt.value, 1000)
  }

  /** In milliseconds: a token is stale exactly when the whole second after
      its issue second had begun by the time of the change. */
  lemma ChangedAfterInMilliseconds(ms: int, iat: int)
    requires ms >= 0
    ensures ChangedPasswordAfter(Some(ms), iat) <==> (iat + 1) * 1000 <= ms
  {
    var q := ms / 1000;
    assert q * 1000 <= ms < (q + 1) * 1000;
    if iat < q {
      assert (iat + 1) * 1000 <= q * 1000;
    } else {
      assert (q + 1) * 1000 <= (iat + 1) * 1000;
    }
  }

  /** The change time is set a second back, so a token issued in the second
      of the save, or later, is not reported stale. */
  lemma FreshTokenNotStale(now: int, iat: int)
    requires now >= ChangeBackdate && iat >= now / 1000
    ensures !ChangedPasswordAfter(Some(now - ChangeBackdate), iat)
  {
    assert (now - 1000) / 1000 == now / 1000 - 1;
  }

  // ---------------------------------------------------------------------------
  // the document
  // ---------------------------------------------------------------------------

  function LowerCased(e: Option<string>): (r: Option<string>)
    ensures r.Some? <==> e.Some?
    ensures r.Some? ==> r.value == ToLower(e.value)
    ensures r.Some? ==> ToLower(r.value) == r.value
  {
    if e.Some? then ToLowerIdempotent(e.value); Some(ToLower(e.value)) else None
  }

  function Typed(p: Option<string>): Option<Secret> {
    if p.Some? then Some(Plain(p.value)) else None
  }

  /**
   * A user document in memory. `modified` holds the paths assigned since it
   * was loaded (what `isModified` reports); `isNew` is true until its first
   * save.
   */
  class User {
    const id: Id
    var username: Option<string>
    var email: Option<string>
    var password: Option<Secret>
    var confirmPassword: Option<string>
    var passwordChangedAt: Option<int>
    var passwordResetToken: Option<Digest>
    var passwordResetTokenExpiresAt: Option<int>
    var isNew: bool
    var modified: set<Path>

    function Data(): UserData
      reads this
    {
      UserData(username, email, password, confirmPassword, passwordChangedAt,
               passwordResetToken, passwordResetTokenExpiresAt)
    }

    /** A typed password is one assigned since loading; on a loaded document
        the confirmation is assigned only together with the password; the
        reset fields are set, and assigned, together. */
    predicate Valid()
      reads this
    {
      (password.Some? && password.value.Plain? ==> PasswordPath in modified)
      && (!isNew && ConfirmPasswordPath in modified ==> PasswordPath in modified)
      && (ResetTokenPath in modified <==> ResetExpiresPath in modified)
      && (passwordResetToken.Some? <==> passwordResetTokenExpiresAt.Some?)
    }

    /** Before the hooks: an assigned password is typed text or missing. */
    predicate PasswordTyped()
      reads this
    {
      PasswordPath in modified ==> password.None? || password.value.Plain?
    }

    /** `new User({ username, email, password, confirmPassword })`: the
        `lowercase` setter lower-cases the email. */
    constructor New(id: Id, username: Option<string>, email: Option<string>,
                    password: Option<string>, confirmPassword: Option<string>)
      ensures Valid() && PasswordTyped() && isNew && this.id == id
      ensures Data() == UserData(username, LowerCased(email), Typed(password), confirmPassword, None, None, None)
      ensures PasswordPath in modified <==> password.Some?
    {
      this.id := id;
      this.username := username;
      this.email := LowerCased(email);
      this.password := Typed(password);
      this.confirmPassword := confirmPassword;
      this.passwordChangedAt := None;
      this.passwordResetToken := None;
      this.passwordResetTokenExpiresAt := None;
      this.isNew := true;
      this.modified := (if password.Some? then {PasswordPath} else {})
                     + (if confirmPassword.Some? then {ConfirmPasswordPath} else {});
    }

    /** A document read from the collection. `password` and `confirmPassword`
        are `select: false`: the password is there only when the query asked
        for `+password`, the confirmation never. */
    constructor Loaded(id: Id, d: UserData, withPassword: bool)
      requires d.password.None? || d.password.value.Bcrypt?
      requires d.passwordResetToken.Some? <==> d.passwordResetTokenExpiresAt.Some?
      ensures Valid() && PasswordTyped() && !isNew && modified == {} && this.id == id
      ensures Data() == d.(password := if withPassword then d.password else None, confirmPassword := None)
    {
      this.id := id;
      this.username := d.username;
      this.email := d.email;
      this.password := if withPassword then d.password else None;
      this.confirmPassword := None;
      this.passwordChangedAt := d.passwordChangedAt;
      this.passwordResetToken := d.passwordResetToken;
      this.passwordResetTokenExpiresAt := d.passwordResetTokenExpiresAt;
      this.isNew := false;
      this.modified := {};
    }

    /** `user.password = password; user.confirmPassword = confirmPassword`. */
    method SetPasswords(password: Option<string>, confirmPassword: Option<string>)
      requires Valid()
      modifies this
      ensures Valid() && isNew == old(isNew)
      ensures Data() == old(Data()).(password := Typed(password), confirmPassword := confirmPassword)
      ensures modified == old(modified) + {PasswordPath, ConfirmPasswordPath}
    {
      this.password := Typed(password);
      this.confirmPassword := confirmPassword;
      modified := modified + {PasswordPath, ConfirmPasswordPath};
    }

    /** `user.passwordResetToken = undefined; user.passwordResetTokenExpiresAt = undefined`. */
    method ClearResetFields()
      requires Valid()
      modifies this
      ensures Valid() && isNew == old(isNew)
      ensures Data() == old(Data()).(passwordResetToken := None, passwordResetTokenExpiresAt := None)
      ensures modified == old(modified) + {ResetTokenPath, ResetExpiresPath}
    {
      passwordResetToken := None;
      passwordResetTokenExpiresAt := None;
      modified := modified + {ResetTokenPath, ResetExpiresPath};
    }

    /** `user.password = undefined` before the document is sent back. */
    method RemovePassword()
      requires Valid()
      modifies this
      ensures Valid() && isNew == old(isNew)
      ensures Data() == old(Data()).(password := None)
      ensures modified == old(modified) + {PasswordPath}
    {
      password := None;
      modified := modified + {PasswordPath};
    }

    /**
     * `createPasswordResetToken()`: the hex text of 32 random bytes is the
     * token handed out; only its digest is kept, with an expiry ten minutes
     * ahead. The two fields are set together.
     */
    method CreatePasswordResetToken(randomBytes: seq<byte>, now: int) returns (resetToken: string)
      requires Valid() && |randomBytes| == 32
      modifies this
      ensures Valid() && isNew == old(isNew)
      ensures resetToken == HexEncode(randomBytes) && |resetToken| == 64
      ensures forall i :: 0 <= i < |resetToken| ==> IsHexDigit(resetToken[i])
      ensures Data() == old(Data()).(passwordResetToken := Some(Sha256(resetToken)),
                                     passwordResetTokenExpiresAt := Some(now + ResetTokenLifetime))
      ensures modified == old(modified) + {ResetTokenPath, ResetExpiresPath}
    {
      resetToken := HexEncode(randomBytes);
      passwordResetToken := Some(Sha256(resetToken));
      passwordResetTokenExpiresAt := Some(now + 10 * 60 * 1000);
      modified := modified + {ResetTokenPath, ResetExpiresPath};
    }

    /**
     * The first pre-save hook: a modified password is replaced by its hash
     * with cost 12 and the confirmation is dropped; an unmodified one is left
     * alone. Hashing a missing password throws.
     */
    method HashPassword() returns (err: Option<Err>)
      requires Valid() && PasswordTyped()
      modifies this
      ensures Valid() && isNew == old(isNew)
      ensures PasswordPath !in old(modified) ==>
        err.None? && Data() == old(Data()) && modified == old(modified)
      ensures PasswordPath in old(modified) && old(password).None? ==>
        err.Some? && Data() == old(Data()) && modified == old(modified)
      ensures PasswordPath in old(modified) && old(password).Some? ==>
        err.None? && modified == old(modified) + {ConfirmPasswordPath} &&
        Data() == old(Data()).(password := Some(Bcrypt(old(password).value.text, HashCost)), confirmPassword := None)
    {
      if PasswordPath !in modified {
        return None;
      }
      if password.None? {
        return Some(Thrown("Error", "data and salt arguments required"));
      }
      password := Some(Bcrypt(password.value.text, 12));
      confirmPassword := None;
      modified := modified + {ConfirmPasswordPath};
      err := None;
    }

    /** The second pre-save hook: a password changed on a stored document
        records the change, a second back from `now`. */
    method StampPasswordChange(now: int)
      requires Valid()
      modifies this
      ensures Valid() && isNew == old(isNew)
      ensures PasswordPath !in modified || isNew ==> Data() == old(Data()) && modified == old(modified)
      ensures PasswordPath in modified && !isNew ==>
        Data() == old(Data()).(passwordChangedAt := Some(now - ChangeBackdate)) &&
        modified == old(modified) + {ChangedAtPath}
    {
      if PasswordPath !in modified || isNew {
        return;
      }
      passwordChangedAt := Some(now - 1000);
      modified := modified + {ChangedAtPath};
    }
  }

  // ---------------------------------------------------------------------------
  // the collection
  // ---------------------------------------------------------------------------

  datatype Doc = Doc(id: Id, data: UserData)

  /** A stored user: a lower-case email, the password only as a cost-12 hash,
      no confirmation, and the reset fields set together. */
  predicate AtRest(d: UserData) {
    d.email.Some? && ToLower(d.email.value) == d.email.value
    && d.password.Some? && d.password.value.Bcrypt? && d.password.value.cost == HashCost
    && d.confirmPassword.None?
    && (d.passwordResetToken.Some? <==> d.passwordResetTokenExpiresAt.Some?)
  }

  function IndexOf(docs: seq<Doc>, id: Id): Option<nat> {
    FirstMatch(docs, (d: Doc) => d.id == id)
  }

  /** `findOne({ email })`; the `lowercase` setter applies to the filter too. */
  function FindByEmail(docs: seq<Doc>, email: string): Option<nat> {
    FirstMatch(docs, (d: Doc) => d.data.email == Some(ToLower(email)))
  }

  /** The stored paths after a save of a document whose assigned paths are
      `paths`: exactly those are written. */
  function Written(stored: UserData, doc: UserData, paths: set<Path>): (r: UserData)
    ensures r.username == stored.username && r.email == stored.email
  {
    stored.(password := if PasswordPath in paths then doc.password else stored.password,
            confirmPassword := if ConfirmPasswordPath in paths then doc.confirmPassword else stored.confirmPassword,
            passwordChangedAt := if ChangedAtPath in paths then doc.passwordChangedAt else stored.passwordChangedAt,
            passwordResetToken := if ResetTokenPath in paths then doc.passwordResetToken else stored.passwordResetToken,
            passwordResetTokenExpiresAt :=
              if ResetExpiresPath in paths then doc.passwordResetTokenExpiresAt else stored.passwordResetTokenExpiresAt)
  }

  /** The document after the two pre-save hooks, on a loaded document whose
      password, if assigned, is defined. */
  function Hooked(d: UserData, paths: set<Path>, now: int): (r: UserData)
    requires PasswordPath in paths ==> d.password.Some?
    ensures PasswordPath !in paths ==> r == d
    ensures PasswordPath in paths ==>
      r.password.Some? && r.password.value.Bcrypt? && r.password.value.cost == HashCost &&
      (forall c :: CorrectPassword(c, r.password.value) <==> c == d.password.value.text) &&
      r.confirmPassword.None? && r.passwordChangedAt == Some(now - ChangeBackdate) && r.passwordChangedAt.value < now
    ensures r.(password := d.password, confirmPassword := d.confirmPassword, passwordChangedAt := d.passwordChangedAt) == d
  {
    if PasswordPath in paths then
      d.(password := Some(Bcrypt(d.password.value.text, HashCost)), confirmPassword := None,
         passwordChangedAt := Some(now - ChangeBackdate))
    else d
  }

  /** The paths written by that save. */
  function HookedPaths(paths: set<Path>): set<Path> {
    if PasswordPath in paths then paths + {ConfirmPasswordPath, ChangedAtPath} else paths
  }

  /** Every record is at rest; ids and emails (a unique index) are unique. */
  predicate Consistent(docs: seq<Doc>) {
    (forall i :: 0 <= i < |docs| ==> AtRest(docs[i].data))
    && (forall i, j :: 0 <= i < j < |docs| ==> docs[i].id != docs[j].id)
    && (forall i, j :: 0 <= i < j < |docs| ==> docs[i].data.email != docs[j].data.email)
  }

  /** Inserting a record at rest under a fresh id and an unused email. */
  lemma ConsistentInsert(docs: seq<Doc>, doc: Doc)
    requires Consistent(docs) && AtRest(doc.data)
    requires IndexOf(docs, doc.id).None?
    requires FindByEmail(docs, doc.data.email.value).None?
    ensures Consistent(docs + [doc])
  {
    ToLowerIdempotent(doc.data.email.value);
    var d := docs + [doc];
    forall i, j | 0 <= i < j < |d|
      ensures d[i].id != d[j].id && d[i].data.email != d[j].data.email
    {
      if j == |docs| {
        assert d[i] == docs[i];
      }
    }
  }

  /** The document `User.create` builds from the request body. */
  function NewUser(username: Option<string>, email: Option<string>,
                   password: Option<string>, confirmPassword: Option<string>): UserData {
    UserData(username, LowerCased(email), Typed(password), confirmPassword, None, None, None)
  }

  /** The user collection, in insertion order. */
  class UserStore {
    var docs: seq<Doc>

    predicate Valid()
      reads this
    {
      Consistent(docs)
    }

    constructor ()
      ensures Valid() && docs == []
    {
      docs := [];
    }

    /**
     * `User.create(...)`: build the document, validate it, run the hooks and
     * insert it. A validation failure and a taken email (the unique index)
     * insert nothing. `id` is the fresh `_id` the driver generates.
     */
    method Create(id: Id, username: Option<string>, email: Option<string>,
                  password: Option<string>, confirmPassword: Option<string>,
                  now: int, isEmail: string -> bool) returns (result: Result<User>)
      requires Valid() && IndexOf(docs, id).None?
      modifies this
      ensures Valid()
      ensures !UserValid(NewUser(username, email, password, confirmPassword), isEmail) ==>
        docs == old(docs) &&
        result == Fail(ValidationError("User", UserErrors(NewUser(username, email, password, confirmPassword), isEmail)))
      ensures UserValid(NewUser(username, email, password, confirmPassword), isEmail) ==> email.Some?
      ensures (UserValid(NewUser(username, email, password, confirmPassword), isEmail) &&
               FindByEmail(old(docs), email.value).Some?) ==>
        docs == old(docs) && result == Fail(DuplicateKey([ToLower(email.value)]))
      ensures (UserValid(NewUser(username, email, password, confirmPassword), isEmail) &&
               FindByEmail(old(docs), email.value).None?) ==>
        result.Ok? && fresh(result.value) && result.value.Valid() && result.value.id == id &&
        !result.value.isNew && result.value.modified == {} &&
        result.value.Data() == NewUser(username, email, password, confirmPassword).(
          password := Some(Bcrypt(password.value, HashCost)), confirmPassword := None) &&
        docs == old(docs) + [Doc(id, result.value.Data())]
    {
      var user := new User.New(id, username, email, password, confirmPassword);
      var errors := UserErrors(user.Data(), isEmail);
      if errors != [] {
        return Fail(ValidationError("User", errors));
      }
      var err := user.HashPassword();
      user.StampPasswordChange(now);
      if FindByEmail(docs, email.value).Some? {
        return Fail(DuplicateKey([user.email.value]));
      }
      ConsistentInsert(docs, Doc(id, user.Data()));
      docs := docs + [Doc(id, user.Data())];
      user.isNew := false;
      user.modified := {};
      result := Ok(user);
    }

    /**
     * `user.save()` on a loaded document: validate unless
     * `validateBeforeSave: false`, run the two hooks, then write the assigned
     * paths. A failure writes nothing.
     */
    method Save(user: User, validate: bool, now: int, isEmail: string -> bool) returns (err: Option<Err>)
      requires Valid() && user.Valid() && user.PasswordTyped() && !user.isNew
      requires IndexOf(docs, user.id).Some?
      modifies this, user
      ensures Valid() && user.Valid() && user.isNew == old(user.isNew)
      ensures validate && !UserValid(old(user.Data()), isEmail) ==>
        err == Some(ValidationError("User", UserErrors(old(user.Data()), isEmail))) &&
        docs == old(docs) && user.Data() == old(user.Data())
      ensures ((!validate || UserValid(old(user.Data()), isEmail)) &&
               PasswordPath in old(user.modified) && old(user.password).None?) ==>
        err.Some? && docs == old(docs)
      ensures ((!validate || UserValid(old(user.Data()), isEmail)) &&
               (PasswordPath in old(user.modified) ==> old(user.password).Some?)) ==>
        err.None? && user.modified == {} &&
        user.Data() == Hooked(old(user.Data()), old(user.modified), now) &&
        var i := IndexOf(old(docs), user.id).value;
        docs == old(docs)[i := Doc(user.id, Written(old(docs)[i].data, user.Data(), HookedPaths(old(user.modified))))]
    {
      if validate {
        var errors := UserErrors(user.Data(), isEmail);
        if errors != [] {
          return Some(ValidationError("User", errors));
        }
      }
      ghost var paths := user.modified;
      err := user.HashPassword();
      if err.Some? {
        return;
      }
      user.StampPasswordChange(now);
      var i := IndexOf(docs, user.id).value;
      var record := Written(docs[i].data, user.Data(), user.modified);
      assert user.modified == HookedPaths(paths);
      WrittenAtRest(docs[i].data, user.Data(), user.modified);
      docs := docs[i := Doc(user.id, record)];
      user.modified := {};
    }
  }

  /** A save keeps a stored record at rest: a written password is a fresh
      hash, a written confirmation is the dropped one, and the reset fields
      are written together with paired values. */
  lemma WrittenAtRest(stored: UserData, doc: UserData, paths: set<Path>)
    requires AtRest(stored)
    requires PasswordPath in paths ==> doc.password.Some? && doc.password.value.Bcrypt? && doc.password.value.cost == HashCost
    requires ConfirmPasswordPath in paths ==> doc.confirmPassword.None?
    requires ResetTokenPath in paths <==> ResetExpiresPath in paths
    requires doc.passwordResetToken.Some? <==> doc.passwordResetTokenExpiresAt.Some?
    ensures AtRest(Written(stored, doc, paths))
  {
  }
}
