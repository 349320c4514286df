/** The single admin identity: a username and a salted password hash, with
    login, change-password and reset-to-default. */
module Credentials {
  import opened Js
  import opened Http

  /** PBKDF2 parameters: SHA-512, 100000 iterations, a 64-byte key written
      as hex, and a 16-byte random salt written as hex. */
  const KeyLength := 64
  const SaltLength := 16

  /** A derived key as the source stores it: 2 * KeyLength hex characters. */
  type Digest = s: string | |s| == 2 * KeyLength witness seq(2 * KeyLength, _ => '0')

  /** A freshly generated salt: 2 * SaltLength hex characters. */
  type Salt = s: string | |s| == 2 * SaltLength witness seq(2 * SaltLength, _ => '0')

  /** The key derivation, deterministic in (password, salt). */
  type Kdf = (string, string) -> Digest

  /** The stored record. The username is compared with `===`, so a username
      missing from the persisted JSON (`None`) differs from an empty one; the
      salt and the hash are only ever tested for truthiness, so a missing one
      reads as "". */
  datatype CredentialRecord = CredentialRecord(username: Option<string>, salt: string, hash: string)

  /** The claims a successful login signs into its token; an undefined
      username is left out of the token (`None`). */
  datatype Claims = Claims(role: string, username: Option<string>)

  const MinPasswordLength := 8

  const InvalidCredentials := Failure(401, "Invalid credentials")
  const PasswordsRequired := Failure(400, "oldPassword and newPassword required")
  const OldPasswordIncorrect := Failure(401, "Old password incorrect")
  const PasswordTooShort := Failure(400, "New password must be at least 8 characters")
  const PasswordUnchanged := Failure(400, "New password must differ from old password")
  const InvalidUsername := Failure(400, "Invalid username")

  /** A record that has both a salt and a hash. */
  predicate HasHash(record: CredentialRecord) {
    record.salt != "" && record.hash != ""
  }

  /** verifyPassword: false for a record without salt or hash; otherwise the
      password's derived key under the stored salt equals the stored hash. */
  predicate VerifyPassword(kdf: Kdf, password: string, record: CredentialRecord) {
    HasHash(record) && kdf(password, record.salt) == record.hash
  }

  /** The record `{ username, ...hashPassword(password) }` with `salt` drawn
      at random. */
  function HashPassword(kdf: Kdf, username: Option<string>, password: string, salt: Salt): (r: CredentialRecord)
    ensures r.username == username && r.salt == salt
    ensures VerifyPassword(kdf, password, r)
  {
    CredentialRecord(username, salt, kdf(password, salt))
  }

  /** POST /api/admin/login. An absent password reaches the key derivation
      only when the record has a salt and a hash, and there it throws. */
  function Login(kdf: Kdf, creds: CredentialRecord, username: Option<string>, password: Option<string>): (r: Result<Claims>)
    ensures r.Ok? <==> username == creds.username && password.Some? && VerifyPassword(kdf, password.value, creds)
    ensures r.Ok? ==> r.value == Claims("admin", creds.username)
    ensures r == Err(Crash) <==> username == creds.username && password.None? && HasHash(creds)
    ensures r.Err? && r != Err(Crash) ==> r == Err(InvalidCredentials)
  {
    if username != creds.username || !HasHash(creds) then Err(InvalidCredentials)
    else if password.None? then Err(Crash)
    else if VerifyPassword(kdf, password.value, creds) then Ok(Claims("admin", username))
    else Err(InvalidCredentials)
  }

  /** POST /api/admin/change-password, after authentication: both fields
      present, then the old password verifies, then the new one is long
      enough, then it differs from the old one; the username is kept. */
  function ChangePassword(kdf: Kdf, creds: CredentialRecord, oldPassword: Option<string>,
                          newPassword: Option<string>, salt: Salt): (r: Result<CredentialRecord>)
    ensures r == Err(PasswordsRequired) <==> !Truthy(oldPassword) || !Truthy(newPassword)
    ensures r == Err(OldPasswordIncorrect) <==>
      Truthy(oldPassword) && Truthy(newPassword) && !VerifyPassword(kdf, oldPassword.value, creds)
    ensures r == Err(PasswordTooShort) <==>
      Truthy(oldPassword) && Truthy(newPassword) && VerifyPassword(kdf, oldPassword.value, creds)
      && |newPassword.value| < MinPasswordLength
    ensures r == Err(PasswordUnchanged) <==>
      Truthy(oldPassword) && Truthy(newPassword) && VerifyPassword(kdf, oldPassword.value, creds)
      && |newPassword.value| >= MinPasswordLength && oldPassword.value == newPassword.value
    ensures r.Ok? <==>
      Truthy(oldPassword) && Truthy(newPassword) && VerifyPassword(kdf, oldPassword.value, creds)
      && |newPassword.value| >= MinPasswordLength && oldPassword.value != newPassword.value
    ensures r.Ok? ==> r.value.username == creds.username && r.value.salt == salt
                      && VerifyPassword(kdf, newPassword.value, r.value)
  {
    if !Truthy(oldPassword) || !Truthy(newPassword) then Err(PasswordsRequired)
    else if !VerifyPassword(kdf, oldPassword.value, creds) then Err(OldPasswordIncorrect)
    else if |newPassword.value| < MinPasswordLength then Err(PasswordTooShort)
    else if oldPassword.value == newPassword.value then Err(PasswordUnchanged)
    else Ok(HashPassword(kdf, creds.username, newPassword.value, salt))
  }

  /** POST /api/admin/reset-password, which needs no authentication: a
      matching username restores the configured default password. */
  function ResetPassword(kdf: Kdf, creds: CredentialRecord, username: Option<string>,
                         defaultPassword: string, salt: Salt): (r: Result<CredentialRecord>)
    ensures r.Ok? <==> Truthy(username) && Some(username.value) == creds.username
    ensures r.Err? ==> r.failure == InvalidUsername
    ensures r.Ok? ==> r.value.username == creds.username && r.value.salt == salt
                      && VerifyPassword(kdf, defaultPassword, r.value)
  {
    if !Truthy(username) || Some(username.value) != creds.username then Err(InvalidUsername)
    else Ok(HashPassword(kdf, creds.username, defaultPassword, salt))
  }

  /** A record without a salt or a hash verifies no password, so nobody can
      log in against it. */
  lemma UnhashedRecordRejects(kdf: Kdf, creds: CredentialRecord, password: string)
    requires !HasHash(creds)
    ensures !VerifyPassword(kdf, password, creds)
    ensures Login(kdf, creds, creds.username, Some(password)) == Err(InvalidCredentials)
  {
  }

  /** After a successful change, logging in with the same username and the
      new password succeeds. */
  lemma LoginAfterChange(kdf: Kdf, creds: CredentialRecord, oldPassword: Option<string>,
                         newPassword: Option<string>, salt: Salt)
    requires ChangePassword(kdf, creds, oldPassword, newPassword, salt).Ok?
    ensures Login(kdf, ChangePassword(kdf, creds, oldPassword, newPassword, salt).value,
                  creds.username, newPassword) == Ok(Claims("admin", creds.username))
  {
  }

  /** After a successful change the old password still logs in only if it
      derives the same key as the new one under the new salt: a collision. */
  lemma OldPasswordRevoked(kdf: Kdf, creds: CredentialRecord, oldPassword: Option<string>,
                           newPassword: Option<string>, salt: Salt)
    requires ChangePassword(kdf, creds, oldPassword, newPassword, salt).Ok?
    ensures var updated := ChangePassword(kdf, creds, oldPassword, newPassword, salt).value;
            Login(kdf, updated, creds.username, oldPassword).Ok?
            <==> kdf(oldPassword.value, salt) == kdf(newPassword.value, salt)
  {
  }

  /** After a reset, the default password logs in under the stored username. */
  lemma LoginAfterReset(kdf: Kdf, creds: CredentialRecord, username: Option<string>,
                        defaultPassword: string, salt: Salt)
    requires ResetPassword(kdf, creds, username, defaultPassword, salt).Ok?
    ensures Login(kdf, ResetPassword(kdf, creds, username, defaultPassword, salt).value,
                  username, Some(defaultPassword)) == Ok(Claims("admin", creds.username))
  {
  }
}
