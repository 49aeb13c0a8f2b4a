/**
 * The request validation at the top of the signup handler: three guards, checked in
 * order, each of which ends the request with a 400 plain-text response. A request that
 * passes all three has both form fields narrowed to strings.
 */
module Validation {
  import opened Utf16

  /**
   * What `FormData.get` yields for a field: nothing (`null`), a string, or a
   * non-string entry (an uploaded `File`).
   */
  datatype FormValue = Absent | Text(value: string) | FileEntry

  datatype Credentials = Credentials(username: string, password: string)

  /** The three early returns, in the order the handler tests them. */
  datatype Rejection = MissingCredentials | UsernameTooShort | PasswordTooShort

  datatype Result<T, E> = Ok(value: T) | Err(error: E)

  const MIN_USERNAME_LENGTH := 3
  const MIN_PASSWORD_LENGTH := 6
  const REJECTION_STATUS := 400

  /** The body of the 400 response for each rejection, verbatim. */
  function Message(r: Rejection): string {
    match r
    case MissingCredentials => "Username y Password son requeridos."
    case UsernameTooShort => "El username tiene que tener al menos 3 letras"
    case PasswordTooShort => "El password tiene que tener al menos 4 letras"
  }

  /**
   * JavaScript falsiness of a form value: `null` and the empty string are falsy; a
   * `File` is an object and therefore truthy, whatever its size.
   */
  predicate IsFalsy(v: FormValue) {
    v.Absent? || v == Text("")
  }

  /** `typeof v === 'string' && v.length >= 3`, the negation of the second guard. */
  predicate UsernameAcceptable(v: FormValue) {
    v.Text? && JsLength(v.value) >= MIN_USERNAME_LENGTH
  }

  /** `typeof v === 'string' && v.length >= 6`, the negation of the third guard. */
  predicate PasswordAcceptable(v: FormValue) {
    v.Text? && JsLength(v.value) >= MIN_PASSWORD_LENGTH
  }

  /**
   * The guards of the handler. A request is accepted exactly when both fields are
   * strings of at least 3 and 6 code units (the presence check adds no condition of its
   * own), and then the credentials are the submitted strings unchanged. A rejected
   * request carries the first failing guard in the order presence, username, password.
   */
  function Validate(username: FormValue, password: FormValue): (r: Result<Credentials, Rejection>)
    ensures r.Ok? <==> UsernameAcceptable(username) && PasswordAcceptable(password)
    ensures r.Ok? ==> r.value == Credentials(username.value, password.value)
    ensures r == Err(MissingCredentials) <==> IsFalsy(username) || IsFalsy(password)
    ensures r == Err(UsernameTooShort) <==>
      !IsFalsy(username) && !IsFalsy(password) && !UsernameAcceptable(username)
    ensures r == Err(PasswordTooShort) <==>
      !IsFalsy(username) && !IsFalsy(password) && UsernameAcceptable(username) &&
      !PasswordAcceptable(password)
  {
    if IsFalsy(username) || IsFalsy(password) then
      Err(MissingCredentials)
    else if !username.Text? || JsLength(username.value) < MIN_USERNAME_LENGTH then
      Err(UsernameTooShort)
    else if !password.Text? || JsLength(password.value) < MIN_PASSWORD_LENGTH then
      Err(PasswordTooShort)
    else
      Ok(Credentials(username.value, password.value))
  }

  /** The minimum lengths are inclusive: 3 and 6 code units are enough. */
  lemma BoundaryLengthsAccepted()
    ensures Validate(Text("abc"), Text("abcdef")) == Ok(Credentials("abc", "abcdef"))
  {
  }

  /** One code unit below either minimum is rejected, with that field's message. */
  lemma BelowBoundaryRejected()
    ensures Validate(Text("ab"), Text("abcdef")) == Err(UsernameTooShort)
    ensures Validate(Text("abc"), Text("abcde")) == Err(PasswordTooShort)
  {
  }

  /** A field that fails several guards reports the earliest one. */
  lemma FirstFailingGuardWins()
    ensures Validate(Text("ab"), Absent) == Err(MissingCredentials)
    ensures Validate(FileEntry, Text("")) == Err(MissingCredentials)
    ensures Validate(Text("ab"), FileEntry) == Err(UsernameTooShort)
    ensures Validate(FileEntry, Text("a")) == Err(UsernameTooShort)
  {
  }

  /**
   * A `File` passes the presence guard (it is truthy) and then fails the type test of
   * its own field's guard, so it gets that field's length message.
   */
  lemma FileEntryGetsLengthMessage(username: FormValue, password: FormValue)
    ensures !IsFalsy(password) ==> Validate(FileEntry, password) == Err(UsernameTooShort)
    ensures UsernameAcceptable(username) ==> Validate(username, FileEntry) == Err(PasswordTooShort)
  {
  }

  /**
   * The password message claims a minimum of 4 letters while the guard demands 6 code
   * units: a 5-letter password meets the stated minimum and is still turned away with
   * that very message.
   */
  lemma PasswordMessageUnderstatesMinimum()
    ensures var r := Validate(Text("alice"), Text("abcde"));
      r == Err(PasswordTooShort) && Message(r.error)[37] == '4' && JsLength("abcde") == 5
  {
  }

  /**
   * For text in the Basic Multilingual Plane (all ASCII text, for one) the limits are
   * character counts: at least 3 and 6 characters.
   */
  lemma BmpTextLimitsAreCharacterCounts(u: string, p: string)
    requires forall i | 0 <= i < |u| :: InBmp(u[i])
    requires forall i | 0 <= i < |p| :: InBmp(p[i])
    ensures Validate(Text(u), Text(p)).Ok? <==> |u| >= 3 && |p| >= 6
  {
  }

  /**
   * The limits count UTF-16 code units, not letters: a username of two characters,
   * one of them outside the Basic Multilingual Plane, has length 3 and is accepted.
   */
  lemma AstralCharacterCountsTwice()
    ensures |"a\U{1F600}"| == 2 && JsLength("a\U{1F600}") == 3
    ensures Validate(Text("a\U{1F600}"), Text("abcdef")).Ok?
  {
  }

  /**
   * The guards set only lower bounds: extending an accepted username or password with
   * more text never turns the request into a rejected one.
   */
  lemma LongerCredentialsStayAccepted(u: string, p: string, moreU: string, moreP: string)
    requires Validate(Text(u), Text(p)).Ok?
    ensures Validate(Text(u + moreU), Text(p + moreP)) == Ok(Credentials(u + moreU, p + moreP))
  {
    JsLengthAppend(u, moreU);
    JsLengthAppend(p, moreP);
  }
}
