/**
 Passkey enrollment, one function per transaction. There are two doors: a session
 marked by a low-risk login, and an activation code with the user's password.
 */
module Enrollment {
  import opened Wrappers
  import opened Models
  import opened Login

  // ------------------------------------------------------------- the code as typed

  function UpperChar(c: char): char { if 'a' <= c <= 'z' then (c as int - 32) as char else c }

  predicate Alphanumeric(c: char) { '0' <= c <= '9' || 'A' <= c <= 'Z' || 'a' <= c <= 'z' }

  function NormaliseCode(code: string): string {
    if code == "" then ""
    else (if Alphanumeric(code[0]) then [UpperChar(code[0])] else "") + NormaliseCode(code[1..])
  }

  function HashCode(o: Oracles, code: string): string { o.hash(NormaliseCode(code)) }

  /** How a code was typed does not matter: case, spaces and dashes anywhere. */
  predicate TypedAs(typed: string, code: string)
    decreases |typed|
  {
    if typed == "" then code == ""
    else if Alphanumeric(typed[0]) then code != "" && UpperChar(typed[0]) == code[0] && TypedAs(typed[1..], code[1..])
    else TypedAs(typed[1..], code)
  }

  lemma {:induction false} TypingDoesNotMatter(typed: string, code: string)
    ensures TypedAs(typed, code) <==> NormaliseCode(typed) == code
    decreases |typed|
  {
    if typed != "" {
      if Alphanumeric(typed[0]) {
        if code != "" {
          TypingDoesNotMatter(typed[1..], code[1..]);
          assert code == [code[0]] + code[1..];
          assert NormaliseCode(typed)[1..] == NormaliseCode(typed[1..]);
        }
      } else {
        TypingDoesNotMatter(typed[1..], code);
      }
    }
  }

  lemma {:induction false} NormalisingTwice(code: string)
    ensures NormaliseCode(NormaliseCode(code)) == NormaliseCode(code)
    decreases |code|
  {
    if code != "" {
      NormalisingTwice(code[1..]);
      if Alphanumeric(code[0]) {
        var n := NormaliseCode(code);
        assert n[0] == UpperChar(code[0]) && n[1..] == NormaliseCode(code[1..]);
      } else {
        assert NormaliseCode(code) == NormaliseCode(code[1..]);
      }
    }
  }

  // ------------------------------------------------------------- storing a passkey

  /** Refused when it cannot be verified, and when its id is registered, to anyone. */
  function WithCredential(o: Oracles, credentials: map<Id, Credential>, user: Id, nonce: Bytes, answer: Assertion): Result<map<Id, Credential>> {
    var made := o.verifyCreate(answer, nonce);
    if made.None? then Err(400, "passkey could not be verified")
    else if made.value.id in credentials then Err(409, "passkey already registered")
    else Ok(credentials[made.value.id := Credential(user, made.value.publicKey, made.value.signCount)])
  }

  // ------------------------------------------------------------- after a low-risk login

  predicate MayEnroll(sessions: map<string, Session>, h: string, now: Time) {
    Live(sessions, h, now) && sessions[h].enrollUntil.Some? && now < sessions[h].enrollUntil.value
  }

  function EnrollingSession(o: Oracles, s: Store, raw: Option<string>, now: Time): Result<string> {
    if raw.None? || !Live(s.auth.sessions, o.hash(raw.value), now) then Err(401, "missing or expired session")
    else if !MayEnroll(s.auth.sessions, o.hash(raw.value), now) then Err(403, "this session may not enroll a passkey")
    else Ok(o.hash(raw.value))
  }

  /** A user who has a passkey by now is refused; the refusal undoes the closing of the window. */
  function SessionOptions(o: Oracles, s: Store, raw: Option<string>, now: Time, nonce: Bytes): (Store, Result<Id>) {
    var found := EnrollingSession(o, s, raw, now);
    if found.Err? then (s, found.PropagateFailure())
    else
      var row := s.auth.sessions[found.value];
      if row.user !in s.dir.users || !s.dir.users[row.user].enabled then (s, Err(401, "missing or expired session"))
      else if HasPasskey(s.auth.credentials, row.user) then (s, Err(403, "this session may not enroll a passkey"))
      else (s.(auth := s.auth.(sessions := s.auth.sessions[found.value := row.(nonce := Some(nonce))])), Ok(row.user))
  }

  /** Does not ask again whether the user has a passkey. */
  function SessionVerify(o: Oracles, s: Store, raw: Option<string>, answer: Assertion, now: Time): (Store, Result<()>) {
    var found := EnrollingSession(o, s, raw, now);
    if found.Err? then (s, found.PropagateFailure())
    else
      var row := s.auth.sessions[found.value];
      if row.nonce.None? then (s, Err(400, "no enrollment in progress"))
      else
        match WithCredential(o, s.auth.credentials, row.user, row.nonce.value, answer)
        case Err(status, detail) => (s, Err(status, detail))
        case Ok(credentials) =>
          (s.(auth := s.auth.(credentials := credentials,
             sessions := s.auth.sessions[found.value := row.(enrollUntil := None, nonce := None)])), Ok(()))
  }

  // ------------------------------------------------------------- with an activation code

  const INVALID_CODE := "invalid or expired code"

  predicate OpenCode(activations: map<string, ActivationCode>, k: string, now: Time) {
    k in activations && activations[k].consumedAt.None? && now < activations[k].expiresAt
  }

  /** The code is good and the password is its user's. */
  predicate Unlocks(o: Oracles, s: Store, k: string, password: string, now: Time) {
    && OpenCode(s.auth.activations, k, now)
    && s.auth.activations[k].user in s.dir.users && s.dir.users[s.auth.activations[k].user].enabled
    && PasswordOk(o, password, Some(s.dir.users[s.auth.activations[k].user].passwordHash))
  }

  function ActivationOptions(o: Oracles, s: Store, code: string, password: string, now: Time, nonce: Bytes): (Store, Result<Id>) {
    var k := HashCode(o, code);
    if !Unlocks(o, s, k, password, now) then (s, Err(400, INVALID_CODE))
    else
      var row := s.auth.activations[k];
      (s.(auth := s.auth.(activations := s.auth.activations[k := row.(nonce := Some(nonce))])), Ok(row.user))
  }

  function ActivationVerify(o: Oracles, s: Store, code: string, answer: Assertion, now: Time): (Store, Result<()>) {
    var k := HashCode(o, code);
    if !OpenCode(s.auth.activations, k, now) || s.auth.activations[k].nonce.None? then (s, Err(400, INVALID_CODE))
    else
      var row := s.auth.activations[k];
      match WithCredential(o, s.auth.credentials, row.user, row.nonce.value, answer)
      case Err(status, detail) => (s, Err(status, detail))
      case Ok(credentials) =>
        (s.(auth := s.auth.(credentials := credentials, activations := s.auth.activations[k := row.(consumedAt := Some(now))])), Ok(()))
  }
}
