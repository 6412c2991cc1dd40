/** The enrollment service on the database, each method one transaction. */
module EnrollmentService {
  import opened Wrappers
  import opened Models
  import opened Login
  import opened Enrollment
  import opened Database

  class EnrollmentService {
    const db: Tables
    const o: Oracles

    constructor (db: Tables, o: Oracles)
      ensures this.db == db && this.o == o
    {
      this.db, this.o := db, o;
    }

    method EnrollingSession(raw: Option<string>, now: Time) returns (r: Result<string>)
      ensures r == Enrollment.EnrollingSession(o, db.Snapshot(), raw, now)
    {
      if raw.None? {
        return Err(401, "missing or expired session");
      }
      var h := Hash(o, raw.value);
      if h !in db.sessions || db.sessions[h].expiresAt <= now {
        return Err(401, "missing or expired session");
      }
      if db.sessions[h].enrollUntil.None? || db.sessions[h].enrollUntil.value <= now {
        return Err(403, "this session may not enroll a passkey");
      }
      r := Ok(h);
    }

    /** A user with a passkey by now: the window is closed and the request refused, which opens it again. */
    method SessionOptions(raw: Option<string>, now: Time, nonce: Bytes) returns (r: Result<Id>)
      modifies db
      ensures (db.Snapshot(), r) == Enrollment.SessionOptions(o, old(db.Snapshot()), raw, now, nonce)
    {
      var saved := db.Snapshot();
      var h := EnrollingSession(raw, now);
      if h.Err? {
        return h.PropagateFailure();
      }
      var row := db.sessions[h.value];
      if row.user !in db.users || !db.users[row.user].enabled {
        return Err(401, "missing or expired session");
      }
      if HasPasskey(db.credentials, row.user) {
        db.sessions := db.sessions[h.value := row.(enrollUntil := None)];
        db.Rollback(saved);
        return Err(403, "this session may not enroll a passkey");
      }
      db.sessions := db.sessions[h.value := row.(nonce := Some(nonce))];
      r := Ok(row.user);
    }

    method StoreCredential(user: Id, nonce: Bytes, answer: Assertion) returns (r: Result<()>)
      modifies db`credentials
      ensures var x := WithCredential(o, old(db.credentials), user, nonce, answer);
        if x.Err? then r == Err(x.status, x.detail) && db.credentials == old(db.credentials)
        else r == Ok(()) && db.credentials == x.value
    {
      var made := o.verifyCreate(answer, nonce);
      if made.None? {
        return Err(400, "passkey could not be verified");
      }
      if made.value.id in db.credentials {
        return Err(409, "passkey already registered");
      }
      db.credentials := db.credentials[made.value.id := Credential(user, made.value.publicKey, made.value.signCount)];
      r := Ok(());
    }

    method SessionVerify(raw: Option<string>, answer: Assertion, now: Time) returns (r: Result<()>)
      modifies db
      ensures (db.Snapshot(), r) == Enrollment.SessionVerify(o, old(db.Snapshot()), raw, answer, now)
    {
      hide WithCredential;
      var h := EnrollingSession(raw, now);
      if h.Err? {
        return h.PropagateFailure();
      }
      var row := db.sessions[h.value];
      if row.nonce.None? {
        return Err(400, "no enrollment in progress");
      }
      var stored := StoreCredential(row.user, row.nonce.value, answer);
      if stored.Err? {
        return stored;
      }
      db.sessions := db.sessions[h.value := row.(enrollUntil := None, nonce := None)];
      r := Ok(());
    }

    method ActivationOptions(code: string, password: string, now: Time, nonce: Bytes) returns (r: Result<Id>)
      modifies db
      ensures (db.Snapshot(), r) == Enrollment.ActivationOptions(o, old(db.Snapshot()), code, password, now, nonce)
    {
      var k := HashCode(o, code);
      if !OpenCode(db.activations, k, now) || db.activations[k].user !in db.users || !db.users[db.activations[k].user].enabled {
        return Err(400, INVALID_CODE);
      }
      var row := db.activations[k];
      if !PasswordOk(o, password, Some(db.users[row.user].passwordHash)) {
        return Err(400, INVALID_CODE);
      }
      db.activations := db.activations[k := row.(nonce := Some(nonce))];
      r := Ok(row.user);
    }

    method ActivationVerify(code: string, answer: Assertion, now: Time) returns (r: Result<()>)
      modifies db
      ensures (db.Snapshot(), r) == Enrollment.ActivationVerify(o, old(db.Snapshot()), code, answer, now)
    {
      hide WithCredential, HashCode;
      var k := HashCode(o, code);
      if !OpenCode(db.activations, k, now) || db.activations[k].nonce.None? {
        return Err(400, INVALID_CODE);
      }
      var row := db.activations[k];
      var stored := StoreCredential(row.user, row.nonce.value, answer);
      if stored.Err? {
        return stored;
      }
      db.activations := db.activations[k := row.(consumedAt := Some(now))];
      r := Ok(());
    }
  }
}
