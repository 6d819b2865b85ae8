/** Session tokens: who each one speaks for, and until when. */
module Sessions {
  import opened Text

  /** Clock readings are nanoseconds of a clock that never goes back. */
  type Time = int

  const TTL: Time := 24 * 60 * 60 * 1_000_000_000

  datatype Session = Session(user: string, ip: string, port: string, expires: Time)

  type Table = map<string, Session>

  /** The session a token stands for now. */
  function Valid(t: Table, token: string, now: Time): Option<Session> {
    if token != "" && token in t && now < t[token].expires then Some(t[token]) else None
  }

  /** What looking a token up leaves behind: an expired entry goes. */
  function AfterLookup(t: Table, token: string, now: Time): Table {
    if token != "" && token in t && now >= t[token].expires then t - {token} else t
  }

  class SessionManager {
    var sessions: Table

    constructor ()
      ensures sessions == map[]
    {
      sessions := map[];
    }

    /** `random` is what the entropy source returned, "" when it failed. */
    method Create(username: string, ip: string, port: string, random: string, now: Time) returns (token: string)
      modifies this
      ensures token == random
      ensures sessions == if random == "" then old(sessions)
                          else old(sessions)[random := Session(username, ip, port, now + TTL)]
    {
      token := random;
      if token == "" {
        return;
      }
      sessions := sessions[token := Session(username, ip, port, now + TTL)];
    }

    method Lookup(token: string, now: Time) returns (found: Option<Session>)
      modifies this
      ensures found == Valid(old(sessions), token, now)
      ensures sessions == AfterLookup(old(sessions), token, now)
    {
      if token == "" || token !in sessions {
        return None;
      }
      if now >= sessions[token].expires {
        sessions := sessions - {token};
        return None;
      }
      found := Some(sessions[token]);
    }

    method UsernameFor(token: string, now: Time) returns (user: Option<string>)
      modifies this
      ensures user == (match Valid(old(sessions), token, now) case Some(s) => Some(s.user) case None => None)
      ensures sessions == AfterLookup(old(sessions), token, now)
    {
      var s := Lookup(token, now);
      user := if s.Some? then Some(s.value.user) else None;
    }

    /** Revokes one token, expired or not, and says whose it was. */
    method Destroy(token: string) returns (user: string)
      modifies this
      ensures user == if token in old(sessions) then old(sessions)[token].user else ""
      ensures sessions == old(sessions) - {token}
    {
      if token !in sessions {
        return "";
      }
      user := sessions[token].user;
      sessions := sessions - {token};
    }

    /** Revokes every token of a user and no other. */
    method DestroyAllFor(username: string)
      modifies this
      ensures sessions == map t | t in old(sessions) && old(sessions)[t].user != username :: old(sessions)[t]
    {
      var rest := sessions.Keys;
      while rest != {}
        invariant rest <= sessions.Keys
        invariant sessions == map t | t in old(sessions) && (t in rest || old(sessions)[t].user != username) ::
                              old(sessions)[t]
        decreases rest
      {
        var t :| t in rest;
        rest := rest - {t};
        if sessions[t].user == username {
          sessions := sessions - {t};
        }
      }
    }
  }
}
