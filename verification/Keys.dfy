/** The state keys of sessions and their subagents. */
module Keys {
  const NUL := '\0'

  function AgentKey(session: string, agent: string): string {
    if agent == "" then session else session + [NUL] + agent
  }

  /** The test endSession and readFilesSnapshot apply to a key. */
  predicate OwnedBy(key: string, session: string) {
    key == session || session + [NUL] <= key
  }

  predicate NulFree(s: string) { NUL !in s }

  /** What a key says before its first NUL. */
  function Head(key: string): string {
    if key == "" || key[0] == NUL then "" else [key[0]] + Head(key[1..])
  }

  lemma {:induction false} HeadOf(session: string, rest: string)
    requires NulFree(session) && (rest == "" || rest[0] == NUL)
    ensures Head(session + rest) == session
  {
    if session == "" {
      assert session + rest == rest;
    } else {
      assert (session + rest)[1..] == session[1..] + rest;
      HeadOf(session[1..], rest);
    }
  }

  lemma {:induction false} HeadCuts(key: string)
    ensures Head(key) <= key && (Head(key) == key || Head(key) + [NUL] <= key)
  {
    if key != "" && key[0] != NUL { HeadCuts(key[1..]); }
  }

  lemma OwnedIsHead(key: string, session: string)
    requires NulFree(session)
    ensures OwnedBy(key, session) <==> Head(key) == session
  {
    HeadCuts(key);
    if OwnedBy(key, session) {
      assert key == session + key[|session|..];
      HeadOf(session, key[|session|..]);
    }
  }

  /** A key of one session is never claimed for another, even when one id is a
      prefix of the other. */
  lemma KeyBelongs(session: string, agent: string, other: string)
    requires '\0' !in session && '\0' !in other
    ensures OwnedBy(AgentKey(session, agent), other) <==> session == other
  {
    var rest := if agent == "" then "" else [NUL] + agent;
    assert AgentKey(session, agent) == session + rest;
    HeadOf(session, rest);
    OwnedIsHead(AgentKey(session, agent), other);
  }

  lemma AgentKeyInjective(session: string, agent: string, session': string, agent': string)
    requires '\0' !in session && '\0' !in session'
    requires AgentKey(session, agent) == AgentKey(session', agent')
    ensures session == session' && agent == agent'
  {
    KeyBelongs(session, agent, session');
    KeyBelongs(session', agent', session');
    if agent != "" && agent' != "" {
      assert agent == AgentKey(session, agent)[|session| + 1..];
    }
  }

  /** Without the NUL hypothesis: two different sessions share a key exactly when
      one id extends the other by a NUL. */
  lemma SessionsCollide(s: string, t: string)
    requires s != t
    ensures (exists a, b :: AgentKey(s, a) == AgentKey(t, b)) <==> s + ['\0'] <= t || t + ['\0'] <= s
  {
    if s + [NUL] <= t { Collision(s, t); }
    if t + [NUL] <= s { Collision(t, s); }
    if a, b :| AgentKey(s, a) == AgentKey(t, b) {
      var key := AgentKey(s, a);
      assert s <= key && t <= key;
      if |s| < |t| {
        assert s + [NUL] == key[..|s| + 1] == t[..|s| + 1];
      } else if |t| < |s| {
        assert t + [NUL] == key[..|t| + 1] == s[..|t| + 1];
      }
    }
  }

  lemma Collision(s: string, t: string)
    requires s + [NUL] <= t
    ensures exists a, b :: AgentKey(s, a) == AgentKey(t, b) && AgentKey(t, b) == AgentKey(s, a)
  {
    var rest := t[|s| + 1..];
    assert t == s + [NUL] + rest;
    assert AgentKey(s, rest + [NUL] + "z") == AgentKey(t, "z");
  }
}
