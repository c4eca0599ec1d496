/** The daemon's in-memory table: every method runs under the table's mutex, so
    its whole effect is one operation on the table as a value. */
module DaemonState {
  import opened Wrappers
  import opened Keys
  import opened Sessions
  import Ordering

  class State {
    var sessions: Table

    constructor ()
      ensures sessions == map[] == Run([])
    {
      sessions := map[];
    }

    method GetOrCreate(key: string) returns (s: Session)
      modifies this
      ensures sessions == old(sessions)[key := At(old(sessions), key)]
      ensures s == At(old(sessions), key)
    {
      if key !in sessions {
        sessions := sessions[key := FRESH];
      }
      s := sessions[key];
    }

    method NoteBashCommand(key: string, command: string, retryKey: string, now: int) returns (repeat: bool, count: nat)
      modifies this
      ensures sessions == After(old(sessions), NoteBash(key, command, retryKey, now))
      ensures Reply(At(old(sessions), key), NoteBash(key, command, retryKey, now)) == Retry(repeat, count)
    {
      var s := GetOrCreate(key);
      var b := s.bash;
      repeat := b.lastCommand != "" && b.lastCommand == command && now - b.lastAt <= REPEAT_WINDOW;
      b := b.(lastCommand := command, lastAt := now);
      if retryKey != "" && retryKey == b.lastRetryKey {
        b := b.(retryCount := b.retryCount + 1);
      } else if retryKey != "" {
        b := b.(retryCount := 1);
      } else {
        b := b.(retryCount := 0);
      }
      b := b.(lastRetryKey := retryKey);
      count := b.retryCount;
      sessions := sessions[key := s.(bash := b)];
    }

    method ClearLastBash(key: string)
      modifies this
      ensures sessions == After(old(sessions), ClearBash(key))
    {
      var s := GetOrCreate(key);
      sessions := sessions[key := s.(bash := s.bash.(lastCommand := "", lastRetryKey := "", retryCount := 0))];
    }

    method NoteExploreTool(key: string)
      modifies this
      ensures sessions == After(old(sessions), NoteExplore(key))
    {
      var s := GetOrCreate(key);
      sessions := sessions[key := s.(exploreStreak := s.exploreStreak + 1)];
    }

    method ResetExploreStreak(key: string)
      modifies this
      ensures sessions == After(old(sessions), ResetExplore(key))
    {
      var s := GetOrCreate(key);
      sessions := sessions[key := s.(exploreStreak := 0)];
    }

    method ExploreStreakFor(key: string) returns (n: nat)
      modifies this
      ensures sessions == old(sessions)[key := At(old(sessions), key)]
      ensures n == At(old(sessions), key).exploreStreak
    {
      var s := GetOrCreate(key);
      n := s.exploreStreak;
    }

    method NoteArrivalBytes(key: string, n: nat)
      modifies this
      ensures sessions == After(old(sessions), NoteArrival(key, n))
    {
      var s := GetOrCreate(key);
      sessions := sessions[key := s.(arrivals := s.arrivals.(bytes := s.arrivals.bytes + n))];
    }

    method ShouldAdviseCompact(key: string, threshold: nat) returns (bytes: nat, advise: bool)
      modifies this
      ensures sessions == After(old(sessions), AdviseCompact(key, threshold))
      ensures Reply(At(old(sessions), key), AdviseCompact(key, threshold)) == Arrived(bytes, advise)
    {
      var s := GetOrCreate(key);
      if s.arrivals.advised || s.arrivals.bytes < threshold {
        return 0, false;
      }
      sessions := sessions[key := s.(arrivals := s.arrivals.(advised := true))];
      return s.arrivals.bytes, true;
    }

    method ResetArrivalTracking(key: string)
      modifies this
      ensures sessions == After(old(sessions), ResetArrival(key))
    {
      var s := GetOrCreate(key);
      sessions := sessions[key := s.(arrivals := Arrivals(0, false))];
    }

    method MarkFileRead(key: string, path: string, mtime: int) returns (unchangedRepeat: bool)
      modifies this
      ensures sessions == After(old(sessions), MarkRead(key, path, mtime))
      ensures Reply(At(old(sessions), key), MarkRead(key, path, mtime)) == Flag(unchangedRepeat)
    {
      var s := GetOrCreate(key);
      unchangedRepeat := path in s.readFiles && s.readFiles[path] == mtime;
      sessions := sessions[key := s.(readFiles := s.readFiles[path := mtime])];
    }

    method NoteWebFetch(key: string, url: string) returns (repeat: bool)
      modifies this
      ensures sessions == After(old(sessions), MarkFetched(key, url))
      ensures Reply(At(old(sessions), key), MarkFetched(key, url)) == Flag(repeat)
    {
      var s := GetOrCreate(key);
      repeat := url in s.fetched;
      sessions := sessions[key := s.(fetched := s.fetched + {url})];
    }

    method MarkSuggestedIfFirst(key: string, tag: string) returns (first: bool)
      modifies this
      ensures sessions == After(old(sessions), MarkSuggested(key, tag))
      ensures Reply(At(old(sessions), key), MarkSuggested(key, tag)) == Flag(first)
    {
      var s := GetOrCreate(key);
      if tag in s.suggested {
        assert s.suggested + {tag} == s.suggested;
        return false;
      }
      sessions := sessions[key := s.(suggested := s.suggested + {tag})];
      return true;
    }

    /** `saved` is what a rewrite record estimates it kept out of context. */
    method LogRecord(key: string, saved: Option<int>)
      modifies this
      ensures sessions == After(old(sessions), Log(key, saved))
    {
      if key != "" {
        var s := GetOrCreate(key);
        var l := s.ledger.(decisionCount := s.ledger.decisionCount + 1);
        if saved.Some? {
          l := l.(bytesSaved := l.bytesSaved + saved.value, rewriteCount := l.rewriteCount + 1);
        }
        sessions := sessions[key := s.(ledger := l)];
      }
    }

    method NewSavingsToShow(key: string) returns (bytesSaved: int, rewrites: nat, changed: bool)
      modifies this
      ensures sessions == After(old(sessions), ShowSavings(key))
      ensures Reply(At(old(sessions), key), ShowSavings(key)) == Shown(bytesSaved, rewrites, changed)
    {
      var s := GetOrCreate(key);
      if s.ledger.bytesSaved <= s.ledger.lastShown {
        return s.ledger.bytesSaved, s.ledger.rewriteCount, false;
      }
      sessions := sessions[key := s.(ledger := s.ledger.(lastShown := s.ledger.bytesSaved))];
      return s.ledger.bytesSaved, s.ledger.rewriteCount, true;
    }

    method NotePendingRewrite(key: string, command: string, rule: string)
      modifies this
      ensures sessions == After(old(sessions), NoteRewrite(key, command, rule))
    {
      var s := GetOrCreate(key);
      sessions := sessions[key := s.(pendingRewrites := s.pendingRewrites[command := rule])];
    }

    method ConsumePendingRewrite(key: string, command: string) returns (rule: string)
      modifies this
      ensures sessions == After(old(sessions), TakeRewrite(key, command))
      ensures Reply(At(old(sessions), key), TakeRewrite(key, command)) == Name(rule)
    {
      var s := GetOrCreate(key);
      rule := if command in s.pendingRewrites then s.pendingRewrites[command] else "";
      sessions := sessions[key := s.(pendingRewrites := s.pendingRewrites - {command})];
      assert s.pendingRewrites - {command} == Remove(s.pendingRewrites, command);
    }

    method NotePendingAgent(key: string, toolUse: string, model: string)
      modifies this
      ensures sessions == After(old(sessions), NoteAgent(key, toolUse, model))
    {
      if toolUse == "" {
        return;
      }
      var s := GetOrCreate(key);
      var pending := s.pendingAgents;
      if |pending| >= MAX_PENDING_AGENTS {
        pending := map[];
      }
      sessions := sessions[key := s.(pendingAgents := pending[toolUse := model])];
    }

    method ConsumePendingAgent(key: string, toolUse: string) returns (model: string)
      modifies this
      ensures sessions == After(old(sessions), TakeAgent(key, toolUse))
      ensures Reply(At(old(sessions), key), TakeAgent(key, toolUse)) == Name(model)
    {
      var s := GetOrCreate(key);
      model := if toolUse in s.pendingAgents then s.pendingAgents[toolUse] else "";
      sessions := sessions[key := s.(pendingAgents := s.pendingAgents - {toolUse})];
      assert s.pendingAgents - {toolUse} == Remove(s.pendingAgents, toolUse);
    }

    method SetLastRouting(key: string, routing: Routing)
      modifies this
      ensures sessions == After(old(sessions), SetRouting(key, routing))
    {
      var s := GetOrCreate(key);
      sessions := sessions[key := s.(lastRouting := Some(routing))];
    }

    method GetLastRouting(key: string) returns (routing: Option<Routing>)
      modifies this
      ensures sessions == old(sessions)[key := At(old(sessions), key)]
      ensures routing == At(old(sessions), key).lastRouting
    {
      var s := GetOrCreate(key);
      routing := s.lastRouting;
    }

    method ClearLastRouting(key: string)
      modifies this
      ensures sessions == After(old(sessions), ClearRouting(key))
    {
      var s := GetOrCreate(key);
      sessions := sessions[key := s.(lastRouting := None)];
    }

    method FinishAgent(session: string, agent: string)
      modifies this
      ensures sessions == After(old(sessions), EndAgent(session, agent))
    {
      if agent == "" {
        return;
      }
      sessions := sessions - {AgentKey(session, agent)};
      assert sessions == Remove(old(sessions), AgentKey(session, agent));
    }

    /** Deletes while walking the keys, in whatever order the map yields them. */
    method FinishSession(session: string)
      modifies this
      ensures sessions == After(old(sessions), EndSession(session))
    {
      var todo := sessions.Keys;
      while todo != {}
        invariant todo <= old(sessions).Keys
        invariant sessions == map k | k in old(sessions) && (k in todo || !OwnedBy(k, session)) :: old(sessions)[k]
        decreases |todo|
      {
        var key :| key in todo;
        if key == session || session + [NUL] <= key {
          sessions := sessions - {key};
        }
        todo := todo - {key};
      }
    }

    /** The files the session touched, any of its agents included, sorted. */
    method ReadFilesSnapshot(session: string) returns (paths: seq<string>)
      ensures Ordering.Ascending(paths)
      ensures forall p :: p in paths <==>
        exists key :: key in sessions && OwnedBy(key, session) && p in sessions[key].readFiles
    {
      var members: set<string> := {};
      var todo := sessions.Keys;
      while todo != {}
        invariant todo <= sessions.Keys
        invariant forall p :: p in members <==>
          exists key :: key in sessions && key !in todo && OwnedBy(key, session) && p in sessions[key].readFiles
        decreases |todo|
      {
        var key :| key in todo;
        if key == session || session + [NUL] <= key {
          members := members + sessions[key].readFiles.Keys;
        }
        todo := todo - {key};
      }
      paths := Ordering.Listing(members);
    }
  }
}
