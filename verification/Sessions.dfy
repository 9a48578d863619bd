/** The expiring session map of internal/api/auth.go against a log that is never pruned. */
module Sessions {
  import opened Domain

  const SECOND: Time := 1_000_000_000
  const TWELVE_HOURS: Time := 12 * 60 * 60 * SECOND

  predicate IsLive(sessions: map<string, Time>, token: string, now: Time) {
    token in sessions && sessions[token] > now
  }

  /** Issuing: the new entry, less what the pruning dropped. */
  function Issued(sessions: map<string, Time>, token: string, at: Time, dropped: set<string>): map<string, Time> {
    sessions[token := at + TWELVE_HOURS] - dropped
  }

  /** Pruning that ends at `end` drops only entries past their expiry. */
  predicate MayDrop(sessions: map<string, Time>, token: string, at: Time, end: Time, dropped: set<string>) {
    var issued := sessions[token := at + TWELVE_HOURS];
    forall t :: t in dropped ==> t in issued && issued[t] < end
  }

  /** Asking for a token that is missing or no longer good deletes it. */
  function Checked(sessions: map<string, Time>, token: string, now: Time): map<string, Time> {
    if IsLive(sessions, token, now) then sessions else sessions - {token}
  }

  // ----- The map, updated in place -----

  class Auth {
    var sessions: map<string, Time>

    constructor ()
      ensures sessions == map[]
    {
      sessions := map[];
    }

    /** newSession: insert, then prune; every turn of the loop reads the clock again. */
    method NewSession(token: string, issuedAt: Time) returns (end: Time, ghost dropped: set<string>)
      modifies this
      ensures end >= issuedAt && MayDrop(old(sessions), token, issuedAt, end, dropped)
      ensures sessions == Issued(old(sessions), token, issuedAt, dropped)
      ensures token !in dropped ==> token in sessions && sessions[token] == issuedAt + 12 * 60 * 60 * SECOND
      ensures forall t :: t in sessions ==> sessions[t] >= issuedAt
    {
      sessions := sessions[token := issuedAt + TWELVE_HOURS];
      ghost var issued := sessions;
      end, dropped := issuedAt, {};
      var todo := sessions.Keys;
      while todo != {}
        invariant todo <= sessions.Keys && end >= issuedAt
        invariant sessions == issued - dropped
        invariant forall t :: t in sessions && t !in todo ==> sessions[t] >= issuedAt
        invariant forall t :: t in dropped ==> t in issued && issued[t] < end
      {
        var t :| t in todo;
        var now: Time :| now >= end;
        end := now;
        if sessions[t] < now {
          sessions := sessions - {t};
          dropped := dropped + {t};
        }
        todo := todo - {t};
      }
    }

    /** validSession: the question itself deletes what is no longer good. */
    method ValidSession(token: string, now: Time) returns (valid: bool)
      modifies this
      ensures valid <==> IsLive(old(sessions), token, now)
      ensures sessions == Checked(old(sessions), token, now)
      ensures sessions == if valid then old(sessions) else old(sessions) - {token}
      ensures valid <==> token in old(sessions) && now < old(sessions)[token]
    {
      if token !in sessions || !(sessions[token] > now) {
        sessions := sessions - {token};
        return false;
      }
      return true;
    }
  }

  // ----- Runs on a clock that does not go back -----

  /** `log` remembers when each token was issued. */
  datatype State = State(sessions: map<string, Time>, clock: Time, log: map<string, Time>)

  datatype Event =
    | Issue(token: string, wait: nat, pruning: nat, dropped: set<string>)
    | Check(token: string, wait: nat)

  /** One call; tokens are drawn fresh, and pruning drops only entries past their expiry. */
  function Next(s: State, e: Event): State {
    match e
    case Issue(token, wait, pruning, dropped) =>
      var at := s.clock + wait;
      if token in s.log || !MayDrop(s.sessions, token, at, at + pruning, dropped) then s
      else State(Issued(s.sessions, token, at, dropped), at + pruning, s.log[token := at])
    case Check(token, wait) =>
      var now := s.clock + wait;
      s.(clock := now, sessions := Checked(s.sessions, token, now))
  }

  function Run(clock: Time, events: seq<Event>): State {
    if events == [] then State(map[], clock, map[])
    else Next(Run(clock, events[..|events| - 1]), events[|events| - 1])
  }

  /** The map holds every token still good, and only what the log says it holds. */
  ghost predicate MapMatchesLog(s: State) {
    && (forall t :: t in s.sessions ==> t in s.log && s.sessions[t] == s.log[t] + TWELVE_HOURS)
    && (forall t :: t in s.log && s.clock < s.log[t] + TWELVE_HOURS ==> t in s.sessions)
  }

  lemma {:induction false} RunMatches(clock: Time, events: seq<Event>)
    ensures MapMatchesLog(Run(clock, events))
  {
    if events != [] {
      RunMatches(clock, events[..|events| - 1]);
    }
  }

  /** For every interleaving of issue, prune and check, a session is valid exactly when its token was
      issued less than twelve hours earlier. */
  lemma {:induction false} ValidMeansRecent(clock: Time, events: seq<Event>, token: string, now: Time)
    requires now >= Run(clock, events).clock
    ensures var s := Run(clock, events);
            IsLive(s.sessions, token, now) <==> token in s.log && now < s.log[token] + TWELVE_HOURS
  {
    RunMatches(clock, events);
  }
}
