/** What one turn of the manager loop comes to: whom it contacts and when, what it makes of the storm, how long it
    backs off, and when it stops. */
module TurnMeaning {
  import opened Retry
  import opened Runtime
  import opened ServerManager
  import opened StormGuard
  import opened Wrappers

  /** A stored next attempt time lies ahead. */
  ghost predicate Waits(m: Manager, round: Round) {
    && m.runtime.storm.cooldownMs.Some? && m.runtime.storm.nextAttemptAt.Some?
    && m.clock + round.idle < m.runtime.storm.nextAttemptAt.value
  }

  ghost predicate Stays(m: Manager, round: Round) {
    !(Waits(m, round) && round.stoppedInCooldown)
  }

  /** A connection is tried: with a stored token, or with one just obtained. */
  ghost predicate Links(round: Round) {
    round.session.WithToken? || round.session == WithoutToken(true)
  }

  ghost predicate GoesLive(round: Round) {
    Links(round) && (round.link == Refreshed || round.link == Closed(true) || round.link == Lost(true))
  }

  /** Authentication fails, or the connection ends otherwise than by a shutdown or a refresh. */
  ghost predicate Fails(round: Round) {
    round.session == WithoutToken(false) || (Links(round) && round.link.Lost?)
  }

  /** When the turn's work begins: at once, or when the cooldown is over. */
  ghost function Begins(m: Manager, round: Round): int {
    if Waits(m, round) then m.runtime.storm.nextAttemptAt.value else m.clock + round.idle
  }

  ghost function Authenticated(m: Manager, round: Round): int {
    Begins(m, round) + (if round.session.WithoutToken? then round.reauthTime else 0)
  }

  ghost function FailedAt(m: Manager, round: Round): int {
    Authenticated(m, round) + (if Links(round) then round.linkTime else 0)
  }

  /** The runtime before a failure is counted: without its storm when the connection had gone live. */
  ghost function Unburdened(m: Manager, round: Round): RuntimeState {
    if GoesLive(round) then m.runtime.(storm := StormState(0, None, None, None), windowStart := None) else m.runtime
  }

  ghost function RuntimeAfter(m: Manager, round: Round, retry: RetryConfig): RuntimeState {
    if Fails(round) then
      RecordFailure(Unburdened(m, round), FailedAt(m, round), retry, round.failure, round.cooldownDraw)
    else Unburdened(m, round)
  }

  /** A turn backs off without a session, or after a failure that entered no cooldown. */
  ghost predicate BacksOff(m: Manager, round: Round, retry: RetryConfig) {
    round.session.Missing? || (Fails(round) && RuntimeAfter(m, round, retry).storm.cooldownMs.None?)
  }

  /** Each contact of the turn, with the next attempt times that memory and the file hold when it starts. */
  ghost function Contact(m: Manager, kind: AttemptKind, at: int): Attempt {
    Attempt(kind, at, m.runtime.storm.nextAttemptAt,
            if m.file.Some? then m.file.value.storm.nextAttemptAt else None)
  }

  ghost function Contacts(m: Manager, round: Round): seq<Attempt> {
    (if round.session.WithoutToken? then [Contact(m, Reauth, Begins(m, round))] else [])
    + (if Links(round) then [Contact(m, Connect, Authenticated(m, round))] else [])
  }

  ghost function DoubledUpTo(backoff: U64, maxMs: U64): U64 {
    if 2 * backoff < maxMs then 2 * backoff else maxMs
  }

  /** The backoff a turn starts from when it backs off: the base again once the connection was live. */
  ghost function Current(m: Manager, round: Round, retry: RetryConfig): U64 {
    if Links(round) && (round.link == Refreshed || round.link == Lost(true)) then retry.baseMs else m.backoff
  }

  ghost predicate TurnIs(m: Manager, round: Round, retry: RetryConfig, next: Manager) {
    && next.runtime == RuntimeAfter(m, round, retry)
    && next.file == (if GoesLive(round) || Fails(round) then Some(Flushed(next.runtime)) else m.file)
    && next.attempts == m.attempts + Contacts(m, round)
    && next.backoff == (if BacksOff(m, round, retry) && !round.stoppedInBackoff
                        then DoubledUpTo(Current(m, round, retry), retry.maxMs) else Current(m, round, retry))
    && (next.running <==>
          && !round.session.Unreadable? && !(Links(round) && round.link.Closed?)
          && !(BacksOff(m, round, retry) && round.stoppedInBackoff))
    && next.clock == FailedAt(m, round)
                     + (if BacksOff(m, round, retry) && !round.stoppedInBackoff
                        then Jitter(Current(m, round, retry), retry.jitterRatio, round.backoffDraw) else 0)
  }

  lemma BackoffIs(m: Manager, round: Round, retry: RetryConfig)
    ensures AfterBackoff(m, round, retry) ==
      if round.stoppedInBackoff then m.(running := false)
      else m.(clock := m.clock + Jitter(m.backoff, retry.jitterRatio, round.backoffDraw),
              backoff := DoubledUpTo(m.backoff, retry.maxMs))
  {
    hide Jitter;
  }

  /** A recorded failure backs off exactly when no cooldown is stored after it. */
  lemma FailureIs(m: Manager, round: Round, retry: RetryConfig)
    requires StormOk(m.runtime, retry.guard)
    ensures var recorded := RecordFailure(m.runtime, m.clock, retry, round.failure, round.cooldownDraw);
      var flushed := m.(runtime := recorded, file := Some(Flushed(recorded)));
      && (recorded.storm.cooldownMs.Some? ==> AfterFailure(m, round, retry) == flushed)
      && (recorded.storm.cooldownMs.None? ==> AfterFailure(m, round, retry) == AfterBackoff(flushed, round, retry))
  {
    AnswerIsStored(m.runtime, Failure(m.clock, round.failure, round.cooldownDraw), retry);
    RecordFailureKeepsStormOk(m.runtime, Failure(m.clock, round.failure, round.cooldownDraw), retry);
    hide RecordFailure, RecordedCooldown, AfterBackoff;
  }

  lemma LinkIs(m: Manager, round: Round, retry: RetryConfig)
    requires StormOk(m.runtime, retry.guard)
    ensures var next := AfterLink(m, round, retry);
      var base := if round.link.WasLive() then m.runtime.(storm := CALM, windowStart := None) else m.runtime;
      var backoff := if round.link.Refreshed? || round.link == Lost(true) then retry.baseMs else m.backoff;
      var recorded := RecordFailure(base, m.clock + round.linkTime, retry, round.failure, round.cooldownDraw);
      var backsOff := round.link.Lost? && recorded.storm.cooldownMs.None?;
      && next.runtime == (if round.link.Lost? then recorded else base)
      && next.file == (if round.link.Lost? || round.link.WasLive() then Some(Flushed(next.runtime)) else m.file)
      && next.attempts == m.attempts + [Contact(m, Connect, m.clock)]
      && next.backoff == (if backsOff && !round.stoppedInBackoff then DoubledUpTo(backoff, retry.maxMs) else backoff)
      && next.running == (m.running && !round.link.Closed? && !(backsOff && round.stoppedInBackoff))
      && next.clock == m.clock + round.linkTime + (if backsOff && !round.stoppedInBackoff
                         then Jitter(backoff, retry.jitterRatio, round.backoffDraw) else 0)
  {
    var connected := Connected(m, round);
    var failing := if round.link == Lost(true) then connected.(backoff := retry.baseMs) else connected;
    FailureIs(failing, round, retry);
    BackoffIs(failing.(runtime := RecordFailure(failing.runtime, failing.clock, retry, round.failure,
                                                round.cooldownDraw),
                       file := Some(Flushed(RecordFailure(failing.runtime, failing.clock, retry, round.failure,
                                                          round.cooldownDraw)))), round, retry);
    hide RecordFailure, AfterFailure, AfterBackoff, Jitter;
  }

  lemma SessionIs(m: Manager, round: Round, retry: RetryConfig, start: Manager)
    requires start.running && StormOk(start.runtime, retry.guard)
    requires m == start.(clock := Begins(start, round))
    ensures TurnIs(start, round, retry, AfterSession(m, round, retry))
  {
    hide RecordFailure, AfterLink, AfterFailure, AfterBackoff, Jitter;
    match round.session
    case Unreadable =>
    case Missing => BackoffIs(m, round, retry);
    case WithToken => LinkIs(m, round, retry);
    case WithoutToken(reauthenticated) =>
      var answered := Try(m, Reauth).(clock := m.clock + round.reauthTime);
      if reauthenticated {
        LinkIs(answered, round, retry);
      } else {
        FailureIs(answered, round, retry);
        var recorded := RecordFailure(answered.runtime, answered.clock, retry, round.failure, round.cooldownDraw);
        BackoffIs(answered.(runtime := recorded, file := Some(Flushed(recorded))), round, retry);
      }
  }

  /** A running manager stops in its cooldown wait, doing nothing; or its turn is what the session and the connection
      make of it. */
  lemma TurnMeans(m: Manager, round: Round, retry: RetryConfig)
    requires m.running && StormOk(m.runtime, retry.guard)
    ensures !Stays(m, round) ==> Turn(m, round, retry) == m.(clock := m.clock + round.idle, running := false)
    ensures Stays(m, round) ==> TurnIs(m, round, retry, Turn(m, round, retry))
  {
    hide AfterSession, TurnIs;
    if Stays(m, round) {
      SessionIs(AfterCooldownWait(m, round), round, retry, m);
    }
  }

  lemma StoppedStaysStopped(m: Manager, round: Round, retry: RetryConfig)
    requires !m.running
    ensures Turn(m, round, retry) == m
  {
  }
}
