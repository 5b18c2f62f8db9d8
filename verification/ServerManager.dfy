/** The manager loop of one server: cooldown wait, session, reauthentication, connection, backoff.

    Clock readings, the session store, the network and the shutdown signal are oracles: a `Round` lists what
    one turn of the loop is told. Time is in milliseconds and does not run backwards. */
module ServerManager {
  import opened Retry
  import opened Runtime
  import DedupeWindow
  import opened StormGuard
  import opened Wrappers

  datatype Session =
    | Unreadable
    | Missing
    | WithToken
    | WithoutToken(reauthenticated: bool)

  datatype Link =
    | Closed(live: bool)            // shutdown or a closed command channel, before or after going live
    | Refreshed                     // session refreshed on a live connection
    | Lost(live: bool)              // any other error, before or after going live
  {
    predicate WasLive() {
      Refreshed? || live
    }
  }

  datatype Round = Round(
    idle: nat,                      // time that passes before the turn reads the clock
    stoppedInCooldown: bool,
    session: Session,
    reauthTime: nat,
    link: Link,
    linkTime: nat,
    failure: string,
    cooldownDraw: Draw,
    stoppedInBackoff: bool,
    backoffDraw: Draw)

  datatype AttemptKind = Reauth | Connect

  /** An attempt, and the next attempt times stored in memory and on disk when it started. */
  datatype Attempt = Attempt(kind: AttemptKind, at: int, inMemory: Option<int>, onDisk: Option<int>)

  datatype Manager = Manager(
    runtime: RuntimeState,
    file: Option<RuntimeFile>,
    clock: int,
    backoff: U64,
    attempts: seq<Attempt>,
    running: bool)

  function StoredFloor(file: Option<RuntimeFile>): Option<int> {
    if file.Some? then file.value.storm.nextAttemptAt else None
  }

  function Try(m: Manager, kind: AttemptKind): Manager {
    m.(attempts := m.attempts + [Attempt(kind, m.clock, m.runtime.storm.nextAttemptAt, StoredFloor(m.file))])
  }

  function Flush(m: Manager): Manager {
    m.(file := Some(Flushed(m.runtime)))
  }

  function AfterCooldownWait(m: Manager, round: Round): Manager {
    var m := m.(clock := m.clock + round.idle);
    var cooldown := CurrentCooldown(m.runtime.storm);
    if cooldown.Some? && cooldown.value.nextAttemptAt > m.clock then
      if round.stoppedInCooldown then m.(running := false)
      else m.(clock := cooldown.value.nextAttemptAt)
    else m
  }

  function AfterBackoff(m: Manager, round: Round, retry: RetryConfig): Manager {
    if round.stoppedInBackoff then m.(running := false)
    else
      m.(clock := m.clock + Jitter(m.backoff, retry.jitterRatio, round.backoffDraw),
         backoff := Min(SaturatingDouble(m.backoff), retry.maxMs))
  }

  /** Record and persist a failure; back off only when no cooldown came of it. */
  function AfterFailure(m: Manager, round: Round, retry: RetryConfig): Manager {
    var entered := RecordedCooldown(m.runtime, m.clock, retry, round.failure, round.cooldownDraw);
    var m := Flush(m.(runtime := RecordFailure(m.runtime, m.clock, retry, round.failure, round.cooldownDraw)));
    if entered.Some? then m else AfterBackoff(m, round, retry)
  }

  /** A connection that goes live ends the storm, in memory and on disk, before anything else can end it. */
  function Connected(m: Manager, round: Round): Manager {
    var m := Try(m, Connect);
    var m := m.(clock := m.clock + round.linkTime);
    if round.link.WasLive() then Flush(m.(runtime := ClearStorm(m.runtime))) else m
  }

  function AfterLink(m: Manager, round: Round, retry: RetryConfig): Manager {
    var m := Connected(m, round);
    match round.link
    case Closed(_) => m.(running := false)
    case Refreshed => m.(backoff := retry.baseMs)
    case Lost(live) => AfterFailure(if live then m.(backoff := retry.baseMs) else m, round, retry)
  }

  function AfterSession(m: Manager, round: Round, retry: RetryConfig): Manager {
    match round.session
    case Unreadable => m.(running := false)
    case Missing => AfterBackoff(m, round, retry)
    case WithToken => AfterLink(m, round, retry)
    case WithoutToken(reauthenticated) =>
      var m := Try(m, Reauth);
      var m := m.(clock := m.clock + round.reauthTime);
      if reauthenticated then AfterLink(m, round, retry) else AfterFailure(m, round, retry)
  }

  function Turn(m: Manager, round: Round, retry: RetryConfig): Manager {
    if !m.running then m
    else
      var m := AfterCooldownWait(m, round);
      if !m.running then m else AfterSession(m, round, retry)
  }

  function Turns(m: Manager, rounds: seq<Round>, retry: RetryConfig): Manager
    decreases |rounds|
  {
    if rounds == [] then m else Turn(Turns(m, rounds[..|rounds| - 1], retry), rounds[|rounds| - 1], retry)
  }

  // ----- No attempt before its time -----

  ghost predicate Respectful(a: Attempt) {
    && (a.inMemory.Some? ==> a.inMemory.value <= a.at)
    && (a.onDisk.Some? ==> a.onDisk.value <= a.at)
  }

  /** Between turns memory and disk agree on the storm, and all attempts so far respected it. */
  ghost predicate ManagerOk(m: Manager, retry: RetryConfig) {
    && StormOk(m.runtime, retry.guard)
    && (if m.file.Some? then m.file.value.storm else CALM) == m.runtime.storm
    && (forall a <- m.attempts :: Respectful(a))
  }

  lemma TryIsRespectful(m: Manager, kind: AttemptKind, retry: RetryConfig)
    requires ManagerOk(m, retry)
    requires m.runtime.storm.nextAttemptAt.Some? ==> m.runtime.storm.nextAttemptAt.value <= m.clock
    ensures ManagerOk(Try(m, kind), retry)
  {
    assert StoredFloor(m.file) == m.runtime.storm.nextAttemptAt;
  }

  lemma AfterFailureKeepsOk(m: Manager, round: Round, retry: RetryConfig)
    requires ManagerOk(m, retry)
    ensures ManagerOk(AfterFailure(m, round, retry), retry)
  {
    RecordFailureKeepsStormOk(m.runtime, Failure(m.clock, round.failure, round.cooldownDraw), retry);
  }

  lemma AfterLinkKeepsOk(m: Manager, round: Round, retry: RetryConfig)
    requires ManagerOk(m, retry)
    requires m.runtime.storm.nextAttemptAt.Some? ==> m.runtime.storm.nextAttemptAt.value <= m.clock
    ensures ManagerOk(AfterLink(m, round, retry), retry)
  {
    hide Jitter, RecordFailure, RecordedCooldown, AfterFailure;
    TryIsRespectful(m, Connect, retry);
    var connected := Connected(m, round);
    if round.link.Lost? {
      AfterFailureKeepsOk(if round.link.live then connected.(backoff := retry.baseMs) else connected, round, retry);
    }
  }

  lemma TurnKeepsOk(m: Manager, round: Round, retry: RetryConfig)
    requires ManagerOk(m, retry)
    ensures ManagerOk(Turn(m, round, retry), retry)
  {
    hide Jitter, RecordFailure, RecordedCooldown, AfterFailure, AfterLink;
    var waited := AfterCooldownWait(m, round);
    if m.running && waited.running {
      assert ManagerOk(waited, retry);
      match round.session
      case Unreadable =>
      case Missing =>
      case WithToken =>
        AfterLinkKeepsOk(waited, round, retry);
      case WithoutToken(reauthenticated) =>
        TryIsRespectful(waited, Reauth, retry);
        var tried := Try(waited, Reauth).(clock := waited.clock + round.reauthTime);
        if reauthenticated {
          AfterLinkKeepsOk(tried, round, retry);
        } else {
          AfterFailureKeepsOk(tried, round, retry);
        }
    }
  }

  /** Whatever the oracles say, no reauthentication and no connection starts before the stored next attempt
      time, as memory and as the disk have it; and the storm on disk is the one in memory after each turn, so
      that this also holds of the manager a restart loads. */
  lemma {:induction false} AttemptsRespectTheCooldown(m: Manager, rounds: seq<Round>, retry: RetryConfig)
    requires ManagerOk(m, retry)
    ensures ManagerOk(Turns(m, rounds, retry), retry)
    decreases |rounds|
  {
    if rounds != [] {
      AttemptsRespectTheCooldown(m, rounds[..|rounds| - 1], retry);
      TurnKeepsOk(Turns(m, rounds[..|rounds| - 1], retry), rounds[|rounds| - 1], retry);
    }
  }

  // ----- How long a cooldown holds -----

  /** No attempt of these starts before a time. */
  ghost predicate NoneBefore(attempts: seq<Attempt>, until: int) {
    forall a <- attempts :: until <= a.at
  }

  /** The manager made these attempts and then further ones, none of which before a time; and it cannot make one
      before that time now. */
  ghost predicate Holds(m: Manager, made: seq<Attempt>, until: int) {
    && |made| <= |m.attempts| && m.attempts[..|made|] == made
    && NoneBefore(m.attempts[|made|..], until)
    && (until <= m.clock || CooldownUntil(m.runtime.storm, until))
  }

  ghost predicate CooldownUntil(storm: StormState, until: int) {
    CurrentCooldown(storm).Some? && CurrentCooldown(storm).value.nextAttemptAt == until
  }

  lemma TryHolds(m: Manager, made: seq<Attempt>, until: int, kind: AttemptKind)
    requires Holds(m, made, until) && until <= m.clock
    ensures Holds(Try(m, kind), made, until)
  {
    var next := Try(m, kind);
    assert next.attempts[|made|..] == m.attempts[|made|..] + [next.attempts[|m.attempts|]];
  }

  /** Past the time, whatever changes but the attempts and a clock that goes on, the bound holds. */
  lemma LaterHolds(m: Manager, next: Manager, made: seq<Attempt>, until: int)
    requires Holds(m, made, until) && until <= m.clock && m.clock <= next.clock && next.attempts == m.attempts
    ensures Holds(next, made, until)
  {
  }

  lemma FailureKeepsAttempts(m: Manager, round: Round, retry: RetryConfig)
    ensures AfterFailure(m, round, retry).attempts == m.attempts && m.clock <= AfterFailure(m, round, retry).clock
    ensures AfterBackoff(m, round, retry).attempts == m.attempts && m.clock <= AfterBackoff(m, round, retry).clock
  {
    hide Jitter, RecordFailure, RecordedCooldown;
  }

  lemma LinkHolds(m: Manager, round: Round, made: seq<Attempt>, until: int, retry: RetryConfig)
    requires Holds(m, made, until) && until <= m.clock
    ensures Holds(AfterLink(m, round, retry), made, until)
  {
    hide AfterFailure, Holds;
    TryHolds(m, made, until, Connect);
    var connected := Connected(m, round);
    var failing := if round.link.Lost? && round.link.live then connected.(backoff := retry.baseMs) else connected;
    FailureKeepsAttempts(failing, round, retry);
    LaterHolds(Try(m, Connect), AfterLink(m, round, retry), made, until);
  }

  lemma SessionHolds(m: Manager, round: Round, made: seq<Attempt>, until: int, retry: RetryConfig)
    requires Holds(m, made, until) && until <= m.clock
    ensures Holds(AfterSession(m, round, retry), made, until)
  {
    hide AfterFailure, AfterBackoff, AfterLink, Holds;
    if round.session.Missing? {
      FailureKeepsAttempts(m, round, retry);
      LaterHolds(m, AfterSession(m, round, retry), made, until);
    } else if round.session.Unreadable? {
      LaterHolds(m, AfterSession(m, round, retry), made, until);
    } else if round.session.WithToken? {
      LinkHolds(m, round, made, until, retry);
    } else {
      TryHolds(m, made, until, Reauth);
      var answered := Try(m, Reauth).(clock := m.clock + round.reauthTime);
      LaterHolds(Try(m, Reauth), answered, made, until);
      if round.session.reauthenticated {
        LinkHolds(answered, round, made, until, retry);
      } else {
        FailureKeepsAttempts(answered, round, retry);
        LaterHolds(answered, AfterSession(m, round, retry), made, until);
      }
    }
  }

  lemma TurnHolds(m: Manager, round: Round, made: seq<Attempt>, until: int, retry: RetryConfig)
    requires Holds(m, made, until)
    ensures Holds(Turn(m, round, retry), made, until) && m.clock <= Turn(m, round, retry).clock
  {
    hide AfterSession;
    if m.running {
      var waited := AfterCooldownWait(m, round);
      if waited.running {
        SessionHolds(waited, round, made, until, retry);
      }
      SessionGoesOn(waited, round, retry);
    }
  }

  lemma SessionGoesOn(m: Manager, round: Round, retry: RetryConfig)
    ensures m.clock <= AfterSession(m, round, retry).clock
  {
    hide AfterFailure, AfterBackoff;
    FailureKeepsAttempts(m, round, retry);
    var answered := Try(m, Reauth).(clock := m.clock + round.reauthTime);
    FailureKeepsAttempts(answered, round, retry);
    LinkGoesOn(m, round, retry);
    LinkGoesOn(answered, round, retry);
    hide AfterLink;
  }

  lemma LinkGoesOn(m: Manager, round: Round, retry: RetryConfig)
    ensures m.clock <= AfterLink(m, round, retry).clock
  {
    hide AfterFailure;
    var connected := Connected(m, round);
    FailureKeepsAttempts(if round.link.Lost?
                         && round.link.live then connected.(backoff := retry.baseMs) else connected, round, retry);
  }

  lemma {:induction false} TurnsHold(m: Manager, rounds: seq<Round>, made: seq<Attempt>, until: int, retry: RetryConfig)
    requires Holds(m, made, until)
    ensures Holds(Turns(m, rounds, retry), made, until) && m.clock <= Turns(m, rounds, retry).clock
    decreases |rounds|
  {
    if rounds != [] {
      TurnsHold(m, rounds[..|rounds| - 1], made, until, retry);
      TurnHolds(Turns(m, rounds[..|rounds| - 1], retry), rounds[|rounds| - 1], made, until, retry);
    }
  }

  // ----- Stops inside a turn -----

  /** The states a recorded failure passes through: counted in memory, written to the file. */
  function FailureStates(m: Manager, round: Round, retry: RetryConfig): seq<Manager> {
    var recorded := m.(runtime := RecordFailure(m.runtime, m.clock, retry, round.failure, round.cooldownDraw));
    [recorded, Flush(recorded), AfterFailure(m, round, retry)]
  }

  function ConnectStates(m: Manager, round: Round): seq<Manager> {
    var tried := Try(m, Connect);
    var cleared := tried.(clock := m.clock + round.linkTime, runtime := ClearStorm(m.runtime));
    if round.link.WasLive() then [tried, cleared, Connected(m, round)] else [tried, Connected(m, round)]
  }

  function LinkStates(m: Manager, round: Round, retry: RetryConfig): seq<Manager> {
    var connected := Connected(m, round);
    ConnectStates(m, round)
    + (if round.link.Lost? then
         FailureStates(if round.link.live then connected.(backoff := retry.baseMs) else connected, round, retry)
       else [AfterLink(m, round, retry)])
  }

  function SessionStates(m: Manager, round: Round, retry: RetryConfig): seq<Manager> {
    match round.session
    case Unreadable => [AfterSession(m, round, retry)]
    case Missing => [AfterSession(m, round, retry)]
    case WithToken => LinkStates(m, round, retry)
    case WithoutToken(reauthenticated) =>
      var tried := Try(m, Reauth);
      var answered := tried.(clock := m.clock + round.reauthTime);
      [tried, answered]
      + (if reauthenticated then LinkStates(answered, round, retry) else FailureStates(answered, round, retry))
  }

  /** Every state of one turn between two of its effects, the last being its end. */
  function TurnStates(m: Manager, round: Round, retry: RetryConfig): seq<Manager> {
    if !m.running then [m]
    else
      var waited := AfterCooldownWait(m, round);
      [m, waited] + (if waited.running then SessionStates(waited, round, retry) else [])
  }

  lemma TurnEndsItsStates(m: Manager, round: Round, retry: RetryConfig)
    ensures TurnStates(m, round, retry) != []
    ensures TurnStates(m, round, retry)[|TurnStates(m, round, retry)| - 1] == Turn(m, round, retry)
  {
    hide AfterFailure, RecordFailure, AfterBackoff;
  }

  /** A manager started from the file the last one left. */
  function Restarted(m: Manager, now: int, retry: RetryConfig): Manager {
    Manager(Loaded(m.file, m.runtime.windowSize, m.runtime.floor, now), m.file, now, retry.baseMs, [], true)
  }

  ghost predicate FileOk(file: Option<RuntimeFile>, guard: StormGuardConfig) {
    StormOk(Loaded(None, 0, None, 0).(storm := if file.Some? then file.value.storm else CALM), guard)
  }

  /** Wherever the manager stops, its attempts respected the cooldown, and the file holds the storm of the turn's
      start, no storm, or the storm of the turn's end. */
  ghost predicate StopsWell(x: Manager, start: Manager, end: Manager, retry: RetryConfig) {
    && (forall a <- x.attempts :: Respectful(a))
    && FileOk(x.file, retry.guard)
    && (x.file == start.file || x.file == end.file || (x.file.Some? && x.file.value.storm == CALM))
  }

  lemma FailureStopsWell(m: Manager, round: Round, retry: RetryConfig, start: Manager)
    requires ManagerOk(m, retry)
    requires m.file == start.file || (m.file.Some? && m.file.value.storm == CALM)
    ensures forall x <- FailureStates(m, round, retry) :: StopsWell(x, start, AfterFailure(m, round, retry), retry)
  {
    hide Jitter, RecordFailure, RecordedCooldown;
    RecordFailureKeepsStormOk(m.runtime, Failure(m.clock, round.failure, round.cooldownDraw), retry);
  }

  lemma ConnectStopsWell(m: Manager, round: Round, retry: RetryConfig, start: Manager, end: Manager)
    requires ManagerOk(m, retry) && m.file == start.file
    requires m.runtime.storm.nextAttemptAt.Some? ==> m.runtime.storm.nextAttemptAt.value <= m.clock
    ensures forall x <- ConnectStates(m, round) :: StopsWell(x, start, end, retry)
    ensures ManagerOk(Connected(m, round), retry)
  {
    TryIsRespectful(m, Connect, retry);
  }

  lemma LinkStopsWell(m: Manager, round: Round, retry: RetryConfig, start: Manager)
    requires ManagerOk(m, retry) && m.file == start.file
    requires m.runtime.storm.nextAttemptAt.Some? ==> m.runtime.storm.nextAttemptAt.value <= m.clock
    ensures forall x <- LinkStates(m, round, retry) :: StopsWell(x, start, AfterLink(m, round, retry), retry)
  {
    ConnectStopsWell(m, round, retry, start, AfterLink(m, round, retry));
    var connected := Connected(m, round);
    if round.link.Lost? {
      hide AfterFailure, FailureStates, ConnectStates, StopsWell;
      FailureStopsWell(if round.link.live then connected.(backoff := retry.baseMs) else connected, round, retry, start);
    } else {
      hide ConnectStates, FailureStates, AfterFailure;
    }
  }

  lemma TurnStopsWell(m: Manager, round: Round, retry: RetryConfig)
    requires ManagerOk(m, retry)
    ensures forall x <- TurnStates(m, round, retry) :: StopsWell(x, m, Turn(m, round, retry), retry)
  {
    hide AfterFailure, AfterLink, LinkStates, FailureStates, AfterBackoff;
    var waited := AfterCooldownWait(m, round);
    if m.running && waited.running {
      match round.session {
        case Unreadable =>
        case Missing => BackoffKeepsTheFile(waited, round, retry);
        case WithToken => LinkStopsWell(waited, round, retry, m);
        case WithoutToken(reauthenticated) =>
          TryIsRespectful(waited, Reauth, retry);
          var answered := Try(waited, Reauth).(clock := waited.clock + round.reauthTime);
          if reauthenticated {
            LinkStopsWell(answered, round, retry, m);
          } else {
            FailureStopsWell(answered, round, retry, m);
          }
      }
    }
  }

  lemma BackoffKeepsTheFile(m: Manager, round: Round, retry: RetryConfig)
    ensures AfterBackoff(m, round, retry).file == m.file && AfterBackoff(m, round, retry).attempts == m.attempts
  {
    hide Jitter;
  }

  // ----- A recorded cooldown holds -----

  /** Inside a turn the bound holds too, and before its time the file is the one the turn began with. */
  ghost predicate StateHolds(x: Manager, start: Manager, made: seq<Attempt>, until: int) {
    && |made| <= |x.attempts| && NoneBefore(x.attempts[|made|..], until)
    && (until <= x.clock || x.file == start.file)
  }

  lemma HoldsInside(x: Manager, start: Manager, made: seq<Attempt>, until: int)
    requires Holds(x, made, until) && (until <= x.clock || x.file == start.file)
    ensures StateHolds(x, start, made, until)
  {
  }

  lemma FailureStatesHold(m: Manager, round: Round, retry: RetryConfig, start: Manager, made: seq<Attempt>, until: int)
    requires Holds(m, made, until) && until <= m.clock
    ensures forall x <- FailureStates(m, round, retry) :: StateHolds(x, start, made, until)
  {
    FailureKeepsAttempts(m, round, retry);
    hide RecordFailure, AfterFailure, Holds;
    forall x | x in FailureStates(m, round, retry) ensures StateHolds(x, start, made, until) {
      LaterHolds(m, x, made, until);
      HoldsInside(x, start, made, until);
    }
  }

  lemma LinkStatesHold(m: Manager, round: Round, retry: RetryConfig, start: Manager, made: seq<Attempt>, until: int)
    requires Holds(m, made, until) && until <= m.clock
    ensures forall x <- LinkStates(m, round, retry) :: StateHolds(x, start, made, until)
  {
    hide AfterFailure, FailureStates, Holds, StateHolds;
    TryHolds(m, made, until, Connect);
    var tried, connected := Try(m, Connect), Connected(m, round);
    forall x | x in ConnectStates(m, round) ensures StateHolds(x, start, made, until) {
      LaterHolds(tried, x, made, until);
      HoldsInside(x, start, made, until);
    }
    if round.link.Lost? {
      var failing := if round.link.live then connected.(backoff := retry.baseMs) else connected;
      LaterHolds(tried, failing, made, until);
      FailureStatesHold(failing, round, retry, start, made, until);
    } else {
      LinkHolds(m, round, made, until, retry);
      LinkGoesOn(m, round, retry);
      HoldsInside(AfterLink(m, round, retry), start, made, until);
    }
    hide ConnectStates, Connected, AfterLink;
  }

  lemma SessionStatesHold(m: Manager, round: Round, retry: RetryConfig, start: Manager, made: seq<Attempt>, until: int)
    requires Holds(m, made, until) && until <= m.clock
    ensures forall x <- SessionStates(m, round, retry) :: StateHolds(x, start, made, until)
  {
    hide AfterFailure, AfterBackoff, AfterLink, LinkStates, FailureStates, Holds, StateHolds;
    match round.session
    case Unreadable =>
      SessionEndHolds(m, round, retry, start, made, until);
    case Missing =>
      SessionEndHolds(m, round, retry, start, made, until);
    case WithToken => LinkStatesHold(m, round, retry, start, made, until);
    case WithoutToken(reauthenticated) =>
      TryHolds(m, made, until, Reauth);
      var tried := Try(m, Reauth);
      var answered := tried.(clock := m.clock + round.reauthTime);
      LaterHolds(tried, answered, made, until);
      HoldsInside(tried, start, made, until);
      HoldsInside(answered, start, made, until);
      if reauthenticated {
        LinkStatesHold(answered, round, retry, start, made, until);
      } else {
        FailureStatesHold(answered, round, retry, start, made, until);
      }
  }

  lemma SessionEndHolds(m: Manager, round: Round, retry: RetryConfig, start: Manager, made: seq<Attempt>, until: int)
    requires Holds(m, made, until) && until <= m.clock
    ensures StateHolds(AfterSession(m, round, retry), start, made, until)
  {
    hide AfterSession, Holds;
    SessionHolds(m, round, made, until, retry);
    SessionGoesOn(m, round, retry);
    HoldsInside(AfterSession(m, round, retry), start, made, until);
  }

  lemma TurnStatesHold(m: Manager, round: Round, retry: RetryConfig, made: seq<Attempt>, until: int)
    requires Holds(m, made, until)
    ensures forall x <- TurnStates(m, round, retry) :: StateHolds(x, m, made, until)
  {
    hide SessionStates;
    HoldsInside(m, m, made, until);
    var waited := AfterCooldownWait(m, round);
    assert Holds(waited, made, until) && waited.file == m.file;
    HoldsInside(waited, m, made, until);
    hide StateHolds, Holds;
    if m.running && waited.running {
      SessionStatesHold(waited, round, retry, m, made, until);
    }
  }

  lemma FailedHolds(m: Manager, round: Round, retry: RetryConfig)
    requires ManagerOk(m, retry)
    requires RecordedCooldown(m.runtime, m.clock, retry, round.failure, round.cooldownDraw).Some?
    ensures var failed := AfterFailure(m, round, retry);
      var answer := RecordedCooldown(m.runtime, m.clock, retry, round.failure, round.cooldownDraw).value;
      && ManagerOk(failed, retry) && failed.attempts == m.attempts
      && Holds(failed, m.attempts, m.clock + Min(answer.cooldownMs, I64_MAX))
  {
    AnswerIsStored(m.runtime, Failure(m.clock, round.failure, round.cooldownDraw), retry);
    AfterFailureKeepsOk(m, round, retry);
    hide RecordFailure, RecordedCooldown, Jitter;
    assert AfterFailure(m, round, retry).attempts[|m.attempts|..] == [];
  }

  /** A restart from where the bound holds is bound as well. */
  lemma RestartHolds(x: Manager, start: Manager, made: seq<Attempt>, until: int, now: int, after: seq<Round>,
                     retry: RetryConfig)
    requires ManagerOk(start, retry) && Holds(start, made, until) && start.clock <= x.clock <= now
    requires StateHolds(x, start, made, until)
    ensures NoneBefore(Turns(Restarted(x, now, retry), after, retry).attempts, until)
  {
    var restarted := Restarted(x, now, retry);
    DedupeWindow.LoadEstablishesWindow(x.file, x.runtime.windowSize, x.runtime.floor, now);
    assert restarted.attempts[0..] == [];
    hide Loaded, Turns;
    assert Holds(restarted, [], until);
    TurnsHold(restarted, after, [], until, retry);
    assert Turns(restarted, after, retry).attempts[0..] == Turns(restarted, after, retry).attempts;
  }

  lemma TurnStatesGoOn(m: Manager, round: Round, retry: RetryConfig)
    ensures forall x <- TurnStates(m, round, retry) :: m.clock <= x.clock
  {
    hide AfterFailure, AfterBackoff, RecordFailure, RecordedCooldown;
    var waited := AfterCooldownWait(m, round);
    assert m.clock <= waited.clock;
    hide AfterCooldownWait;
    SessionStatesGoOn(waited, round, retry);
    hide SessionStates;
  }

  lemma SessionStatesGoOn(m: Manager, round: Round, retry: RetryConfig)
    ensures forall x <- SessionStates(m, round, retry) :: m.clock <= x.clock
  {
    SessionGoesOn(m, round, retry);
    var answered := Try(m, Reauth).(clock := m.clock + round.reauthTime);
    LinkStatesGoOn(m, round, retry);
    LinkStatesGoOn(answered, round, retry);
    FailureKeepsAttempts(answered, round, retry);
    hide AfterFailure, AfterSession, LinkStates, RecordFailure;
  }

  lemma LinkStatesGoOn(m: Manager, round: Round, retry: RetryConfig)
    ensures forall x <- LinkStates(m, round, retry) :: m.clock <= x.clock
  {
    LinkGoesOn(m, round, retry);
    var connected := Connected(m, round);
    FailureKeepsAttempts(if round.link.Lost? && round.link.live then connected.(backoff := retry.baseMs) else connected,
                         round, retry);
    hide AfterFailure, AfterLink, RecordFailure;
  }

  /** After a failure that answers with a cooldown, the first of a storm included, no attempt starts before the
      failure's time plus that cooldown: not in any number of turns, and not after a stop, inside a turn or at its
      end, and a restart, as time does not run backwards. */
  lemma RecordedCooldownHolds(m: Manager, round: Round, rounds: seq<Round>, next: Round, x: Manager, now: int,
                              after: seq<Round>, retry: RetryConfig)
    requires ManagerOk(m, retry)
    requires RecordedCooldown(m.runtime, m.clock, retry, round.failure, round.cooldownDraw).Some?
    requires x in TurnStates(Turns(AfterFailure(m, round, retry), rounds, retry), next, retry) && x.clock <= now
    ensures var failed := AfterFailure(m, round, retry);
      var cooldown := RecordedCooldown(m.runtime, m.clock, retry, round.failure, round.cooldownDraw).value.cooldownMs;
      var until := m.clock + Min(cooldown, I64_MAX);
      && failed.attempts == m.attempts
      && |m.attempts| <= |x.attempts| && NoneBefore(x.attempts[|m.attempts|..], until)
      && NoneBefore(Turns(Restarted(x, now, retry), after, retry).attempts, until)
  {
    FailedHolds(m, round, retry);
    var failed := AfterFailure(m, round, retry);
    var answer := RecordedCooldown(m.runtime, m.clock, retry, round.failure, round.cooldownDraw).value;
    var until := m.clock + Min(answer.cooldownMs, I64_MAX);
    hide RecordedCooldown, Turns, AfterFailure, TurnStates, ManagerOk, Holds, NoneBefore;
    TurnsHold(failed, rounds, m.attempts, until, retry);
    var start := Turns(failed, rounds, retry);
    AttemptsRespectTheCooldown(failed, rounds, retry);
    TurnStatesHold(start, next, retry, m.attempts, until);
    TurnStatesGoOn(start, next, retry);
    RestartHolds(x, start, m.attempts, until, now, after, retry);
  }

  /** Through restarts after a stop anywhere, inside a turn or at its end: the cooldown the file holds binds the
      next process life, as every attempt of the life before respected its own. */
  lemma RestartStillRespectsTheCooldown(m: Manager, before: seq<Round>, round: Round, x: Manager, now: int,
                                        after: seq<Round>, retry: RetryConfig)
    requires ManagerOk(m, retry) && x in TurnStates(Turns(m, before, retry), round, retry)
    ensures var start := Turns(m, before, retry);
      && StopsWell(x, start, Turn(start, round, retry), retry)
      && Turns(m, before + [round], retry) in TurnStates(start, round, retry)
      && ManagerOk(Restarted(x, now, retry), retry)
      && Restarted(x, now, retry).runtime.storm == (if x.file.Some? then x.file.value.storm else CALM)
      && ManagerOk(Turns(Restarted(x, now, retry), after, retry), retry)
  {
    hide Turn, TurnStates;
    assert (before + [round])[..|before|] == before;
    TurnEndsItsStates(Turns(m, before, retry), round, retry);
    AttemptsRespectTheCooldown(m, before, retry);
    TurnStopsWell(Turns(m, before, retry), round, retry);
    DedupeWindow.LoadEstablishesWindow(x.file, x.runtime.windowSize, x.runtime.floor, now);
    AttemptsRespectTheCooldown(Restarted(x, now, retry), after, retry);
  }

  // ----- The loop itself -----

  class ManagerLoop {
    const runtime: RuntimeStore
    const retry: RetryConfig
    var clock: int
    var backoff: U64
    var attempts: seq<Attempt>
    var running: bool

    function View(): Manager
      reads this, runtime, runtime.disk
    {
      Manager(runtime.View(), runtime.disk.file, clock, backoff, attempts, running)
    }

    constructor (runtime: RuntimeStore, retry: RetryConfig, now: int)
      ensures this.runtime == runtime && this.retry == retry
      ensures View() == Manager(runtime.View(), runtime.disk.file, now, retry.baseMs, [], true)
    {
      this.runtime := runtime;
      this.retry := retry;
      clock, backoff, attempts, running := now, retry.baseMs, [], true;
    }

    method LogAttempt(kind: AttemptKind)
      modifies `attempts
      ensures View() == Try(old(View()), kind)
    {
      var stored := if runtime.disk.file.Some? then runtime.disk.file.value.storm.nextAttemptAt else None;
      attempts := attempts + [Attempt(kind, clock, runtime.storm.nextAttemptAt, stored)];
    }

    /** Returns true when shutdown arrived during the wait. */
    method WaitForCooldown(round: Round) returns (shutdown: bool)
      requires running
      modifies `clock, `running
      ensures View() == AfterCooldownWait(old(View()), round)
      ensures shutdown == !running
    {
      clock := clock + round.idle;
      var cooldown := CurrentCooldown(runtime.storm);
      if cooldown.None? {
        return false;
      }
      if cooldown.value.nextAttemptAt > clock {
        if round.stoppedInCooldown {
          running := false;
          return true;
        }
        var wait := cooldown.value.nextAttemptAt - clock;
        clock := clock + wait;
      }
      return false;
    }

    method Backoff(round: Round)
      modifies `clock, `backoff, `running
      ensures View() == AfterBackoff(old(View()), round, retry)
    {
      if round.stoppedInBackoff {
        running := false;
        return;
      }
      clock := clock + Jitter(backoff, retry.jitterRatio, round.backoffDraw);
      backoff := Min(SaturatingDouble(backoff), retry.maxMs);
    }

    method RecordAndBackOff(round: Round)
      modifies `clock, `backoff, `running, runtime, runtime.disk
      ensures View() == AfterFailure(old(View()), round, retry)
    {
      var cooldown := runtime.RecordReconnectFailure(clock, retry, round.failure, round.cooldownDraw);
      runtime.Flush();
      if cooldown.None? {
        Backoff(round);
      }
    }

    method ConnectOnce(round: Round)
      modifies this, runtime, runtime.disk
      ensures View() == AfterLink(old(View()), round, retry)
    {
      hide AfterFailure;
      LogAttempt(Connect);
      clock := clock + round.linkTime;
      if round.link.WasLive() {
        runtime.ClearReconnectStorm();
        runtime.Flush();
      }
      match round.link
      case Closed(_) =>
        running := false;
      case Refreshed =>
        backoff := retry.baseMs;
      case Lost(live) =>
        if live {
          backoff := retry.baseMs;
        }
        RecordAndBackOff(round);
    }

    method TakeTurn(round: Round)
      requires running
      modifies this, runtime, runtime.disk
      ensures View() == Turn(old(View()), round, retry)
    {
      hide Jitter, RecordFailure, RecordedCooldown, AfterFailure, AfterLink;
      var shutdown := WaitForCooldown(round);
      if shutdown {
        return;
      }
      match round.session
      case Unreadable =>
        running := false;
      case Missing =>
        Backoff(round);
      case WithToken =>
        ConnectOnce(round);
      case WithoutToken(reauthenticated) =>
        LogAttempt(Reauth);
        clock := clock + round.reauthTime;
        if reauthenticated {
          ConnectOnce(round);
        } else {
          RecordAndBackOff(round);
        }
    }

    method Run(rounds: seq<Round>)
      modifies this, runtime, runtime.disk
      ensures View() == Turns(old(View()), rounds, retry)
      ensures old(ManagerOk(View(), retry)) ==> ManagerOk(View(), retry)
    {
      hide Jitter, RecordFailure, RecordedCooldown, AfterFailure, AfterLink, AfterCooldownWait, AfterSession;
      ghost var start := View();
      for i := 0 to |rounds|
        invariant View() == Turns(start, rounds[..i], retry)
      {
        assert rounds[..i + 1][..i] == rounds[..i];
        if running {
          TakeTurn(rounds[i]);
        }
      }
      assert rounds[..|rounds|] == rounds;
      if ManagerOk(start, retry) {
        AttemptsRespectTheCooldown(start, rounds, retry);
      }
    }
  }
}
