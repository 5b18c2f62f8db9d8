/** Requests and their replies over connections that come and go: the pending map of the gateway client, and
    that of a Subspace server connection, which works the same way.

    A ticket stands for the reply channel of one command. Request ids are fresh, as UUIDs are taken to be. */
module Exchange {

  type Ticket = nat
  type RequestId = string

  datatype Command = Command(ticket: Ticket, idempotencyKey: string)

  /** Success carries back the idempotency key the command was sent with. */
  datatype Reply = Delivered(idempotencyKey: string) | Failed

  datatype Issue = Issue(command: Command, connection: nat)

  datatype Happening =
    | Taken(command: Command, request: RequestId, written: bool)   // a command, and whether its frame could be written
    | Response(request: RequestId, ok: bool)
    | OtherFrame
    | Ended                                                        // disconnect, shutdown or refreshed session

  datatype Replies = Replies(count: map<Ticket, nat>, last: map<Ticket, Reply>)

  /** `issued` and `okFrames` are history: every request ever made, and every ok response by connection. */
  datatype Link = Link(
    connection: nat,
    pending: map<RequestId, Command>,
    replies: Replies,
    issued: map<RequestId, Issue>,
    okFrames: set<(nat, RequestId)>)

  const FRESH := Link(0, map[], Replies(map[], map[]), map[], {})

  function Count(replies: Replies, t: Ticket): nat {
    if t in replies.count then replies.count[t] else 0
  }

  function Answer(replies: Replies, t: Ticket, reply: Reply): Replies {
    Replies(replies.count[t := Count(replies, t) + 1], replies.last[t := reply])
  }

  function PendingFor(pending: map<RequestId, Command>, t: Ticket): set<RequestId> {
    set r | r in pending && pending[r].ticket == t
  }

  function Tickets(pending: map<RequestId, Command>): set<Ticket> {
    set r | r in pending :: pending[r].ticket
  }

  /** Dropping a reply channel fails its command. */
  function Dropped(replies: Replies, pending: map<RequestId, Command>): Replies {
    var tickets := Tickets(pending);
    Replies(
      map t | t in replies.count.Keys + tickets :: Count(replies, t) + |PendingFor(pending, t)|,
      map t | t in replies.last.Keys + tickets :: if t in tickets then Failed else replies.last[t])
  }

  function Next(x: Link, h: Happening): Link {
    match h
    case OtherFrame => x
    case Ended => x.(connection := x.connection + 1, pending := map[], replies := Dropped(x.replies, x.pending))
    case Taken(command, request, written) =>
      var x := x.(issued := x.issued[request := Issue(command, x.connection)]);
      if written then x.(pending := x.pending[request := command])
      else x.(connection := x.connection + 1, pending := map[],
              replies := Dropped(Answer(x.replies, command.ticket, Failed), x.pending))
    case Response(request, ok) =>
      var x := if ok then x.(okFrames := x.okFrames + {(x.connection, request)}) else x;
      if request !in x.pending then x
      else
        var command := x.pending[request];
        x.(pending := x.pending - {request},
           replies := Answer(x.replies, command.ticket, if ok then Delivered(command.idempotencyKey) else Failed))
  }

  function Run(x: Link, history: seq<Happening>): Link
    decreases |history|
  {
    if history == [] then x else Next(Run(x, history[..|history| - 1]), history[|history| - 1])
  }

  // ----- Exactly one reply -----

  ghost predicate Enabled(x: Link, h: Happening) {
    h.Taken? ==> h.request !in x.issued && forall r <- x.issued :: x.issued[r].command.ticket != h.command.ticket
  }

  ghost predicate Possible(x: Link, history: seq<Happening>)
    decreases |history|
  {
    history == [] ||
    (&& Possible(x, history[..|history| - 1])
     && Enabled(Run(x, history[..|history| - 1]), history[|history| - 1]))
  }

  /** The request got an ok response on its own connection. */
  ghost predicate Confirmed(x: Link, r: RequestId)
    requires r in x.issued
  {
    (x.issued[r].connection, r) in x.okFrames
  }

  ghost predicate Settled(x: Link, r: RequestId)
    requires r in x.issued
  {
    var command := x.issued[r].command;
    && Count(x.replies, command.ticket) == 1
    && command.ticket in x.replies.last
    && (x.replies.last[command.ticket] == Failed
        || (x.replies.last[command.ticket] == Delivered(command.idempotencyKey) && Confirmed(x, r)))
  }

  ghost predicate Waiting(x: Link, r: RequestId)
    requires r in x.issued
  {
    && r in x.pending && x.pending[r] == x.issued[r].command
    && x.issued[r].connection == x.connection
    && Count(x.replies, x.issued[r].command.ticket) == 0
  }

  ghost predicate WasTaken(issued: map<RequestId, Issue>, t: Ticket) {
    exists r <- issued :: issued[r].command.ticket == t
  }

  /** Every command taken is either waiting on the current connection, unanswered, or answered exactly once. */
  ghost predicate LinkOk(x: Link) {
    && (forall r <- x.pending :: r in x.issued)
    && (forall r, s :: r in x.issued && s in x.issued && r != s ==>
        x.issued[r].command.ticket != x.issued[s].command.ticket)
    && (forall r <- x.issued :: if r in x.pending then Waiting(x, r) else Settled(x, r))
    && (forall t <- x.replies.count :: WasTaken(x.issued, t))
    && (forall r <- x.issued :: x.issued[r].connection <= x.connection)
  }

  lemma PendingForOne(x: Link, r: RequestId)
    requires LinkOk(x) && r in x.issued
    ensures PendingFor(x.pending, x.issued[r].command.ticket) == if r in x.pending then {r} else {}
  {
    forall s | s in PendingFor(x.pending, x.issued[r].command.ticket) ensures s == r {
      assert Waiting(x, s);
    }
    if r in x.pending {
      assert Waiting(x, r);
    }
  }

  lemma EndKeepsOk(x: Link)
    requires LinkOk(x)
    ensures LinkOk(Next(x, Ended))
  {
    var next := Next(x, Ended);
    forall r | r in x.issued ensures Settled(next, r) {
      PendingForOne(x, r);
      if r in x.pending {
        assert Waiting(x, r);
        assert x.pending[r].ticket in Tickets(x.pending);
      } else {
        assert Settled(x, r);
      }
    }
  }

  lemma ResponseKeepsOk(x: Link, request: RequestId, ok: bool)
    requires LinkOk(x)
    ensures LinkOk(Next(x, Response(request, ok)))
  {
    var next := Next(x, Response(request, ok));
    if request in x.pending {
      assert Waiting(x, request);
    }
    forall r | r in x.issued ensures if r in next.pending then Waiting(next, r) else Settled(next, r) {
      assert if r in x.pending then Waiting(x, r) else Settled(x, r);
    }
  }

  lemma TakenStays(issued: map<RequestId, Issue>, request: RequestId, issue: Issue)
    requires request !in issued
    ensures forall t :: WasTaken(issued, t) || t == issue.command.ticket ==> WasTaken(issued[request := issue], t)
  {
    var more := issued[request := issue];
    forall t | WasTaken(issued, t) || t == issue.command.ticket ensures WasTaken(more, t) {
      if t == issue.command.ticket {
        assert more[request].command.ticket == t;
      } else {
        var r :| r in issued && issued[r].command.ticket == t;
        assert more[r].command.ticket == t;
      }
    }
  }

  lemma WrittenKeepsOk(x: Link, command: Command, request: RequestId)
    requires LinkOk(x) && Enabled(x, Taken(command, request, true))
    ensures LinkOk(Next(x, Taken(command, request, true)))
  {
    var next := Next(x, Taken(command, request, true));
    TakenStays(x.issued, request, Issue(command, x.connection));
    assert !WasTaken(x.issued, command.ticket);
    forall r | r in next.issued ensures if r in next.pending then Waiting(next, r) else Settled(next, r) {
      if r != request {
        assert if r in x.pending then Waiting(x, r) else Settled(x, r);
      }
    }
  }

  /** A command whose frame cannot be written is answered at once, and the connection ends. */
  lemma UnwrittenKeepsOk(x: Link, command: Command, request: RequestId)
    requires LinkOk(x) && Enabled(x, Taken(command, request, false))
    ensures LinkOk(Next(x, Taken(command, request, false)))
  {
    hide Dropped, Answer, LinkOk;
    var answered := AnsweredAtOnce(x, command, request);
    AnsweredKeepsOk(x, command, request);
    EndKeepsOk(answered);
    assert Next(answered, Ended) == Next(x, Taken(command, request, false));
  }

  ghost function AnsweredAtOnce(x: Link, command: Command, request: RequestId): Link {
    x.(issued := x.issued[request := Issue(command, x.connection)],
       replies := Answer(x.replies, command.ticket, Failed))
  }

  lemma AnsweredKeepsOk(x: Link, command: Command, request: RequestId)
    requires LinkOk(x) && Enabled(x, Taken(command, request, false))
    ensures LinkOk(AnsweredAtOnce(x, command, request))
  {
    var answered := AnsweredAtOnce(x, command, request);
    TakenStays(x.issued, request, Issue(command, x.connection));
    assert !WasTaken(x.issued, command.ticket);
    assert Count(x.replies, command.ticket) == 0;
    forall r | r in answered.issued
      ensures if r in answered.pending then Waiting(answered, r) else Settled(answered, r)
    {
      if r != request {
        assert if r in x.pending then Waiting(x, r) else Settled(x, r);
      }
    }
  }

  lemma {:induction false} EveryHistoryKeepsOk(history: seq<Happening>)
    requires Possible(FRESH, history)
    ensures LinkOk(Run(FRESH, history))
    decreases |history|
  {
    if history != [] {
      var before, h := Run(FRESH, history[..|history| - 1]), history[|history| - 1];
      EveryHistoryKeepsOk(history[..|history| - 1]);
      match h
      case OtherFrame =>
      case Ended => EndKeepsOk(before);
      case Response(request, ok) => ResponseKeepsOk(before, request, ok);
      case Taken(command, request, written) =>
        if written {
          WrittenKeepsOk(before, command, request);
        } else {
          UnwrittenKeepsOk(before, command, request);
        }
    }
  }

  /** Over any history that ends its last connection, every command taken was answered exactly once; with
      success only if its own request got an ok response on the connection it was sent on, and then with its
      own idempotency key. */
  lemma ExactlyOneReply(history: seq<Happening>, request: RequestId)
    requires Possible(FRESH, history) && history != [] && history[|history| - 1] == Ended
    requires request in Run(FRESH, history).issued
    ensures var x := Run(FRESH, history);
      var command := x.issued[request].command;
      && Count(x.replies, command.ticket) == 1
      && command.ticket in x.replies.last
      && (x.replies.last[command.ticket].Delivered? ==>
            x.replies.last[command.ticket].idempotencyKey == command.idempotencyKey && Confirmed(x, request))
  {
    EveryHistoryKeepsOk(history);
    assert Settled(Run(FRESH, history), request);
  }

  // ----- Which reply -----

  /** A happening that ends the connection. */
  predicate Ends(h: Happening) {
    h.Ended? || (h.Taken? && !h.written)
  }

  predicate Answers(h: Happening, request: RequestId) {
    h.Response? && h.request == request
  }

  /** Nothing between two positions answers the request or ends its connection. */
  ghost predicate Open(history: seq<Happening>, i: nat, j: nat, request: RequestId)
    requires j <= |history|
  {
    forall k :: i < k < j ==> !Answers(history[k], request) && !Ends(history[k])
  }

  /** The first response to the command taken at one position stands at another, on the same connection, and is ok. */
  ghost predicate OkAt(history: seq<Happening>, i: nat, j: nat) {
    && i < j < |history| && history[i].Taken? && history[i].written
    && history[j] == Response(history[i].request, true)
    && Open(history, i, j, history[i].request)
  }

  ghost predicate Succeeds(history: seq<Happening>, i: nat) {
    exists j: nat :: OkAt(history, i, j)
  }

  /** What the command taken at a position can expect: still waiting exactly while its connection is open and no
      response came; else answered, with success exactly when the first response was ok. */
  ghost predicate Fate(history: seq<Happening>, i: nat, x: Link)
    requires i < |history| && history[i].Taken?
  {
    var Taken(command, request, written) := history[i];
    && request in x.issued && x.issued[request].command == command
    && (request in x.pending <==> written && Open(history, i, |history|, request))
    && (request !in x.pending ==>
          && command.ticket in x.replies.last
          && x.replies.last[command.ticket] == if Succeeds(history,
                                                           i) then Delivered(command.idempotencyKey) else Failed)
  }

  lemma OpenGrows(front: seq<Happening>, h: Happening, i: nat, request: RequestId)
    requires i < |front|
    ensures Open(front + [h], i, |front| + 1, request)
      <==> Open(front, i, |front|, request) && !Answers(h, request) && !Ends(h)
  {
    var history := front + [h];
    if Open(front, i, |front|, request) && !Answers(h, request) && !Ends(h) {
      forall k | i < k < |history| ensures !Answers(history[k], request) && !Ends(history[k]) {
        if k < |front| {
          assert history[k] == front[k];
        }
      }
    }
    if Open(history, i, |history|, request) {
      forall k | i < k < |front| ensures !Answers(front[k], request) && !Ends(front[k]) {
        assert history[k] == front[k];
      }
      assert history[|front|] == h;
    }
  }

  lemma SuccessGrows(front: seq<Happening>, h: Happening, i: nat)
    requires i < |front| && front[i].Taken?
    ensures Succeeds(front + [h], i) <==>
      || Succeeds(front, i)
      || (front[i].written && h == Response(front[i].request, true) && Open(front, i, |front|, front[i].request))
  {
    var history := front + [h];
    forall j: nat | j < |front| ensures OkAt(history, i, j) <==> OkAt(front, i, j) {
      assert forall k :: i < k < j ==> history[k] == front[k];
    }
    assert history[i] == front[i] && history[|front|] == h;
    assert forall k :: i < k < |front| ==> history[k] == front[k];
    if Succeeds(history, i) {
      var j: nat :| OkAt(history, i, j);
      assert j < |front| ==> OkAt(front, i, j);
    }
    if Succeeds(front, i) {
      var j: nat :| OkAt(front, i, j);
      assert OkAt(history, i, j);
    }
    if front[i].written && h == Response(front[i].request, true) && Open(front, i, |front|, front[i].request) {
      assert OkAt(history, i, |front|);
    }
  }

  /** After its first response, or the end of its connection, a command can no longer succeed. */
  lemma NoSuccessWhileOpen(history: seq<Happening>, i: nat)
    requires i < |history| && history[i].Taken? && Open(history, i, |history|, history[i].request)
    ensures !Succeeds(history, i)
  {
    forall j: nat ensures !OkAt(history, i, j) {
      assert i < j < |history| ==> !Answers(history[j], history[i].request);
    }
  }

  /** A happening answers no command but one that waits, or the one it takes. */
  lemma OthersKeepTheirReply(x: Link, h: Happening, r: RequestId)
    requires LinkOk(x) && Enabled(x, h) && r in x.issued && r !in x.pending
    ensures var next := Next(x, h);
      && r in next.issued && next.issued[r] == x.issued[r] && r !in next.pending
      && x.issued[r].command.ticket in next.replies.last
      && next.replies.last[x.issued[r].command.ticket] == x.replies.last[x.issued[r].command.ticket]
  {
    assert Settled(x, r);
    var t := x.issued[r].command.ticket;
    forall s | s in x.pending ensures x.pending[s].ticket != t {
      assert Waiting(x, s);
    }
    if h.Response? && h.request in x.pending {
      assert Waiting(x, h.request);
    }
  }

  /** A command that waits goes on waiting, or is answered as the happening says. */
  lemma WaitingIsAnswered(x: Link, h: Happening, r: RequestId)
    requires LinkOk(x) && Enabled(x, h) && r in x.pending
    ensures var next, command := Next(x, h), x.pending[r];
      && r in next.issued && r in x.issued && x.issued[r].command == command && next.issued[r].command == command
      && (r in next.pending <==> !Answers(h, r) && !Ends(h))
      && (r !in next.pending ==>
            && command.ticket in next.replies.last
            && next.replies.last[command.ticket]
               == if h == Response(r, true) then Delivered(command.idempotencyKey) else Failed)
  {
    assert Waiting(x, r);
    assert x.pending[r].ticket in Tickets(x.pending);
  }

  lemma TakenNow(x: Link, h: Happening)
    requires LinkOk(x) && Enabled(x, h) && h.Taken?
    ensures var next := Next(x, h);
      && h.request in next.issued && next.issued[h.request].command == h.command
      && (h.request in next.pending <==> h.written)
      && (!h.written ==> h.command.ticket in next.replies.last && next.replies.last[h.command.ticket] == Failed)
  {
    assert h.request !in x.pending;
  }

  lemma FateFollows(front: seq<Happening>, h: Happening, i: nat, x: Link)
    requires i < |front| && front[i].Taken? && LinkOk(x) && Enabled(x, h) && Fate(front, i, x)
    ensures Fate(front + [h], i, Next(x, h))
  {
    var Taken(command, request, written) := front[i];
    OpenGrows(front, h, i, request);
    SuccessGrows(front, h, i);
    if request in x.pending {
      assert Waiting(x, request);
      WaitingIsAnswered(x, h, request);
      NoSuccessWhileOpen(front, i);
    } else {
      OthersKeepTheirReply(x, h, request);
    }
    hide LinkOk, Next, Open, Succeeds, Enabled;
  }

  lemma FateBegins(front: seq<Happening>, h: Happening, x: Link)
    requires LinkOk(x) && Enabled(x, h) && h.Taken?
    ensures Fate(front + [h], |front|, Next(x, h))
  {
    TakenNow(x, h);
    var history := front + [h];
    assert Open(history, |front|, |history|, h.request);
    NoSuccessWhileOpen(history, |front|);
    hide LinkOk, Next, Enabled;
  }

  lemma {:induction false} EveryCommandHasItsFate(history: seq<Happening>, i: nat)
    requires Possible(FRESH, history) && i < |history| && history[i].Taken?
    ensures Fate(history, i, Run(FRESH, history))
    decreases |history|
  {
    var front, h := history[..|history| - 1], history[|history| - 1];
    assert history == front + [h];
    EveryHistoryKeepsOk(front);
    hide LinkOk, Next, Fate, Enabled;
    if i < |front| {
      EveryCommandHasItsFate(front, i);
      FateFollows(front, h, i, Run(FRESH, front));
    } else {
      FateBegins(front, h, Run(FRESH, front));
    }
  }

  /** A command that is answered is answered with success, and its own idempotency key, exactly when the first
      response to it after it was taken, and before its connection ended, is ok; it is answered exactly when there
      was a response, or the connection ended, or its frame could not be written. */
  lemma SuccessIffOkResponse(history: seq<Happening>, i: nat)
    requires Possible(FRESH, history) && i < |history| && history[i].Taken?
    ensures var x, command := Run(FRESH, history), history[i].command;
      && (Count(x.replies, command.ticket) == 0
          <==> history[i].written && Open(history, i, |history|, history[i].request))
      && (Count(x.replies, command.ticket) > 0 ==>
            && Count(x.replies, command.ticket) == 1 && command.ticket in x.replies.last
            && x.replies.last[command.ticket]
               == if exists j: nat :: OkAt(history, i, j) then Delivered(command.idempotencyKey) else Failed)
  {
    EveryCommandHasItsFate(history, i);
    EveryHistoryKeepsOk(history);
    var x, request := Run(FRESH, history), history[i].request;
    assert request in x.issued && (if request in x.pending then Waiting(x, request) else Settled(x, request));
    hide LinkOk, Run, Open;
  }

  // ----- The object -----

  class PendingReplies {
    var connection: nat
    var pending: map<RequestId, Command>
    var replies: Replies
    ghost var issued: map<RequestId, Issue>
    ghost var okFrames: set<(nat, RequestId)>

    ghost function View(): Link
      reads this
    {
      Link(connection, pending, replies, issued, okFrames)
    }

    constructor ()
      ensures View() == FRESH
    {
      connection, pending, replies := 0, map[], Replies(map[], map[]);
      issued, okFrames := map[], {};
    }

    /** Drop every pending reply channel, in whatever order the map yields them. */
    method FailPending()
      modifies `pending, `replies
      ensures pending == map[] && replies == Dropped(old(replies), old(pending))
    {
      hide Dropped, Answer;
      ghost var dropped: map<RequestId, Command> := map[];
      DropNothing(replies);
      while pending != map[]
        invariant dropped.Keys !! pending.Keys && dropped + pending == old(pending)
        invariant replies == Dropped(old(replies), dropped)
        decreases pending.Keys
      {
        var r :| r in pending;
        MoveOne(dropped, pending, r);
        DropOneMore(old(replies), dropped, r, pending[r]);
        replies := Answer(replies, pending[r].ticket, Failed);
        dropped := dropped[r := pending[r]];
        pending := pending - {r};
      }
      assert dropped == old(pending);
    }

    method End()
      modifies this
      ensures View() == Next(old(View()), Ended)
    {
      FailPending();
      connection := connection + 1;
    }

    method Send(command: Command, request: RequestId, written: bool)
      modifies this
      ensures View() == Next(old(View()), Taken(command, request, written))
    {
      issued := issued[request := Issue(command, connection)];
      if !written {
        replies := Answer(replies, command.ticket, Failed);
        End();
        return;
      }
      pending := pending[request := command];
    }

    method Receive(request: RequestId, ok: bool)
      modifies this
      ensures View() == Next(old(View()), Response(request, ok))
    {
      okFrames := if ok then okFrames + {(connection, request)} else okFrames;
      if request in pending {
        var command := pending[request];
        pending := pending - {request};
        if ok {
          replies := Answer(replies, command.ticket, Delivered(command.idempotencyKey));
        } else {
          replies := Answer(replies, command.ticket, Failed);
        }
      }
    }

    method Serve(history: seq<Happening>)
      modifies this
      ensures View() == Run(old(View()), history)
      ensures old(View()) == FRESH && Possible(FRESH, history) ==> LinkOk(View())
    {
      hide Next;
      for i := 0 to |history|
        invariant View() == Run(old(View()), history[..i])
      {
        assert history[..i + 1][..i] == history[..i];
        ServeOne(history[i]);
      }
      assert history[..|history|] == history;
      if old(View()) == FRESH && Possible(FRESH, history) {
        EveryHistoryKeepsOk(history);
      }
    }

    method ServeOne(h: Happening)
      modifies this
      ensures View() == Next(old(View()), h)
    {
      match h
      case OtherFrame =>
      case Ended => End();
      case Taken(command, request, written) => Send(command, request, written);
      case Response(request, ok) => Receive(request, ok);
    }
  }

  lemma DropNothing(replies: Replies)
    ensures Dropped(replies, map[]) == replies
  {
    forall t ensures PendingFor(map[], t) == {} {}
  }

  lemma PendingForOneMore(dropped: map<RequestId, Command>, r: RequestId, command: Command, t: Ticket)
    requires r !in dropped
    ensures PendingFor(dropped[r := command], t) == PendingFor(dropped, t) + (if t == command.ticket then {r} else {})
    ensures |PendingFor(dropped[r := command], t)| == |PendingFor(dropped, t)| + (if t == command.ticket then 1 else 0)
    ensures t !in Tickets(dropped) ==> PendingFor(dropped, t) == {}
  {
    assert PendingFor(dropped[r := command], t) == PendingFor(dropped, t) + (if t == command.ticket then {r} else {});
  }

  lemma TicketsOneMore(dropped: map<RequestId, Command>, r: RequestId, command: Command)
    requires r !in dropped
    ensures Tickets(dropped[r := command]) == Tickets(dropped) + {command.ticket}
  {
    var more := dropped[r := command];
    assert r in more && more[r].ticket == command.ticket;
    forall t | t in Tickets(dropped) ensures t in Tickets(more) {
      var s :| s in dropped && dropped[s].ticket == t;
      assert s in more && more[s].ticket == t;
    }
  }

  lemma DropOneMore(replies: Replies, dropped: map<RequestId, Command>, r: RequestId, command: Command)
    requires r !in dropped
    ensures Dropped(replies, dropped[r := command]) == Answer(Dropped(replies, dropped), command.ticket, Failed)
  {
    CountOneMore(replies, dropped, r, command);
    LastOneMore(replies, dropped, r, command);
  }

  lemma CountOneMore(replies: Replies, dropped: map<RequestId, Command>, r: RequestId, command: Command)
    requires r !in dropped
    ensures Dropped(replies, dropped[r := command]).count
         == Answer(Dropped(replies, dropped), command.ticket, Failed).count
  {
    hide PendingFor, Tickets;
    TicketsOneMore(dropped, r, command);
    var a := Dropped(replies, dropped[r := command]).count;
    var b := Answer(Dropped(replies, dropped), command.ticket, Failed).count;
    assert a.Keys == b.Keys;
    forall t | t in a ensures a[t] == b[t] {
      PendingForOneMore(dropped, r, command, t);
    }
  }

  lemma LastOneMore(replies: Replies, dropped: map<RequestId, Command>, r: RequestId, command: Command)
    requires r !in dropped
    ensures Dropped(replies, dropped[r := command]).last
         == Answer(Dropped(replies, dropped), command.ticket, Failed).last
  {
    hide PendingFor, Tickets;
    TicketsOneMore(dropped, r, command);
    var a := Dropped(replies, dropped[r := command]).last;
    var b := Answer(Dropped(replies, dropped), command.ticket, Failed).last;
    assert a.Keys == b.Keys;
    forall t | t in a ensures a[t] == b[t] {
    }
  }

  lemma MoveOne(dropped: map<RequestId, Command>, pending: map<RequestId, Command>, r: RequestId)
    requires r in pending && dropped.Keys !! pending.Keys
    ensures dropped[r := pending[r]].Keys !! (pending - {r}).Keys
    ensures dropped[r := pending[r]] + (pending - {r}) == dropped + pending
  {
  }
}
