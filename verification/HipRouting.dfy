/**
 The request half of a HIP session (src/core/hip/client.rs): callers register
 a one-shot waiter under an id from a counter, the reader routes each reply by
 that id, COMMIT has a single slot because its reply carries no id, and an
 ERROR frame or a failed read drops every waiter.

 Requests and replies may overtake each other here, which includes every order
 the connection allows.  The server acknowledges a received request at most
 once.  A caller may give up at any time; its waiter then stays behind.  An id
 is drawn and registered in one step: nobody sees it in between, so a different
 order of the two only renames ids.
 */
module HipRouting {
  import opened Common
  import opened Bytes

  datatype Kind = Check | Upload | Commit

  datatype Ticket = Ticket(kind: Kind, id: nat)

  /** The counters and waiter tables behind the session's mutexes; a waiter is named by its caller. */
  datatype Table = Table(batches: nat, streams: nat,
                         checkWaiters: map<nat, nat>, uploadWaiters: map<nat, nat>, commitWaiter: Option<nat>)

  const EMPTY_TABLE := Table(0, 0, map[], map[], None)

  function Lookup(t: Table, k: Ticket): Option<nat> {
    match k.kind
    case Check => if k.id in t.checkWaiters then Some(t.checkWaiters[k.id]) else None
    case Upload => if k.id in t.uploadWaiters then Some(t.uploadWaiters[k.id]) else None
    case Commit => t.commitWaiter
  }

  function Remove(t: Table, k: Ticket): Table {
    match k.kind
    case Check => t.(checkWaiters := t.checkWaiters - {k.id})
    case Upload => t.(uploadWaiters := t.uploadWaiters - {k.id})
    case Commit => t.(commitWaiter := None)
  }

  function DropAll(t: Table): Table { t.(checkWaiters := map[], uploadWaiters := map[], commitWaiter := None) }

  /** The ticket the next request of this kind gets: `fetch_add` on counters that start at one and wrap. */
  function NextTicket(t: Table, kind: Kind): Ticket {
    match kind
    case Check => Ticket(Check, (t.batches + 1) % TWO64)
    case Upload => Ticket(Upload, (t.streams + 1) % TWO32)
    case Commit => Ticket(Commit, 0)
  }

  /** COMMIT is refused while its slot is taken; a CHECK or upload waiter replaces any under its id. */
  predicate Refused(t: Table, kind: Kind) { kind == Commit && t.commitWaiter.Some? }

  function Registered(t: Table, kind: Kind, caller: nat): Table {
    var id := NextTicket(t, kind).id;
    match kind
    case Check => t.(batches := t.batches + 1, checkWaiters := t.checkWaiters[id := caller])
    case Upload => t.(streams := t.streams + 1, uploadWaiters := t.uploadWaiters[id := caller])
    case Commit => if t.commitWaiter.Some? then t else t.(commitWaiter := Some(caller))
  }

  /** What the reader task gets: a decoded frame, or a reason to stop. */
  datatype Incoming =
    | Ack(ticket: Ticket)
    | WindowUpdate
    | Ping(pongFails: bool)
    | Pong
    | ErrorReport(fatal: bool)
    | Undecodable
    | Unexpected
    | Unreadable

  /** The session's shared fields, changed in place. */
  class SessionInner {
    var batchId: nat
    var streamId: nat
    var checkWaiters: map<nat, nat>
    var uploadWaiters: map<nat, nat>
    var commitWaiter: Option<nat>

    ghost predicate Valid()
      reads this
    {
      batchId < TWO64 && streamId < TWO32
    }

    /** The fields stand for a table whose counters agree with them up to wrap-around. */
    ghost predicate Shows(t: Table)
      reads this
    {
      && batchId == (t.batches + 1) % TWO64 && streamId == (t.streams + 1) % TWO32
      && checkWaiters == t.checkWaiters && uploadWaiters == t.uploadWaiters && commitWaiter == t.commitWaiter
    }

    constructor ()
      ensures Valid() && Shows(EMPTY_TABLE)
    {
      batchId, streamId, checkWaiters, uploadWaiters, commitWaiter := 1, 1, map[], map[], None;
    }

    method RegisterCheck(caller: nat, ghost t: Table) returns (id: nat)
      requires Valid() && Shows(t)
      modifies this
      ensures Valid() && Shows(Registered(t, Check, caller)) && Ticket(Check, id) == NextTicket(t, Check)
    {
      id := batchId;
      batchId := (batchId + 1) % TWO64;
      checkWaiters := checkWaiters[id := caller];
    }

    method RegisterUpload(caller: nat, ghost t: Table) returns (id: nat)
      requires Valid() && Shows(t)
      modifies this
      ensures Valid() && Shows(Registered(t, Upload, caller)) && Ticket(Upload, id) == NextTicket(t, Upload)
    {
      id := streamId;
      streamId := (streamId + 1) % TWO32;
      uploadWaiters := uploadWaiters[id := caller];
    }

    method RegisterCommit(caller: nat, ghost t: Table) returns (ok: bool)
      requires Valid() && Shows(t)
      modifies this
      ensures Valid() && Shows(Registered(t, Commit, caller)) && ok == !Refused(t, Commit)
    {
      if commitWaiter.Some? {
        return false;
      }
      commitWaiter := Some(caller);
      ok := true;
    }

    /** One acknowledgement frame: take the waiter it names, if any. */
    method DispatchAck(k: Ticket, ghost t: Table) returns (waiter: Option<nat>)
      requires Valid() && Shows(t)
      modifies this
      ensures Valid() && Shows(Remove(t, k)) && waiter == Lookup(t, k)
    {
      match k.kind {
        case Check =>
          waiter := if k.id in checkWaiters then Some(checkWaiters[k.id]) else None;
          checkWaiters := checkWaiters - {k.id};
        case Upload =>
          waiter := if k.id in uploadWaiters then Some(uploadWaiters[k.id]) else None;
          uploadWaiters := uploadWaiters - {k.id};
        case Commit =>
          waiter := commitWaiter;
          commitWaiter := None;
      }
    }

    /**
     One round of the reader task, `dispatch_frame` and the purge when it or the
     read failed, is a step of the session: an acknowledgement is the dispatch
     of the call it answers, an ERROR frame and a failure are what their names
     say, and WINDOW, PONG and an answered PING leave everything as it was.
     */
    method ReadOne(f: Incoming, ghost s: State) returns (waiter: Option<nat>, reading: bool)
      requires Valid() && Shows(s.t) && s.reading
      modifies this
      ensures Valid()
      ensures f.Ack? ==> && reading && waiter == Lookup(s.t, f.ticket)
                         && (forall i: nat :: Enabled(s, Dispatch(i)) && s.calls[i].ticket == f.ticket ==>
                              Shows(Apply(s, Dispatch(i)).t))
      ensures f.Ack? ==> && (forall k :: k in checkWaiters <==> k in old(checkWaiters) && f.ticket != Ticket(Check, k))
                         && (forall k :: k in uploadWaiters <==> k in old(uploadWaiters) && f.ticket != Ticket(Upload, k))
                         && commitWaiter == if f.ticket.kind == Commit then None else old(commitWaiter)
      ensures f == WindowUpdate || f == Pong || f == Ping(false) ==>
                && reading && waiter == None && Shows(Apply(s, Chatter).t)
                && checkWaiters == old(checkWaiters) && uploadWaiters == old(uploadWaiters) && commitWaiter == old(commitWaiter)
      ensures f.ErrorReport? ==> && reading == !f.fatal == Apply(s, ErrorFrame(f.fatal)).reading && waiter == None
                                 && Shows(Apply(s, ErrorFrame(f.fatal)).t)
      ensures f == Undecodable || f == Unexpected || f == Unreadable || f == Ping(true) ==>
                !reading && waiter == None && Shows(Apply(s, ReadFails).t)
      ensures !reading || f.ErrorReport? ==> checkWaiters == map[] && uploadWaiters == map[] && commitWaiter == None
    {
      waiter, reading := None, true;
      match f {
        case Ack(k) => waiter := DispatchAck(k, s.t);
        case WindowUpdate =>
        case Ping(pongFails) => reading := !pongFails;
        case Pong =>
        case ErrorReport(fatal) =>
          FailAllWaiters(s.t);
          reading := !fatal;
        case _ => reading := false;
      }
      if !reading {
        FailAllWaiters(if f.ErrorReport? then DropAll(s.t) else s.t);
      }
    }

    method FailAllWaiters(ghost t: Table)
      requires Valid() && Shows(t)
      modifies this
      ensures Valid() && Shows(DropAll(t))
    {
      checkWaiters, uploadWaiters, commitWaiter := map[], map[], None;
    }
  }

  // ---------------------------------------------------------------- sessions

  datatype Where = Unsent | OnWire | AtServer | AckOnWire | Dispatched

  /** What the caller knows; `Got(re)` is the reply to request `re`. */
  datatype Caller = Waiting | Got(re: nat) | GaveUp | WasRefused

  /** One call of `check_batch`, `upload_stream` or `commit`; `epoch` counts the waiter purges before it. */
  datatype Call = Call(ticket: Ticket, epoch: nat, at: Where, caller: Caller)

  /** `epoch` counts the purges, `orphans` the replies that found no waiter. */
  datatype State = State(t: Table, calls: seq<Call>, epoch: nat, orphans: nat, reading: bool)

  datatype Step =
    | Register(kind: Kind)
    | Send(i: nat)
    | GiveUp(i: nat)
    | ServerReceive(i: nat)
    | ServerAck(i: nat)
    | Dispatch(i: nat)
    | Chatter                 // WINDOW, PONG, or a PING that was answered
    | ErrorFrame(fatal: bool)
    | ReadFails               // or an undecodable or unexpected frame, or a PONG that cannot be sent

  predicate Is(s: State, i: nat, at: Where) { i < |s.calls| && s.calls[i].at == at }

  predicate Enabled(s: State, step: Step) {
    match step
    case Register(_) => true
    case Send(i) => Is(s, i, Unsent) && (s.calls[i].caller == Waiting || s.calls[i].caller.Got?)
    case GiveUp(i) => i < |s.calls| && s.calls[i].caller == Waiting
    case ServerReceive(i) => Is(s, i, OnWire)
    case ServerAck(i) => Is(s, i, AtServer)
    case Dispatch(i) => s.reading && Is(s, i, AckOnWire)
    case Chatter => s.reading
    case ErrorFrame(_) => s.reading
    case ReadFails => s.reading
  }

  /** A COMMIT that is, or still may be put, on the wire and whose reply has not been read. */
  predicate Outstanding(c: Call) {
    c.ticket.kind == Commit && c.at != Dispatched && !(c.at == Unsent && (c.caller == GaveUp || c.caller == WasRefused))
  }

  predicate AnyOutstanding(calls: seq<Call>) { exists i :: 0 <= i < |calls| && Outstanding(calls[i]) }

  function Move(s: State, i: nat, at: Where): State
    requires i < |s.calls|
  {
    s.(calls := s.calls[i := s.calls[i].(at := at)])
  }

  /** The reply to call `i` goes to whichever caller's waiter is found; one that gave up ignores it. */
  function Deliver(s: State, i: nat): State
    requires i < |s.calls|
  {
    var k := s.calls[i].ticket;
    var d := Move(s, i, Dispatched).(t := Remove(s.t, k));
    match Lookup(s.t, k)
    case None => d.(orphans := d.orphans + 1)
    case Some(w) =>
      if w < |d.calls| && d.calls[w].caller == Waiting then d.(calls := d.calls[w := d.calls[w].(caller := Got(i))]) else d
  }

  function Purge(s: State, reading: bool): State {
    s.(t := DropAll(s.t), epoch := s.epoch + 1, reading := reading)
  }

  function Apply(s: State, step: Step): State
    requires Enabled(s, step)
  {
    match step
    case Register(kind) =>
      s.(t := Registered(s.t, kind, |s.calls|),
         calls := s.calls + [Call(NextTicket(s.t, kind), s.epoch, Unsent,
                                  if Refused(s.t, kind) then WasRefused else Waiting)])
    case Send(i) => Move(s, i, OnWire)
    case GiveUp(i) => s.(calls := s.calls[i := s.calls[i].(caller := GaveUp)])
    case ServerReceive(i) => Move(s, i, AtServer)
    case ServerAck(i) => Move(s, i, AckOnWire)
    case Dispatch(i) => Deliver(s, i)
    case Chatter => s
    case ErrorFrame(fatal) => Purge(s, !fatal)
    case ReadFails => Purge(s, false)
  }

  const FRESH := State(EMPTY_TABLE, [], 0, 0, true)

  ghost predicate IsRun(trace: seq<State>, steps: seq<Step>) {
    && |trace| == |steps| + 1
    && trace[0] == FRESH
    && forall i :: 0 <= i < |steps| ==> Enabled(trace[i], steps[i]) && trace[i + 1] == Apply(trace[i], steps[i])
  }

  /** No id counter has gone all the way round. */
  predicate NoWrap(t: Table) { t.batches < TWO64 && t.streams < TWO32 }

  // ---------------------------------------------------------------- invariant

  function Position(k: Ticket): int { if k.kind == Check then (k.id - 1) % TWO64 else (k.id - 1) % TWO32 }

  function Issued(t: Table, kind: Kind): nat { if kind == Check then t.batches else t.streams }

  /** Ids come from the counters and no two requests of a kind share one. */
  ghost predicate TicketsOk(t: Table, calls: seq<Call>) {
    && (forall i :: 0 <= i < |calls| && calls[i].ticket.kind != Commit ==>
         Position(calls[i].ticket) < Issued(t, calls[i].ticket.kind))
    && (forall i :: 0 <= i < |calls| && calls[i].ticket.kind == Commit ==> calls[i].ticket.id == 0)
    && (forall i, j :: 0 <= i < j < |calls| && calls[i].ticket.kind != Commit ==> calls[i].ticket != calls[j].ticket)
  }

  /** Every waiter belongs to a call of that ticket, registered since the last purge, whose reply is still to come. */
  ghost predicate WaitersAreReal(s: State) {
    forall k: Ticket :: Lookup(s.t, k).Some? && (k.kind == Commit ==> k.id == 0) ==>
      var w := Lookup(s.t, k).value;
      w < |s.calls| && s.calls[w].ticket == k && s.calls[w].at != Dispatched && s.calls[w].epoch == s.epoch
  }

  predicate Expecting(s: State, c: Call) { c.ticket.kind != Commit && c.at != Dispatched && c.epoch == s.epoch }

  /** Conversely such a call still has its waiter. */
  ghost predicate WaitersAreKept(s: State) {
    forall i :: 0 <= i < |s.calls| && Expecting(s, s.calls[i]) ==> Lookup(s.t, s.calls[i].ticket) == Some(i)
  }

  /** An outstanding COMMIT that is not in the slot: whoever is there next gets its reply. */
  predicate Stray(s: State, i: nat) { i < |s.calls| && Outstanding(s.calls[i]) && s.t.commitWaiter != Some(i) }

  ghost predicate NoStray(s: State) {
    forall i :: 0 <= i < |s.calls| && Outstanding(s.calls[i]) ==> s.t.commitWaiter == Some(i)
  }

  ghost predicate RepliesOk(s: State) {
    && (forall w :: 0 <= w < |s.calls| && s.calls[w].caller.Got? ==>
         var re := s.calls[w].caller.re;
         re < |s.calls| && s.calls[re].at == Dispatched && s.calls[re].ticket == s.calls[w].ticket)
    && (forall v, w :: 0 <= v < w < |s.calls| && s.calls[v].caller.Got? ==> s.calls[v].caller != s.calls[w].caller)
  }

  ghost predicate Inv(s: State) {
    && TicketsOk(s.t, s.calls)
    && WaitersAreReal(s)
    && WaitersAreKept(s)
    && RepliesOk(s)
    && (forall i :: 0 <= i < |s.calls| ==> s.calls[i].epoch <= s.epoch)
  }
}

/** Every step of a session keeps tickets, waiters and replies in order. */
module HipRoutingSteps {
  import opened Common
  import opened Bytes
  import opened HipRouting

  lemma RegisterTickets(s: State, kind: Kind)
    requires TicketsOk(s.t, s.calls) && NoWrap(Registered(s.t, kind, |s.calls|))
    ensures TicketsOk(Registered(s.t, kind, |s.calls|), Apply(s, Register(kind)).calls)
  {
    var k := NextTicket(s.t, kind);
    var t := Registered(s.t, kind, |s.calls|);
    assert kind != Commit ==> Position(k) == Issued(s.t, kind) < Issued(t, kind);
    assert kind != Commit ==> forall i :: 0 <= i < |s.calls| ==> s.calls[i].ticket != k;
  }

  /** Registering touches no waiter but its own. */
  lemma RegisterLookup(t: Table, kind: Kind, caller: nat, k: Ticket)
    requires k.kind == Commit ==> k.id == 0
    ensures Lookup(Registered(t, kind, caller), k) ==
            if k == NextTicket(t, kind) && !Refused(t, kind) then Some(caller) else Lookup(t, k)
  {
  }

  lemma RegisterWaiters(s: State, kind: Kind)
    requires Inv(s) && NoWrap(Registered(s.t, kind, |s.calls|))
    ensures var d := Apply(s, Register(kind)); WaitersAreReal(d) && WaitersAreKept(d)
  {
    assert NextTicket(s.t, kind).kind == kind && (kind == Commit ==> NextTicket(s.t, kind).id == 0);
    hide Lookup, Registered, NextTicket, RepliesOk, Position, Issued;
    var d := Apply(s, Register(kind));
    RegisterTickets(s, kind);
    forall k: Ticket | Lookup(d.t, k).Some? && (k.kind == Commit ==> k.id == 0)
      ensures var w := Lookup(d.t, k).value;
              w < |d.calls| && d.calls[w].ticket == k && d.calls[w].at != Dispatched && d.calls[w].epoch == d.epoch
    {
      RegisterLookup(s.t, kind, |s.calls|, k);
    }
    forall i | 0 <= i < |d.calls| && Expecting(d, d.calls[i]) ensures Lookup(d.t, d.calls[i].ticket) == Some(i) {
      RegisterLookup(s.t, kind, |s.calls|, d.calls[i].ticket);
    }
  }

  lemma RegisterKeeps(s: State, kind: Kind)
    requires Inv(s) && NoWrap(Registered(s.t, kind, |s.calls|))
    ensures Inv(Apply(s, Register(kind)))
  {
    hide TicketsOk, WaitersAreReal, WaitersAreKept, Lookup;
    RegisterTickets(s, kind);
    RegisterWaiters(s, kind);
  }

  lemma ForwardKeeps(s: State, i: nat, at: Where)
    requires Inv(s) && i < |s.calls| && s.calls[i].at != Dispatched && at != Dispatched
    requires at == OnWire && s.calls[i].at == Unsent ==> s.calls[i].caller == Waiting || s.calls[i].caller.Got?
    requires s.calls[i].at == Unsent ==> at == OnWire
    ensures Inv(Move(s, i, at))
  {
    hide Lookup, Position, Issued;
    var d := Move(s, i, at);
    assert TicketsOk(d.t, d.calls);
    assert RepliesOk(d);
  }

  lemma GiveUpKeeps(s: State, i: nat)
    requires Inv(s) && Enabled(s, GiveUp(i))
    ensures Inv(Apply(s, GiveUp(i)))
  {
    hide Lookup, Position, Issued;
  }

  lemma PurgeKeeps(s: State, reading: bool)
    requires Inv(s)
    ensures Inv(Purge(s, reading))
  {
    hide Position;
  }

  lemma RemoveLookup(t: Table, k: Ticket, j: Ticket)
    ensures Lookup(Remove(t, k), j) ==
            if j == k || j.kind == k.kind == Commit then None else Lookup(t, j)
  {
  }

  /** The waiter a reply finds: its own caller's, except that COMMIT replies carry no id. */
  lemma Finds(s: State, i: nat)
    requires Inv(s) && i < |s.calls| && s.calls[i].at == AckOnWire
    ensures var found := Lookup(s.t, s.calls[i].ticket);
            && (s.calls[i].ticket.kind != Commit ==> found == if s.calls[i].epoch == s.epoch then Some(i) else None)
            && (s.calls[i].ticket.kind == Commit && NoStray(s) ==> found == Some(i))
            && (s.calls[i].epoch < s.epoch ==> found != Some(i))
            && (found.Some? ==> found.value < |s.calls| && s.calls[found.value].ticket == s.calls[i].ticket)
  {
    hide Position, Issued, RepliesOk;
    var k := s.calls[i].ticket;
    assert k.kind == Commit ==> k.id == 0;
    assert k.kind == Commit ==> Outstanding(s.calls[i]);
    if Lookup(s.t, k).Some? {
      assert s.calls[Lookup(s.t, k).value].ticket == k;
    }
  }

  /** What a delivery changes, call by call. */
  ghost predicate Delivered(s: State, d: State, i: nat)
    requires i < |s.calls|
  {
    && d.t == Remove(s.t, s.calls[i].ticket) && d.epoch == s.epoch
    && d.orphans == s.orphans + (if Lookup(s.t, s.calls[i].ticket).None? then 1 else 0)
    && |d.calls| == |s.calls|
    && (forall j :: 0 <= j < |s.calls| ==>
         && d.calls[j].ticket == s.calls[j].ticket && d.calls[j].epoch == s.calls[j].epoch
         && d.calls[j].at == if j == i then Dispatched else s.calls[j].at)
    && (forall j :: 0 <= j < |s.calls| ==>
         d.calls[j].caller == if Lookup(s.t, s.calls[i].ticket) == Some(j) && s.calls[j].caller == Waiting then Got(i)
                              else s.calls[j].caller)
  }

  lemma DeliverShape(s: State, i: nat)
    requires i < |s.calls|
    ensures Delivered(s, Deliver(s, i), i)
  {
    hide Lookup, Remove;
  }

  lemma DeliverWaiters(s: State, d: State, i: nat)
    requires Inv(s) && i < |s.calls| && s.calls[i].at == AckOnWire && Delivered(s, d, i)
    ensures WaitersAreReal(d) && WaitersAreKept(d)
  {
    hide Lookup, Remove, Position, Issued, RepliesOk, NoStray;
    var k := s.calls[i].ticket;
    Finds(s, i);
    assert k.kind == Commit ==> k.id == 0;
    forall j: Ticket | Lookup(d.t, j).Some? && (j.kind == Commit ==> j.id == 0)
      ensures var w := Lookup(d.t, j).value;
              w < |d.calls| && d.calls[w].ticket == j && d.calls[w].at != Dispatched && d.calls[w].epoch == d.epoch
    {
      RemoveLookup(s.t, k, j);
    }
    forall j | 0 <= j < |d.calls| && Expecting(d, d.calls[j]) ensures Lookup(d.t, d.calls[j].ticket) == Some(j) {
      RemoveLookup(s.t, k, d.calls[j].ticket);
      assert Expecting(s, s.calls[j]);
    }
  }

  lemma DeliverReplies(s: State, d: State, i: nat)
    requires Inv(s) && i < |s.calls| && s.calls[i].at == AckOnWire && Delivered(s, d, i)
    ensures RepliesOk(d)
  {
    hide Lookup, Remove, Position, Issued, NoStray, WaitersAreReal, WaitersAreKept, TicketsOk;
    Finds(s, i);
    forall v, w | 0 <= v < w < |d.calls| && d.calls[v].caller.Got? ensures d.calls[v].caller != d.calls[w].caller {
      assert s.calls[v].caller.Got? ==> s.calls[s.calls[v].caller.re].at == Dispatched;
      assert s.calls[w].caller.Got? ==> s.calls[s.calls[w].caller.re].at == Dispatched;
    }
  }

  lemma DeliverTickets(s: State, d: State, i: nat)
    requires TicketsOk(s.t, s.calls) && i < |s.calls| && Delivered(s, d, i)
    ensures TicketsOk(d.t, d.calls)
  {
    hide Lookup, Position;
  }

  lemma DeliverKeeps(s: State, i: nat)
    requires Inv(s) && i < |s.calls| && s.calls[i].at == AckOnWire
    ensures Inv(Deliver(s, i))
  {
    hide Lookup, Remove, Deliver, TicketsOk, WaitersAreReal, WaitersAreKept, RepliesOk, NoStray;
    var d := Deliver(s, i);
    DeliverShape(s, i);
    DeliverTickets(s, d, i);
    DeliverWaiters(s, d, i);
    DeliverReplies(s, d, i);
    Finds(s, i);
  }

  predicate Purges(step: Step) { step.ErrorFrame? || step.ReadFails? }

  lemma DispatchLeavesNoStray(s: State, i: nat)
    requires Inv(s) && NoStray(s) && i < |s.calls| && s.calls[i].at == AckOnWire
    ensures NoStray(Deliver(s, i))
  {
    hide Position, Issued, WaitersAreReal, WaitersAreKept, TicketsOk, RepliesOk;
    DeliverShape(s, i);
    Finds(s, i);
    var d := Deliver(s, i);
    assert forall j :: 0 <= j < |d.calls| && Outstanding(d.calls[j]) ==> Outstanding(s.calls[j]);
  }

  /** Only a purge makes strays. */
  lemma NoStrayKept(s: State, step: Step)
    requires Inv(s) && NoStray(s) && Enabled(s, step) && !Purges(step)
    ensures NoStray(Apply(s, step))
  {
    hide Position, Issued, WaitersAreReal, WaitersAreKept, TicketsOk, RepliesOk, Deliver;
    if step.Dispatch? {
      DispatchLeavesNoStray(s, step.i);
    }
  }

  /** A purge leaves a stray exactly if a COMMIT is outstanding: something the reader could check. */
  lemma PurgeStraysIff(s: State, reading: bool)
    ensures NoStray(Purge(s, reading)) <==> !AnyOutstanding(s.calls)
  {
    if AnyOutstanding(s.calls) {
      var i :| 0 <= i < |s.calls| && Outstanding(s.calls[i]);
      assert Stray(Purge(s, reading), i);
    }
  }

  lemma StepKeepsInv(s: State, step: Step)
    requires Inv(s) && Enabled(s, step) && NoWrap(Apply(s, step).t)
    ensures Inv(Apply(s, step))
  {
    hide Inv, Deliver, Purge, AnyOutstanding;
    match step {
      case Register(kind) => RegisterKeeps(s, kind);
      case Send(i) => ForwardKeeps(s, i, OnWire);
      case GiveUp(i) => GiveUpKeeps(s, i);
      case ServerReceive(i) => ForwardKeeps(s, i, AtServer);
      case ServerAck(i) => ForwardKeeps(s, i, AckOnWire);
      case Dispatch(i) => DeliverKeeps(s, i);
      case Chatter =>
      case ErrorFrame(fatal) => PurgeKeeps(s, !fatal);
      case ReadFails => PurgeKeeps(s, false);
    }
  }

  lemma {:induction false} RunKeepsInv(trace: seq<State>, steps: seq<Step>, n: nat)
    requires IsRun(trace, steps) && n <= |steps| && NoWrap(trace[n].t)
    ensures Inv(trace[n])
  {
    if n > 0 {
      hide Inv;
      assert NoWrap(trace[n - 1].t);
      RunKeepsInv(trace, steps, n - 1);
      StepKeepsInv(trace[n - 1], steps[n - 1]);
    }
  }
}
