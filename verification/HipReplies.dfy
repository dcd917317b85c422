/**
 What the callers of a HIP session may rely on: which reply reaches whom, with
 and without purges of the waiters.
 */
module HipReplies {
  import opened Common
  import opened Bytes
  import opened HipRouting
  import opened HipRoutingSteps

  /**
   Whatever fails: a reply handed to a CHECK or upload caller answers that
   caller's own request, and no reply reaches two callers.
   */
  lemma RepliesReachTheirOwnCaller(trace: seq<State>, steps: seq<Step>)
    requires IsRun(trace, steps) && NoWrap(trace[|steps|].t)
    ensures var s := trace[|steps|];
            && (forall w :: 0 <= w < |s.calls| && s.calls[w].caller.Got? && s.calls[w].ticket.kind != Commit ==>
                 s.calls[w].caller.re == w)
            && (forall v, w :: 0 <= v < w < |s.calls| && s.calls[v].caller.Got? ==> s.calls[v].caller != s.calls[w].caller)
  {
    RunKeepsInv(trace, steps, |steps|);
  }

  /** A run may start anywhere; a purge-free one has no ERROR frame and no read failure. */
  ghost predicate IsPath(trace: seq<State>, steps: seq<Step>) {
    && |trace| == |steps| + 1
    && forall i :: 0 <= i < |steps| ==> Enabled(trace[i], steps[i]) && trace[i + 1] == Apply(trace[i], steps[i])
  }

  ghost predicate PurgeFree(steps: seq<Step>) { forall i :: 0 <= i < |steps| ==> !Purges(steps[i]) }

  ghost predicate Reachable(s: State) {
    exists trace: seq<State>, steps: seq<Step> :: IsRun(trace, steps) && trace[|steps|] == s
  }

  lemma ReachableInv(s: State)
    requires Reachable(s) && NoWrap(s.t)
    ensures Inv(s)
  {
    var trace: seq<State>, steps: seq<Step> :| IsRun(trace, steps) && trace[|steps|] == s;
    RunKeepsInv(trace, steps, |steps|);
  }

  lemma {:induction false} PathKeeps(trace: seq<State>, steps: seq<Step>, n: nat)
    requires IsPath(trace, steps) && PurgeFree(steps) && n <= |steps| && Inv(trace[0]) && NoWrap(trace[n].t)
    ensures Inv(trace[n]) && (NoStray(trace[0]) ==> NoStray(trace[n])) && trace[n].epoch == trace[0].epoch
  {
    if n > 0 {
      hide Inv, NoStray;
      assert NoWrap(trace[n - 1].t);
      PathKeeps(trace, steps, n - 1);
      StepKeepsInv(trace[n - 1], steps[n - 1]);
      if NoStray(trace[0]) { NoStrayKept(trace[n - 1], steps[n - 1]); }
    }
  }

  /** Every caller that has its reply has its own. */
  ghost predicate OwnReplies(s: State) { forall w :: 0 <= w < |s.calls| && s.calls[w].caller.Got? ==> s.calls[w].caller.re == w }

  lemma OwnRepliesKept(s: State, step: Step)
    requires Inv(s) && NoStray(s) && OwnReplies(s) && Enabled(s, step) && !Purges(step)
    ensures OwnReplies(Apply(s, step)) && (s.epoch == 0 ==> Apply(s, step).orphans == s.orphans)
  {
    hide Position, Issued, WaitersAreReal, WaitersAreKept, TicketsOk, RepliesOk, NoStray, Lookup, Remove, Registered, Deliver;
    if step.Dispatch? {
      DeliverShape(s, step.i);
      Finds(s, step.i);
    }
  }

  lemma {:induction false} QuietKeepsOwn(trace: seq<State>, steps: seq<Step>, n: nat)
    requires IsRun(trace, steps) && PurgeFree(steps) && n <= |steps| && NoWrap(trace[n].t)
    ensures Inv(trace[n]) && NoStray(trace[n]) && OwnReplies(trace[n]) && trace[n].epoch == 0 && trace[n].orphans == 0
  {
    if n > 0 {
      hide Inv, NoStray, OwnReplies;
      assert NoWrap(trace[n - 1].t);
      QuietKeepsOwn(trace, steps, n - 1);
      StepKeepsInv(trace[n - 1], steps[n - 1]);
      NoStrayKept(trace[n - 1], steps[n - 1]);
      OwnRepliesKept(trace[n - 1], steps[n - 1]);
    }
  }

  /**
   A run without ERROR frames and read failures: every reply reaches its own
   caller, COMMIT included, no reply is left without a waiter, and at most one
   COMMIT is outstanding.
   */
  lemma QuietSessionRoutesEverything(trace: seq<State>, steps: seq<Step>)
    requires IsRun(trace, steps) && NoWrap(trace[|steps|].t) && PurgeFree(steps)
    ensures var s := trace[|steps|];
            && s.orphans == 0
            && OwnReplies(s)
            && (forall i, j :: 0 <= i < j < |s.calls| ==> !(Outstanding(s.calls[i]) && Outstanding(s.calls[j])))
            && (forall i: nat :: Enabled(s, Dispatch(i)) ==> Lookup(s.t, s.calls[i].ticket) == Some(i))
  {
    var s := trace[|steps|];
    QuietKeepsOwn(trace, steps, |steps|);
    forall i: nat | Enabled(s, Dispatch(i)) ensures Lookup(s.t, s.calls[i].ticket) == Some(i) { Finds(s, i); }
  }

  /**
   With purges allowed: a CHECK or upload reply finds its own caller's waiter
   exactly when no purge came since that call registered, and none otherwise.
   */
  lemma ReplyFindsItsWaiterIff(s: State, i: nat)
    requires Reachable(s) && NoWrap(s.t) && Enabled(s, Dispatch(i)) && s.calls[i].ticket.kind != Commit
    ensures var found := Lookup(s.t, s.calls[i].ticket);
            && (found == Some(i) <==> s.calls[i].epoch == s.epoch)
            && (found == None <==> s.calls[i].epoch < s.epoch)
  {
    ReachableInv(s);
    Finds(s, i);
  }

  /** From here on, as long as nothing is purged, every COMMIT reply finds its own caller. */
  ghost predicate CommitsRouted(s: State) {
    forall trace: seq<State>, steps: seq<Step>, i: nat ::
      IsPath(trace, steps) && trace[0] == s && PurgeFree(steps) && NoWrap(trace[|steps|].t)
      && Enabled(trace[|steps|], Dispatch(i)) && trace[|steps|].calls[i].ticket.kind == Commit ==>
        Lookup(trace[|steps|].t, trace[|steps|].calls[i].ticket) == Some(i)
  }

  /**
   COMMIT replies carry no id, so they are routed by what is outstanding: in
   every continuation up to the next purge each finds its own caller if and
   only if there is no stray now.
   */
  lemma CommitsRoutedIff(s: State)
    requires Reachable(s) && NoWrap(s.t) && s.reading
    ensures CommitsRouted(s) <==> NoStray(s)
  {
    ReachableInv(s);
    if NoStray(s) {
      forall trace: seq<State>, steps: seq<Step>, i: nat |
        IsPath(trace, steps) && trace[0] == s && PurgeFree(steps) && NoWrap(trace[|steps|].t)
        && Enabled(trace[|steps|], Dispatch(i)) && trace[|steps|].calls[i].ticket.kind == Commit
        ensures Lookup(trace[|steps|].t, trace[|steps|].calls[i].ticket) == Some(i)
      {
        PathKeeps(trace, steps, |steps|);
        Finds(trace[|steps|], i);
      }
    } else {
      hide Inv;
      var i :| 0 <= i < |s.calls| && Outstanding(s.calls[i]) && s.t.commitWaiter != Some(i);
      var trace, steps := ToAck([s], [], i);
      assert Lookup(trace[|steps|].t, trace[|steps|].calls[i].ticket) == s.t.commitWaiter;
    }
  }

  lemma Grow(trace: seq<State>, steps: seq<Step>, step: Step) returns (trace': seq<State>, steps': seq<Step>)
    requires IsPath(trace, steps) && PurgeFree(steps) && Enabled(trace[|steps|], step) && !Purges(step)
    ensures IsPath(trace', steps') && PurgeFree(steps') && trace'[0] == trace[0]
    ensures trace'[|steps'|] == Apply(trace[|steps|], step)
  {
    trace', steps' := trace + [Apply(trace[|steps|], step)], steps + [step];
  }

  /** An outstanding request can always be sent, received and acknowledged. */
  lemma ToAck(trace0: seq<State>, steps0: seq<Step>, i: nat) returns (trace: seq<State>, steps: seq<Step>)
    requires IsPath(trace0, steps0) && PurgeFree(steps0)
    requires i < |trace0[|steps0|].calls| && Outstanding(trace0[|steps0|].calls[i])
    ensures IsPath(trace, steps) && PurgeFree(steps) && trace[0] == trace0[0]
    ensures trace[|steps|] == Move(trace0[|steps0|], i, AckOnWire)
  {
    hide Registered, Deliver, Purge, PurgeFree;
    var s := trace0[|steps0|];
    trace, steps := trace0, steps0;
    if trace[|steps|].calls[i].at == Unsent { trace, steps := Grow(trace, steps, Send(i)); }
    if trace[|steps|].calls[i].at == OnWire { trace, steps := Grow(trace, steps, ServerReceive(i)); }
    if trace[|steps|].calls[i].at == AtServer { trace, steps := Grow(trace, steps, ServerAck(i)); }
    assert trace[|steps|].calls == s.calls[i := s.calls[i].(at := AckOnWire)];
  }

  /** The slot is free or held by a COMMIT that will be answered; only a caller that gave up before sending blocks it for good. */
  predicate SlotWillClear(s: State) {
    s.t.commitWaiter.None? || (s.t.commitWaiter.value < |s.calls| && Outstanding(s.calls[s.t.commitWaiter.value]))
  }

  /** With the slot free, the next `commit` call is handed the stray's reply. */
  lemma NextGetsIt(trace0: seq<State>, steps0: seq<Step>, i: nat) returns (trace: seq<State>, steps: seq<Step>, w: nat)
    requires IsPath(trace0, steps0) && PurgeFree(steps0)
    requires var s := trace0[|steps0|]; s.reading && i < |s.calls| && Outstanding(s.calls[i]) && s.t.commitWaiter.None?
    ensures IsPath(trace, steps) && PurgeFree(steps) && trace[0] == trace0[0]
    ensures w != i && w < |trace[|steps|].calls| && trace[|steps|].calls[w].caller == Got(i)
  {
    hide PurgeFree;
    trace, steps := ToAck(trace0, steps0, i);
    w := |trace[|steps|].calls|;
    trace, steps := Grow(trace, steps, Register(Commit));
    trace, steps := Grow(trace, steps, Dispatch(i));
  }

  /**
   What a stray does: unless the slot is blocked for good there is a
   continuation without another purge in which some other caller is handed the
   stray's reply.
   */
  lemma StrayReachesAnother(s: State, i: nat) returns (trace: seq<State>, steps: seq<Step>, w: nat)
    requires s.reading && Stray(s, i) && SlotWillClear(s)
    ensures IsPath(trace, steps) && PurgeFree(steps) && trace[0] == s
    ensures w != i && w < |trace[|steps|].calls| && trace[|steps|].calls[w].caller == Got(i)
  {
    trace, steps := [s], [];
    if s.t.commitWaiter.None? {
      trace, steps, w := NextGetsIt(trace, steps, i);
    } else {
      w := s.t.commitWaiter.value;
      if s.calls[w].caller == Waiting {
        trace, steps := ToAck(trace, steps, i);
        trace, steps := Grow(trace, steps, Dispatch(i));
      } else {
        trace, steps := ToAck(trace, steps, w);
        trace, steps := Grow(trace, steps, Dispatch(w));
        trace, steps, w := NextGetsIt(trace, steps, i);
      }
    }
  }

  lemma Extend(trace: seq<State>, steps: seq<Step>, step: Step, s: State) returns (trace': seq<State>, steps': seq<Step>)
    requires IsRun(trace, steps) && Enabled(trace[|steps|], step) && Apply(trace[|steps|], step) == s
    ensures IsRun(trace', steps') && trace'[|steps'|] == s
  {
    trace', steps' := trace + [s], steps + [step];
  }

  /** One non-fatal ERROR frame during a COMMIT: the next `commit` call is handed the first one's reply. */
  lemma ErrorFrameMisroutesCommit() returns (trace: seq<State>, steps: seq<Step>)
    ensures IsRun(trace, steps)
    ensures var s := trace[|steps|]; |s.calls| == 2 && s.calls[1].caller == Got(0) && s.calls[0].caller == Waiting
  {
    var first := Ticket(Commit, 0);
    trace, steps := [FRESH], [];
    var t := EMPTY_TABLE.(commitWaiter := Some(0));
    trace, steps := Extend(trace, steps, Register(Commit), State(t, [Call(first, 0, Unsent, Waiting)], 0, 0, true));
    trace, steps := Extend(trace, steps, Send(0), State(t, [Call(first, 0, OnWire, Waiting)], 0, 0, true));
    trace, steps := Extend(trace, steps, ErrorFrame(false), State(EMPTY_TABLE, [Call(first, 0, OnWire, Waiting)], 1, 0, true));
    var t' := EMPTY_TABLE.(commitWaiter := Some(1));
    var second := Call(first, 1, Unsent, Waiting);
    trace, steps := Extend(trace, steps, Register(Commit), State(t', [Call(first, 0, OnWire, Waiting), second], 1, 0, true));
    trace, steps := Extend(trace, steps, ServerReceive(0), State(t', [Call(first, 0, AtServer, Waiting), second], 1, 0, true));
    trace, steps := Extend(trace, steps, ServerAck(0), State(t', [Call(first, 0, AckOnWire, Waiting), second], 1, 0, true));
    trace, steps := Extend(trace, steps, Dispatch(0),
      State(EMPTY_TABLE, [Call(first, 0, Dispatched, Waiting), second.(caller := Got(0))], 1, 0, true));
  }
}
