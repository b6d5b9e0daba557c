/** What overlapping workers can do to a completed message, and what one worker at a time cannot. */
module OverlappingWorkers {
  import opened Common
  import opened CaseLedger
  import opened ReplayWindow
  import opened AlertDelivery

  /** A worker that can still fail at message `i`: settling updates do not look at the row again. */
  predicate MayFail(c: Call, i: nat) { (c.Holding? || c.WorkFailed?) && c.index == i }

  ghost predicate Settled(s: System, i: nat) { forall p :: p in s.calls ==> !MayFail(s.calls[p], i) }

  ghost predicate IsCompleted(s: System, i: nat) { i < |s.db.messages| && s.db.messages[i].state == Completed }

  predicate AtWork(c: Call) { c.Holding? || c.WorkOpened? || c.WorkFailed? }

  /** Only a lease puts a worker to work. */
  lemma WhoIsAtWork(env: Env, s: System, a: AlertDelivery.Action, p: CallId)
    requires p in Next(env, s, a).calls && AtWork(Next(env, s, a).calls[p])
    ensures (p in s.calls && AtWork(s.calls[p])) || (a.LeaseStep? && a.call == p)
  {
    hide Ingest, Scoped, Admit, ParseAlert, Step, Bind, Enqueue, RecordDelivery, StoreDelivery, Lease;
  }

  /** And only on a row that is then leased. */
  lemma WhoMayFail(env: Env, s: System, a: AlertDelivery.Action, p: CallId, i: nat)
    requires p in Next(env, s, a).calls && MayFail(Next(env, s, a).calls[p], i)
    ensures (p in s.calls && MayFail(s.calls[p], i)) || (a.LeaseStep? && !IsCompleted(Next(env, s, a), i))
  {
    hide Ingest, Scoped, Admit, ParseAlert, Step, Bind, Enqueue, RecordDelivery, StoreDelivery;
  }

  /** Only a settling failure takes a completed row out of "complete". */
  lemma WhoReopens(env: Env, s: System, a: AlertDelivery.Action, i: nat)
    requires IsCompleted(s, i) && !IsCompleted(Next(env, s, a), i)
    ensures a.SettleStep? && a.call in s.calls && MayFail(s.calls[a.call], i)
  {
    hide Ingest, Scoped, Admit, ParseAlert, Step;
  }

  lemma SettledStays(env: Env, s: System, a: AlertDelivery.Action, i: nat)
    requires IsCompleted(s, i) && Settled(s, i)
    ensures IsCompleted(Next(env, s, a), i) && Settled(Next(env, s, a), i)
  {
    hide Next, IsCompleted;
    if !IsCompleted(Next(env, s, a), i) { WhoReopens(env, s, a, i); }
    forall p | p in Next(env, s, a).calls ensures !MayFail(Next(env, s, a).calls[p], i) {
      if MayFail(Next(env, s, a).calls[p], i) { WhoMayFail(env, s, a, p, i); }
    }
  }

  lemma {:induction false} SettledForGood(env: Env, s: System, actions: seq<AlertDelivery.Action>, i: nat)
    requires IsCompleted(s, i) && Settled(s, i)
    ensures IsCompleted(Play(env, s, actions), i)
    decreases |actions|
  {
    hide Next, Settled, IsCompleted;
    if actions != [] {
      SettledStays(env, s, actions[0], i);
      SettledForGood(env, Next(env, s, actions[0]), actions[1..], i);
    }
  }

  /** The run that spoils it: the worker fails, unless it has, and settles. */
  function LateFailure(p: CallId, c: Call): seq<AlertDelivery.Action> {
    if c.Holding? then [OpenStep(p, "", 0, true), SettleStep(p)] else [SettleStep(p)]
  }

  /** It puts the row back to pending, or to dead after a fifth attempt; the case stays linked. */
  lemma LateFailureReopens(env: Env, s: System, p: CallId, i: nat)
    requires IsCompleted(s, i) && p in s.calls && MayFail(s.calls[p], i)
    ensures var later := Play(env, s, LateFailure(p, s.calls[p])).db.messages;
            && i < |later| && later[i].caseId == s.db.messages[i].caseId
            && later[i].state == if s.calls[p].number >= MAX_ATTEMPTS then DeadLetter else Pending
  {
    hide Play, Ingest, Step, DoPost, DoDeliver, DoBind, DoEnqueue, DoLease, DoRecord, DoStore, DoComplete;
    if s.calls[p].Holding? {
      assert LateFailure(p, s.calls[p]) == [OpenStep(p, "", 0, true)] + ([SettleStep(p)] + []);
      PlayFirst(env, s, OpenStep(p, "", 0, true), [SettleStep(p)] + []);
      PlayFirst(env, Next(env, s, OpenStep(p, "", 0, true)), SettleStep(p), []);
      PlayNothing(env, Next(env, Next(env, s, OpenStep(p, "", 0, true)), SettleStep(p)));
    } else {
      assert LateFailure(p, s.calls[p]) == [SettleStep(p)] + [];
      PlayFirst(env, s, SettleStep(p), []);
      PlayNothing(env, Next(env, s, SettleStep(p)));
    }
  }

  lemma PlayNothing(env: Env, s: System)
    ensures Play(env, s, []) == s
  {}

  /** A completed message stays completed in every continuation exactly when no worker still holds one
      of its attempts or has failed at it without settling. */
  lemma CompletedIsFinalExactly(env: Env, s: System, i: nat)
    requires IsCompleted(s, i)
    ensures (forall actions :: IsCompleted(Play(env, s, actions), i)) <==> Settled(s, i)
  {
    hide Play;
    if Settled(s, i) {
      forall actions ensures IsCompleted(Play(env, s, actions), i) { SettledForGood(env, s, actions, i); }
    } else {
      var p :| p in s.calls && MayFail(s.calls[p], i);
      LateFailureReopens(env, s, p, i);
    }
  }

  // ---------------------------------------------------------------- one worker at a time

  /** In this run a worker leases a message only when none is at work; killed ones are not. */
  ghost predicate OneWorker(env: Env, s: System, actions: seq<AlertDelivery.Action>)
    decreases |actions|
  {
    actions == []
    || ((actions[0].LeaseStep? ==> forall p :: p in s.calls ==> !AtWork(s.calls[p]))
        && OneWorker(env, Next(env, s, actions[0]), actions[1..]))
  }

  /** At most one is at work, and not on a completed message. */
  ghost predicate Lone(s: System) {
    && (forall p, q :: p in s.calls && q in s.calls && AtWork(s.calls[p]) && AtWork(s.calls[q]) ==> p == q)
    && (forall p, i :: p in s.calls && MayFail(s.calls[p], i) ==> !IsCompleted(s, i))
  }

  /** Only a worker that opened the case completes its row, and it is then done. */
  lemma WhoCompletes(env: Env, s: System, a: AlertDelivery.Action, i: nat)
    requires IsCompleted(Next(env, s, a), i) && !IsCompleted(s, i)
    ensures a.SettleStep? && a.call in s.calls && s.calls[a.call].WorkOpened? && !AtWork(Next(env, s, a).calls[a.call])
  {
    hide Ingest, Scoped, Admit, ParseAlert, Step;
  }

  lemma LoneStays(env: Env, s: System, a: AlertDelivery.Action)
    requires Lone(s) && (a.LeaseStep? ==> forall p :: p in s.calls ==> !AtWork(s.calls[p]))
    ensures Lone(Next(env, s, a))
  {
    hide Next, IsCompleted;
    var t := Next(env, s, a);
    forall p, q | p in t.calls && q in t.calls && AtWork(t.calls[p]) && AtWork(t.calls[q]) ensures p == q {
      WhoIsAtWork(env, s, a, p);
      WhoIsAtWork(env, s, a, q);
    }
    forall p, i | p in t.calls && MayFail(t.calls[p], i) ensures !IsCompleted(t, i) {
      WhoMayFail(env, s, a, p, i);
      if IsCompleted(t, i) && !IsCompleted(s, i) { WhoCompletes(env, s, a, i); }
    }
  }

  lemma {:induction false} LoneAllAlong(env: Env, s: System, actions: seq<AlertDelivery.Action>)
    requires Lone(s) && OneWorker(env, s, actions)
    ensures Lone(Play(env, s, actions))
    decreases |actions|
  {
    hide Next, Lone;
    if actions != [] {
      LoneStays(env, s, actions[0]);
      LoneAllAlong(env, Next(env, s, actions[0]), actions[1..]);
    }
  }

  /** With one worker at a time, a message once complete stays complete, whatever happens next. */
  lemma CompletedIsFinalForOneWorker(env: Env, before: seq<AlertDelivery.Action>, more: seq<AlertDelivery.Action>,
                                     i: nat)
    requires OneWorker(env, START, before) && IsCompleted(Play(env, START, before), i)
    ensures IsCompleted(Play(env, Play(env, START, before), more), i)
  {
    hide Play, OneWorker;
    LoneAllAlong(env, START, before);
    CompletedIsFinalExactly(env, Play(env, START, before), i);
  }

  // ---------------------------------------------------------------- and two of them

  /** One post; a worker whose lease runs out while it is at work, and a second one that takes the
      message over; the second completes it and the first fails. */
  function PostSteps(config: Config, body: Body): seq<AlertDelivery.Action> {
    [Post(0, config, body, Request(0, 0, "nonce-of-first-1"), true), BindStep(0), EnqueueStep(0, 0)]
  }

  function LeaseTwice(config: Config): seq<AlertDelivery.Action> {
    [StartWork(1, config, 0), BindStep(1), LeaseStep(1, 0),
     StartWork(2, config, LEASE_SECONDS), BindStep(2), LeaseStep(2, 0)]
  }

  function FinishBoth(): seq<AlertDelivery.Action> {
    [OpenStep(2, "case", 0, false), SettleStep(2), OpenStep(1, "case", 0, true)]
  }

  function Overlap(config: Config, body: Body): seq<AlertDelivery.Action> {
    PostSteps(config, body) + LeaseTwice(config) + FinishBoth()
  }

  lemma PlayFirst(env: Env, s: System, a: AlertDelivery.Action, rest: seq<AlertDelivery.Action>)
    ensures Play(env, s, [a] + rest) == Play(env, Next(env, s, a), rest)
  {
    hide Next;
    assert ([a] + rest)[1..] == rest;
  }

  lemma {:induction false} PlayThen(env: Env, s: System, first: seq<AlertDelivery.Action>,
                                    more: seq<AlertDelivery.Action>)
    ensures Play(env, s, first + more) == Play(env, Play(env, s, first), more)
    decreases |first|
  {
    hide Next;
    if first == [] {
      assert first + more == more;
    } else {
      assert (first + more)[1..] == first[1..] + more;
      PlayThen(env, Next(env, s, first[0]), first[1..], more);
    }
  }

  lemma PlayThree(env: Env, s: System, a: AlertDelivery.Action, b: AlertDelivery.Action, c: AlertDelivery.Action)
    ensures Play(env, s, [a, b, c]) == Next(env, Next(env, Next(env, s, a), b), c)
  {
    hide Next;
    assert [a, b, c] == [a] + [b, c] && [b, c] == [b] + [c];
    PlayFirst(env, s, a, [b, c]);
    PlayFirst(env, Next(env, s, a), b, [c]);
    PlayFirst(env, Next(env, Next(env, s, a), b), c, []);
    assert [c] + [] == [c];
  }

  /** A message with no case yet, as posted. */
  ghost predicate OnePosted(env: Env, config: Config, body: Body, s: System) {
    && s.db.ledger == EMPTY && s.db.bound == Some(env.configSha(config)) && |s.db.messages| == 1
    && s.db.messages[0].state == Pending && s.db.messages[0].attempts == 0 && s.db.messages[0].body == body
    && s.calls.Keys == {0}
  }

  /** The call once the request is let in, and once it has bound. */
  function PostingCall(env: Env, config: Config, body: Body, bound: bool): Call
    requires Scoped(env, config, body).Some?
  {
    Posting(config, body, Scoped(env, config, body).value, Request(0, 0, "nonce-of-first-1"), bound)
  }

  lemma LetIn(env: Env, config: Config, body: Body)
    requires Scoped(env, config, body).Some?
    ensures DoPost(env, START, 0, config, body, Request(0, 0, "nonce-of-first-1"), true)
         == Move(START, 0, PostingCall(env, config, body, false))
  {
    hide Scoped;
  }

  lemma Stores(env: Env, config: Config, body: Body, s: System)
    requires Scoped(env, config, body).Some? && env.utf8(body)
    requires s.db == START.db.(bound := Some(env.configSha(config)))
    requires s.calls == map[0 := PostingCall(env, config, body, true)]
    ensures OnePosted(env, config, body, DoEnqueue(env, s, 0, 0))
  {
    hide Scoped;
  }

  lemma Posts(env: Env, config: Config, body: Body)
    requires Scoped(env, config, body).Some? && env.utf8(body)
    ensures OnePosted(env, config, body, Play(env, START, PostSteps(config, body)))
  {
    hide Play, Scoped, OnePosted, DoPost, DoEnqueue;
    PlayThree(env, START, Post(0, config, body, Request(0, 0, "nonce-of-first-1"), true), BindStep(0),
              EnqueueStep(0, 0));
    LetIn(env, config, body);
    Stores(env, config, body, DoBind(env, Move(START, 0, PostingCall(env, config, body, false)), 0));
  }

  lemma LeaseOnce(env: Env, config: Config, s: System, p: CallId, now: int)
    requires s.db.bound == Some(env.configSha(config)) && |s.db.messages| == 1 && p !in s.calls
    requires Eligible(s.db.messages[0], now) && s.db.messages[0].attempts < MAX_ATTEMPTS
    ensures var t := Play(env, s, [StartWork(p, config, now), BindStep(p), LeaseStep(p, 0)]);
            && t.db == s.db.(messages := [Lease(s.db.messages[0], now)])
            && t.calls == s.calls[p := Holding(config, 0, s.db.messages[0].attempts + 1)]
  {
    hide Play, DoPost, DoDeliver, DoEnqueue, DoOpen, DoSettle, DoRecord, DoStore, DoComplete, Step;
    PlayThree(env, s, StartWork(p, config, now), BindStep(p), LeaseStep(p, 0));
    assert Earliest(s.db.messages, now, 0);
  }

  /** Both workers hold the message, at its first and second attempt. */
  ghost predicate TwoHold(config: Config, body: Body, t: System) {
    && t.db.ledger == EMPTY && |t.db.messages| == 1
    && t.db.messages[0].attempts == 2 && t.db.messages[0].body == body
    && 1 in t.calls && t.calls[1] == Holding(config, 0, 1)
    && 2 in t.calls && t.calls[2] == Holding(config, 0, 2)
  }

  lemma LeasesTwice(env: Env, config: Config, body: Body, s: System)
    requires OnePosted(env, config, body, s)
    ensures var t := Play(env, s, LeaseTwice(config));
            TwoHold(config, body, t)
  {
    hide Play;
    var steps := LeaseTwice(config);
    var first, second := [steps[0], steps[1], steps[2]], [steps[3], steps[4], steps[5]];
    assert steps == first + second;
    PlayThen(env, s, first, second);
    LeaseOnce(env, config, s, 1, 0);
    LeaseOnce(env, config, Play(env, s, first), 2, LEASE_SECONDS);
  }

  lemma FirstIngest(env: Env, config: Config, body: Body)
    requires Scoped(env, config, body).Some?
    ensures var r := Ingest(env.keys, EMPTY, config.version, env.decode(body).value, config.scope, "case", 0);
            r.Ok? && r.value.1 == "case"
  {
    hide ParseAlert;
  }

  lemma FinishesBoth(env: Env, config: Config, body: Body, t: System)
    requires Scoped(env, config, body).Some?
    requires TwoHold(config, body, t)
    ensures var u := Play(env, t, FinishBoth());
            && |u.db.messages| == 1 && u.db.messages[0].state == Completed && u.db.messages[0].caseId == Some("case")
            && 1 in u.calls && u.calls[1] == WorkFailed(0, 1)
  {
    hide Play, Ingest, Step, ParseAlert, DoPost, DoDeliver, DoBind, DoEnqueue, DoLease, DoRecord, DoStore, DoComplete;
    FirstIngest(env, config, body);
    PlayThree(env, t, OpenStep(2, "case", 0, false), SettleStep(2), OpenStep(1, "case", 0, true));
  }

  /** So "complete" is not final once workers overlap: from any alert the inbox accepts there is a run
      that completes its message, with its case, and then puts it back to pending. */
  lemma CompletedCanReopen(env: Env, config: Config, body: Body)
    requires Scoped(env, config, body).Some? && env.utf8(body)
    ensures var u := Play(env, START, Overlap(config, body));
            var v := Next(env, u, SettleStep(1));
            && |u.db.messages| == 1 && u.db.messages[0].state == Completed && u.db.messages[0].caseId == Some("case")
            && |v.db.messages| == 1 && v.db.messages[0].state == Pending && v.db.messages[0].caseId == Some("case")
  {
    hide Play, Scoped, PostSteps, LeaseTwice, FinishBoth;
    var first, second := PostSteps(config, body), LeaseTwice(config);
    PlayThen(env, START, first + second, FinishBoth());
    PlayThen(env, START, first, second);
    Posts(env, config, body);
    var s := Play(env, START, first);
    LeasesTwice(env, config, body, s);
    FinishesBoth(env, config, body, Play(env, s, second));
  }
}
