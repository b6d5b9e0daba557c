/** The nonce table of the alert gateway as a function of its two constants: how far a timestamp may
    be from the clock, and how long a nonce is kept. */
module ReplayWindow {
  import opened Common

  datatype Request = Request(now: int, timestamp: int, nonce: string)

  /** The table, and the accepted requests in order. */
  datatype Window = Window(seen: map<string, int>, accepted: seq<Request>)

  const EMPTY_WINDOW: Window := Window(map[], [])

  predicate InSkew(r: Request, skew: int) { r.now - r.timestamp <= skew && r.timestamp - r.now <= skew }

  predicate NonceChar(c: char) {
    'A' <= c <= 'Z' || 'a' <= c <= 'z' || '0' <= c <= '9' || c == '.' || c == '_' || c == '-'
  }

  /** What `NONCE` accepts. */
  predicate ValidNonce(nonce: string) { 16 <= |nonce| <= 128 && forall i :: 0 <= i < |nonce| ==> NonceChar(nonce[i]) }

  function Purge(seen: map<string, int>, before: int): map<string, int> {
    map n | n in seen && seen[n] >= before :: seen[n]
  }

  /** One atomic request: reject, or purge and insert. */
  function Admit(w: Window, r: Request, skew: int, retention: int): Option<Window> {
    if !InSkew(r, skew) || !ValidNonce(r.nonce) || r.nonce in Purge(w.seen, r.now - retention) then None
    else Some(Window(Purge(w.seen, r.now - retention)[r.nonce := r.now], w.accepted + [r]))
  }

  function RunRequests(w: Window, rs: seq<Request>, skew: int, retention: int): Window
    decreases |rs|
  {
    if rs == [] then w
    else
      var next := Admit(w, rs[0], skew, retention);
      RunRequests(if next.Some? then next.value else w, rs[1..], skew, retention)
  }

  ghost predicate NoReplay(accepted: seq<Request>) {
    forall i, j :: 0 <= i < j < |accepted| ==>
      !(accepted[i].timestamp == accepted[j].timestamp && accepted[i].nonce == accepted[j].nonce)
  }

  /** The clock read by accepted requests never falls more than `drift` behind an earlier reading. */
  ghost predicate ClockWithin(accepted: seq<Request>, drift: int) {
    forall i, j :: 0 <= i < j < |accepted| ==> accepted[j].now >= accepted[i].now - drift
  }

  /** Some request among the first `n` purged everything seen at `t`. */
  ghost predicate PurgedBy(accepted: seq<Request>, n: int, t: int, retention: int) {
    exists m :: 0 <= m < n <= |accepted| && accepted[m].now - retention > t
  }

  ghost predicate WindowInv(w: Window, skew: int, retention: int) {
    && (forall i :: 0 <= i < |w.accepted| ==> InSkew(w.accepted[i], skew))
    && (forall i :: 0 <= i < |w.accepted| ==>
          || (w.accepted[i].nonce in w.seen && w.seen[w.accepted[i].nonce] >= w.accepted[i].now)
          || PurgedBy(w.accepted, |w.accepted|, w.accepted[i].now, retention))
    && (forall i, j :: 0 <= i < j < |w.accepted| && w.accepted[i].nonce == w.accepted[j].nonce ==>
          PurgedBy(w.accepted, j + 1, w.accepted[i].now, retention))
  }

  lemma PurgedStays(a: seq<Request>, r: Request, n: int, t: int, retention: int)
    requires PurgedBy(a, n, t, retention)
    ensures PurgedBy(a + [r], n, t, retention) && PurgedBy(a + [r], |a| + 1, t, retention)
  {
    var m :| 0 <= m < n <= |a| && a[m].now - retention > t;
    assert (a + [r])[m] == a[m];
  }

  lemma AdmitKeeps(w: Window, r: Request, skew: int, retention: int)
    requires WindowInv(w, skew, retention) && Admit(w, r, skew, retention).Some?
    ensures WindowInv(Admit(w, r, skew, retention).value, skew, retention)
  {
    var w' := Admit(w, r, skew, retention).value;
    var a, n := w'.accepted, |w.accepted|;
    assert a[n] == r;
    assert forall i :: 0 <= i < n ==> a[i] == w.accepted[i];
    forall i | 0 <= i < n && !(a[i].nonce in w'.seen && w'.seen[a[i].nonce] >= a[i].now && a[i].nonce != r.nonce)
      ensures PurgedBy(a, n + 1, a[i].now, retention)
    {
      if PurgedBy(w.accepted, n, a[i].now, retention) {
        PurgedStays(w.accepted, r, n, a[i].now, retention);
      } else {
        assert a[n].now - retention > a[i].now;
      }
    }
    forall i, j | 0 <= i < j < |a| && a[i].nonce == a[j].nonce ensures PurgedBy(a, j + 1, a[i].now, retention) {
      if j < n { PurgedStays(w.accepted, r, j + 1, a[i].now, retention); }
    }
  }

  lemma {:induction false} RunKeeps(w: Window, rs: seq<Request>, skew: int, retention: int)
    requires WindowInv(w, skew, retention)
    ensures WindowInv(RunRequests(w, rs, skew, retention), skew, retention)
    decreases |rs|
  {
    if rs != [] {
      var next := Admit(w, rs[0], skew, retention);
      if next.Some? { AdmitKeeps(w, rs[0], skew, retention); }
      RunKeeps(if next.Some? then next.value else w, rs[1..], skew, retention);
    }
  }

  lemma LongRetentionPreventsReplay(w: Window, skew: int, retention: int, drift: int)
    requires WindowInv(w, skew, retention) && ClockWithin(w.accepted, drift)
    requires drift >= 0 && retention >= 2 * skew + drift
    ensures NoReplay(w.accepted)
  {
    var a := w.accepted;
    forall i, j | 0 <= i < j < |a| && a[i].nonce == a[j].nonce ensures a[i].timestamp != a[j].timestamp {
      hide InSkew;
      assert InSkew(a[i], skew) && InSkew(a[j], skew);
      assert PurgedBy(a, j + 1, a[i].now, retention);
      var m :| 0 <= m < j + 1 && a[m].now - retention > a[i].now;
      assert m == j || a[j].now >= a[m].now - drift;
      hide PurgedBy, ClockWithin;
      TooLateToRepeat(a[i], a[j], a[m], skew, retention, drift);
    }
  }

  /** A request whose nonce was purged in between comes too late for the same timestamp. */
  lemma TooLateToRepeat(first: Request, again: Request, purger: Request, skew: int, retention: int, drift: int)
    requires InSkew(first, skew) && InSkew(again, skew)
    requires purger.now - retention > first.now && again.now >= purger.now - drift && retention >= 2 * skew + drift
    ensures again.timestamp != first.timestamp
  {}

  ghost predicate ReplaySafe(skew: int, retention: int, drift: int) {
    forall rs :: ClockWithin(RunRequests(EMPTY_WINDOW, rs, skew, retention).accepted, drift) ==>
                   NoReplay(RunRequests(EMPTY_WINDOW, rs, skew, retention).accepted)
  }

  /** Three requests that reuse a timestamp and nonce when nonces are kept for too short a time. */
  function ShortRetentionRun(skew: int, drift: int): seq<Request> {
    [Request(0, skew, "nonce-of-first-1"), Request(2 * skew + drift, 2 * skew + drift, "nonce-of-other-2"),
     Request(2 * skew, skew, "nonce-of-first-1")]
  }

  lemma ShortRetentionReplays(skew: int, retention: int, drift: int)
    requires skew >= 0 && drift >= 0 && retention < 2 * skew + drift
    ensures var a := RunRequests(EMPTY_WINDOW, ShortRetentionRun(skew, drift), skew, retention).accepted;
            a == ShortRetentionRun(skew, drift) && ClockWithin(a, drift) && !NoReplay(a)
  {
    var rs := ShortRetentionRun(skew, drift);
    assert rs[1].nonce[9] == 'o' && rs[0].nonce[9] == 'f';
    var w1 := Admit(EMPTY_WINDOW, rs[0], skew, retention).value;
    var w2 := Admit(w1, rs[1], skew, retention).value;
    var w3 := Admit(w2, rs[2], skew, retention).value;
    assert rs[1..][1..] == [rs[2]] && rs[1..][0] == rs[1] && [rs[2]][1..] == [];
    assert RunRequests(w3, [], skew, retention) == w3;
    assert RunRequests(w2, [rs[2]], skew, retention) == w3;
    assert RunRequests(w1, rs[1..], skew, retention) == w3;
    assert w3.accepted == rs;
    assert rs[0].nonce == rs[2].nonce && rs[0].timestamp == rs[2].timestamp;
  }

  /** No accepted request can repeat a timestamp and nonce exactly when nonces are kept for at least
      twice the skew plus the clock drift. */
  lemma ReplaySafeExactly(skew: int, retention: int, drift: int)
    requires skew >= 0 && drift >= 0
    ensures ReplaySafe(skew, retention, drift) <==> retention >= 2 * skew + drift
  {
    if retention >= 2 * skew + drift {
      forall rs | ClockWithin(RunRequests(EMPTY_WINDOW, rs, skew, retention).accepted, drift)
        ensures NoReplay(RunRequests(EMPTY_WINDOW, rs, skew, retention).accepted)
      {
        RunKeeps(EMPTY_WINDOW, rs, skew, retention);
        LongRetentionPreventsReplay(RunRequests(EMPTY_WINDOW, rs, skew, retention), skew, retention, drift);
      }
    } else {
      ShortRetentionReplays(skew, retention, drift);
    }
  }

  const MAX_SKEW_SECONDS: int := 300
  const NONCE_RETENTION_SECONDS: int := 600

  /** The gateway's constants cover a clock that never goes back, with nothing to spare: a second less
      of retention, or a second of drift between requests, and the promise fails. */
  lemma GatewayConstantsAreTight()
    ensures ReplaySafe(MAX_SKEW_SECONDS, NONCE_RETENTION_SECONDS, 0)
    ensures !ReplaySafe(MAX_SKEW_SECONDS, NONCE_RETENTION_SECONDS - 1, 0)
    ensures forall drift :: drift > 0 ==> !ReplaySafe(MAX_SKEW_SECONDS, NONCE_RETENTION_SECONDS, drift)
  {
    ReplaySafeExactly(MAX_SKEW_SECONDS, NONCE_RETENTION_SECONDS, 0);
    ReplaySafeExactly(MAX_SKEW_SECONDS, NONCE_RETENTION_SECONDS - 1, 0);
    forall drift | drift > 0 ensures !ReplaySafe(MAX_SKEW_SECONDS, NONCE_RETENTION_SECONDS, drift) {
      ReplaySafeExactly(MAX_SKEW_SECONDS, NONCE_RETENTION_SECONDS, drift);
    }
  }
}
