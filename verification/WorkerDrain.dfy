/** One worker, no arrivals: how many calls empty the inbox, and that a call finds work until then. */
module WorkerDrain {
  import opened BackupResolution
  import opened CaseLedger
  import opened AlertDelivery
  import opened DeliveryGuarantees
  import opened DeliveryStore

  /** How a call ends: it settles, or it is killed after its lease or after opening the case. */
  datatype Ending = Settles | KilledAfterLease | KilledAfterOpen

  /** One `work_once` call and the row it finds. */
  datatype Work = Work(config: Config, now: int, index: nat, newId: CaseId, at: Time, fault: bool, ending: Ending)

  ghost predicate Finds(env: Env, db: Database, w: Work) {
    Bind(env, db, w.config).Ok? && Earliest(db.messages, w.now, w.index)
  }

  ghost function AfterWork(env: Env, db: Database, w: Work): Database {
    match w.ending
    case Settles => WorkAlone(env, db, w.config, w.now, w.index, w.newId, w.at, w.fault).db
    case KilledAfterLease => Leased(env, db, w).db
    case KilledAfterOpen => DoOpen(env, Leased(env, db, w), 0, w.newId, w.at, w.fault).db
  }

  ghost function Leased(env: Env, db: Database, w: Work): System {
    DoLease(DoBind(env, Alone(db, Working(w.config, w.now, false)), 0), 0, w.index)
  }

  ghost function AfterAll(env: Env, db: Database, works: seq<Work>): Database
    decreases |works|
  {
    if works == [] then db else AfterAll(env, AfterWork(env, db, works[0]), works[1..])
  }

  ghost predicate AllFind(env: Env, db: Database, works: seq<Work>)
    decreases |works|
  {
    works == [] || (Finds(env, db, works[0]) && AllFind(env, AfterWork(env, db, works[0]), works[1..]))
  }

  ghost predicate Finished(messages: seq<Message>) {
    forall m :: m in messages ==> m.state == Completed || m.state == DeadLetter
  }

  /** Whatever the calls find and however they end, each lowers the work left. */
  lemma {:induction false} EachCallCounts(env: Env, db: Database, works: seq<Work>)
    requires DatabaseOk(env, db) && AllFind(env, db, works)
    ensures DatabaseOk(env, AfterAll(env, db, works))
    ensures Unfinished(AfterAll(env, db, works).messages) + |works| <= Unfinished(db.messages)
    decreases |works|
  {
    hide DatabaseOk, AfterWork, Unfinished, Finds;
    if works != [] {
      CallLowers(env, db, works[0]);
      EachCallCounts(env, AfterWork(env, db, works[0]), works[1..]);
    }
  }

  lemma CallLowers(env: Env, db: Database, w: Work)
    requires DatabaseOk(env, db) && Finds(env, db, w)
    ensures DatabaseOk(env, AfterWork(env, db, w))
    ensures Unfinished(AfterWork(env, db, w).messages) < Unfinished(db.messages)
  {
    hide DatabaseOk, WorkAlone, Unfinished, Leased, DoOpen;
    WorkIsValid(env, db, w.config, w.now, w.index, w.newId, w.at, w.fault);
    LeaseLowers(env, db, w);
    OpenLeavesRows(env, Leased(env, db, w), w);
  }

  lemma LeaseLowers(env: Env, db: Database, w: Work)
    requires DatabaseOk(env, db) && Finds(env, db, w)
    ensures SystemInv(env, Leased(env, db, w)) && DatabaseOk(env, Leased(env, db, w).db)
    ensures Unfinished(Leased(env, db, w).db.messages) < Unfinished(db.messages)
  {
    hide DatabaseOk, SystemInv, Grows, Unfinished, Earliest, DoLease;
    var s0 := Alone(db, Working(w.config, w.now, false));
    LoneCallHolds(env, db, Working(w.config, w.now, false));
    BindHolds(env, s0, 0);
    var s1 := DoBind(env, s0, 0);
    assert s1.db.messages == db.messages;
    LeaseHolds(env, s1, 0, w.index);
    EveryLeaseMakesProgress(env, s1, 0, w.index);
    DatabaseIsOk(env, DoLease(s1, 0, w.index));
  }

  /** Opening a case touches no message. */
  lemma OpenLeavesRows(env: Env, s: System, w: Work)
    requires SystemInv(env, s)
    ensures DatabaseOk(env, DoOpen(env, s, 0, w.newId, w.at, w.fault).db)
    ensures DoOpen(env, s, 0, w.newId, w.at, w.fault).db.messages == s.db.messages
  {
    hide SystemInv, DatabaseOk, Grows, Ingest;
    OpenHolds(env, s, 0, w.newId, w.at, w.fault);
    DatabaseIsOk(env, DoOpen(env, s, 0, w.newId, w.at, w.fault));
  }

  lemma EarliestExists(messages: seq<Message>, now: int, i: nat) returns (first: nat)
    requires i < |messages| && Eligible(messages[i], now)
    ensures Earliest(messages, now, first)
  {
    first := i;
    for k := 0 to |messages|
      invariant first < |messages| && Eligible(messages[first], now)
      invariant forall j :: 0 <= j < k && Eligible(messages[j], now) ==>
                  messages[first].receivedAt <= messages[j].receivedAt
    {
      if Eligible(messages[k], now) && messages[k].receivedAt < messages[first].receivedAt { first := k; }
    }
  }

  /** While some row is unfinished there is a time at which a call finds one. */
  lemma UnfinishedIsFound(env: Env, db: Database)
    requires DatabaseOk(env, db) && !Finished(db.messages)
    ensures exists now, first :: Earliest(db.messages, now, first)
  {
    hide DatabaseOk;
    var i :| 0 <= i < |db.messages| && db.messages[i].state != Completed && db.messages[i].state != DeadLetter;
    MessageIsOk(env, db, i);
    var m := db.messages[i];
    var now := if m.leaseUntil.Some? then m.leaseUntil.value else 0;
    var first := EarliestExists(db.messages, now, i);
  }

  /** With one worker and no arrivals, at most `Unfinished` calls find a row, however they end, killed
      after leasing, after opening the case or not at all; and no call at any time finds one exactly when
      every row is complete or dead. */
  lemma InboxDrains(env: Env, db: Database, works: seq<Work>)
    requires DatabaseOk(env, db) && AllFind(env, db, works)
    ensures |works| <= Unfinished(db.messages)
    ensures Finished(AfterAll(env, db, works).messages) <==>
              forall now, i :: !Earliest(AfterAll(env, db, works).messages, now, i)
    ensures |works| == Unfinished(db.messages) ==> Finished(AfterAll(env, db, works).messages)
  {
    hide DatabaseOk, Unfinished, AfterAll, AllFind;
    EachCallCounts(env, db, works);
    var later := AfterAll(env, db, works);
    ReachableWithinLimit(env, later);
    UnfinishedIsPositive(later.messages);
    if !Finished(later.messages) { UnfinishedIsFound(env, later); }
  }
}
