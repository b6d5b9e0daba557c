/** The rules of managed pilots in terms of what a call brings and what is on record. */
module PilotRules {
  import opened Common
  import opened Calendar
  import opened Money
  import opened ServiceReport
  import opened PilotDelivery

  /** A request is taken exactly for an identified customer, 1 to 100 machines and an authenticated partner. */
  lemma RequestExactly(d: Desk, id: string, ask: Ask)
    ensures var r := TakeRequest(d, id, ask); var sized := ask.customer.Some? && 1 <= ask.vmCount <= 100;
            && (r == Err(BadCustomer) <==> ask.customer.None?)
            && (r == Err(BadCount) <==> ask.customer.Some? && !sized)
            && (r == Err(NotAuthenticated) <==> sized && !ask.authenticated)
            && (r.Ok? <==> sized && ask.authenticated && id !in d.requests)
            && (r.Ok? ==>
                  && r.value.partner == ask.partner && Some(r.value.customer) == ask.customer
                  && r.value.vmCount == ask.vmCount && !r.value.onboarded)
  {}

  /** A pilot is onboarded exactly on a contract, with a token of at least 32 characters and a fee above
      zero, for an open request of one machine; it carries that request's parties and that offer's money. */
  lemma OnboardExactly(d: Desk, id: string, o: Offer)
    ensures var r := Onboard(d, id, o);
            var paid := CentsOf(o.fee).Ok? && CentsOf(o.hourly).Ok?;
            var signed := o.contractRef.Some? && |o.token| >= 32;
            var open := o.request in d.requests && !d.requests[o.request].onboarded;
            && (r == Err(BadReference) <==> o.contractRef.None?)
            && (r == Err(ShortToken) <==> o.contractRef.Some? && |o.token| < 32)
            && (r == Err(BadMoney) <==> signed && !paid)
            && (r == Err(FreePilot) <==> signed && paid && CentsOf(o.fee).value == 0)
            && (r == Err(NotRequested) <==> signed && paid && CentsOf(o.fee).value > 0 && !open)
            && (r == Err(OneVmOnly) <==>
                  signed && paid && CentsOf(o.fee).value > 0 && open && d.requests[o.request].vmCount != 1)
            && (r.Ok? <==>
                  && signed && paid && CentsOf(o.fee).value > 0 && open
                  && d.requests[o.request].vmCount == 1 && id !in d.pilots)
            && (r.Ok? ==>
                  && r.value.request == o.request && r.value.scope == o.scope
                  && Some(r.value.contractRef) == o.contractRef
                  && r.value.partner == d.requests[o.request].partner
                  && r.value.customer == d.requests[o.request].customer
                  && r.value.terms.feeCents == CentsOf(o.fee).value
                  && r.value.terms.hourlyCents == CentsOf(o.hourly).value
                  && r.value.terms.activeAt.None? && !r.value.active)
  {
    hide CentsOf;
  }

  /** A pilot is activated exactly once, on observed evidence of its whole scope. */
  lemma ActivateExactly(d: Desk, id: string, snapshot: Scope, observed: bool, at: Stamp)
    ensures var r := Activate(d, id, snapshot, observed, at);
            && (r == Err(PilotNotFound) <==> id !in d.pilots)
            && (id in d.pilots ==>
                  var p := d.pilots[id];
                  && (r == Err(NotAwaitingActivation) <==> p.active)
                  && (r == Err(SnapshotScope) <==> !p.active && snapshot != p.scope)
                  && (r == Err(EvidenceRequired) <==> !p.active && snapshot == p.scope && !observed)
                  && (r.Ok? <==> !p.active && snapshot == p.scope && observed)
                  && (r.Ok? ==> r.value == p.(active := true, terms := p.terms.(activeAt := Some(at)))))
  {}

  /** One machine in one vault: everything of the scope but the incident. */
  ghost predicate SameMachine(a: Scope, b: Scope) { a.(incidentId := b.incidentId) == b }

  /** Work is recorded exactly for an active pilot, on a case of its machine, 1 to 1440 minutes, with a note. */
  lemma WorkExactly(d: Desk, id: string, resource: Option<Scope>, minutes: int, note: Option<string>, at: Stamp)
    ensures var r := RecordWork(d, id, resource, minutes, note, at);
            && (r == Err(PilotNotFound) <==> id !in d.pilots)
            && (id in d.pilots ==>
                  var p := d.pilots[id]; var onCase := p.active && resource.Some?;
                  && (r == Err(NotActive) <==> !p.active)
                  && (r == Err(CaseNotFound) <==> p.active && resource.None?)
                  && (r == Err(OutsideScope) <==> onCase && !SameMachine(p.scope, resource.value))
                  && (r == Err(BadMinutes) <==>
                        onCase && SameMachine(p.scope, resource.value) && !(1 <= minutes <= 1440))
                  && (r.Ok? <==>
                        onCase && SameMachine(p.scope, resource.value) && 1 <= minutes <= 1440 && note.Some?)
                  && (r.Ok? ==>
                        && r.value.pilot == id && Some(r.value.resource) == resource && Some(r.value.note) == note
                        && r.value.entry == Entry(at, minutes)))
  {}

  /** A drill result is recorded exactly for an active pilot, on its machine, probed no earlier than its
      activation. */
  lemma DrillExactly(d: Desk, id: string, row: DrillRow)
    requires ValidStamp(row.checkedAt) && (id in d.pilots ==> ValidTerms(d.pilots[id].terms))
    ensures var r := CheckDrill(d, id, row);
            && (r == Err(PilotNotFound) <==> id !in d.pilots) && (r.Ok? ==> r.value)
            && (id in d.pilots ==>
                  var p := d.pilots[id]; var running := p.active && p.terms.activeAt.Some?;
                  && (r == Err(NotActive) <==> !running)
                  && (r == Err(OutsideScope) <==> running && !SameMachine(p.scope, row.resource))
                  && (r.Ok? <==>
                        && running && SameMachine(p.scope, row.resource)
                        && NotAfter(p.terms.activeAt.value, row.checkedAt)))
  {
    hide NotAfter;
  }

  /** A month's report: the minutes dated in it, labor at the hourly rate to the nearest cent, the fee from the
      month of activation on, and what is left. */
  lemma ReportExactly(p: Terms, work: seq<Entry>, index: nat)
    requires ValidTerms(p) && ValidEntries(work) && index < 119999
    ensures var r := ReportFor(p, work, MonthAt(index));
            && r.minutes == DatedBetween(work, index, index + 1)
            && -0.5 < r.labor as real - (r.minutes * p.hourlyCents) as real / 60.0 <= 0.5
            && r.fee == (if p.activeAt.Some? && Index(p.activeAt.value.month) <= index then p.feeCents else 0)
            && r.contribution == r.fee - r.labor
  {
    hide SumIn, ActiveBy, DatedBetween, Index;
    OneMonthExactly(work, index);
    ActiveFromItsMonth(p, MonthAt(index));
  }
}
