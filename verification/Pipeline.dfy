/** AuthorizationPipeline of src/service/pipeline.py: one run through every layer, proved
    against the decision table of PipelineSpec. */
module Pipeline {
  import opened Basics
  import opened Action
  import opened Crypto
  import opened EvidenceChain
  import opened Operator
  import opened PipelineSpec
  import opened RunRecords
  import Hygiene
  import Ledger
  import Replay
  import Velocity

  /** The signer knows how to sign this capability. */
  predicate Signable(a: FinancialAction) {
    a.capability == CHAIN_SETTLE || a.capability == TRADE_EXECUTE
  }

  /** The state a run starts from. */
  datatype Before = Before(events: seq<Event>, head: string, memory: Replay.Memory, used: set<int>,
                           guard: Velocity.GuardState, records: seq<Ledger.Record>)

  predicate RateChecked(e: Exit) {
    e.TooFast? || e.SignerRaised? || ReachedVenue(e)
  }

  lemma RegisteredIsKnown(m: Replay.Memory, r: Replay.Registration)
    requires Replay.MemRegister(m, r).1
    ensures (r.tenantId, r.actionHash) in Replay.MemRegister(m, r).0.byHash
  {}

  lemma AcceptedIsBound(c: Scheme, enc: DowngradeEncoding, d: DowngradeRecord, actionHash: string, codes: seq<string>,
                        allow: seq<string>, used: set<int>)
    requires DowngradeAccepted(c, enc, d, actionHash, codes, allow, used)
    ensures d.body.actionHash == actionHash && d.body.nonce !in used && SetOf(d.body.violationIds) <= SetOf(codes)
  {}

  lemma PassedHasNone(l: Hygiene.Layer, a: FinancialAction, allowlist: set<string>, v: Verdict)
    requires v != BLOCKED
    ensures var found := Hygiene.EvaluateSpec(l, a, allowlist, VerdictText(v)); found.ok <==> found.violations == []
  {}

  class AuthorizationPipeline {
    const tenant: Ledger.Tenant
    const operatorPem: string
    const approvalEnc: ApprovalBody -> string
    const downgradeEnc: DowngradeEncoding
    const registry: Replay.ActionRegistry
    const evidence: EvidenceGraph
    const hygiene: Hygiene.Layer
    const breaker: Velocity.CircuitBreaker?
    const velocity: Velocity.VelocityGuard?
    const now: int
    const maxValueWei: Option<int>
    var lastHash: string

    constructor (tenant: Ledger.Tenant, operatorPem: string, approvalEnc: ApprovalBody -> string, downgradeEnc: DowngradeEncoding,
                 registry: Replay.ActionRegistry, evidence: EvidenceGraph, hygiene: Hygiene.Layer,
                 breaker: Velocity.CircuitBreaker?, velocity: Velocity.VelocityGuard?, now: int, maxValueWei: Option<int>)
      ensures this.tenant == tenant && this.operatorPem == operatorPem && this.registry == registry
      ensures this.approvalEnc == approvalEnc && this.downgradeEnc == downgradeEnc && this.evidence == evidence
      ensures this.hygiene == hygiene && this.breaker == breaker && this.velocity == velocity
      ensures this.now == now && this.maxValueWei == maxValueWei && lastHash == ""
    {
      this.tenant, this.operatorPem, this.registry := tenant, operatorPem, registry;
      this.approvalEnc, this.downgradeEnc, this.evidence := approvalEnc, downgradeEnc, evidence;
      this.hygiene, this.breaker, this.velocity := hygiene, breaker, velocity;
      this.now, this.maxValueWei, lastHash := now, maxValueWei, "";
    }

    ghost predicate Valid()
      reads tenant, evidence
    {
      tenant.Valid() && evidence.Valid() && Lawful(tenant.c)
    }

    function GuardView(): Velocity.GuardState
      reads velocity
    {
      if velocity == null then Velocity.GuardState(None, []) else velocity.View()
    }

    ghost function Look(): Before
      reads this, tenant, registry, evidence, velocity
    {
      Before(evidence.events, lastHash, registry.View(), tenant.usedCommandNonces, GuardView(), tenant.records)
    }

    /** A signed approval of exactly this action. */
    predicate Approved(q: Request) {
      && q.approval.Some? && BindsTo(q.approval.value, q.actionHash)
      && ApprovalVerifies(tenant.c, approvalEnc, q.approval.value, operatorPem)
    }

    function Registration(q: Request): Replay.Registration {
      Registering(q.action, q.actionHash, now)
    }

    ghost function GatesOf(q: Request, w: World): Gates
      reads tenant, tenant.operatorKeys, registry, breaker, velocity, if velocity == null then {} else {velocity.clock}
    {
      var a := q.action;
      var found := Hygiene.EvaluateSpec(hygiene, a, tenant.settlementAllowlist, VerdictText(w.spine));
      var allow := ActivePems(tenant.operatorKeys.entries, w.keyTime);
      Gates(
        StructureOk(a), w.spine, found.ok, found.violations, q.downgrade.Some?,
        q.downgrade.Some? && DowngradeAccepted(tenant.c, downgradeEnc, q.downgrade.value, q.actionHash, found.violations,
                                               allow, tenant.usedCommandNonces),
        if q.downgrade.Some? then q.downgrade.value.body.violationIds else [],
        w.riskOk, Approved(q), Replay.MemRegister(registry.View(), Registration(q)).1,
        breaker != null && breaker.open, SettlementOk(a, maxValueWei), tenant.live,
        velocity == null || Velocity.CheckSpec(velocity.lim, velocity.View(), velocity.clock.t).1,
        Signable(a), w.venueAnswers, Reconciled(w))
    }

    /** The gates that only the later stages consult still stand as in g. */
    ghost predicate GatesAhead(q: Request, w: World, g: Gates)
      reads tenant`live, registry, breaker, velocity, if velocity == null then {} else {velocity.clock}
    {
      && g.riskOk == w.riskOk && g.approved == Approved(q)
      && g.registered == Replay.MemRegister(registry.View(), Registration(q)).1
      && GatesBeyondReplay(q, w, g)
    }

    ghost predicate GatesBeyondReplay(q: Request, w: World, g: Gates)
      reads tenant`live, breaker, velocity, if velocity == null then {} else {velocity.clock}
    {
      && g.halted == (breaker != null && breaker.open) && g.settlementOk == SettlementOk(q.action, maxValueWei)
      && g.live == tenant.live
      && g.withinRate == (velocity == null || Velocity.CheckSpec(velocity.lim, velocity.View(), velocity.clock.t).1)
      && g.signable == Signable(q.action)
      && g.venueAnswers == w.venueAnswers && g.reconciled == Reconciled(w)
    }

    predicate HashKnown(q: Request)
      reads registry
    {
      (q.action.tenantId, q.actionHash) in registry.byHash
    }

    /** The events so far extend b by this action's, with these labels. */
    ghost predicate Follows(b: Before, q: Request, w: World, g: Gates, labels: seq<Label>)
      reads this, evidence
    {
      && |b.events| <= |evidence.events| && evidence.events[..|b.events|] == b.events
      && Recorded(evidence.hash, evidence.events[|b.events|..], b.head, q.action, q.actionHash, now, labels)
      && Told(evidence.events[|b.events|..], q, w, g, labels)
      && lastHash == EndHash(evidence.events[|b.events|..], b.head)
    }

    /** Nothing but the events has changed since b. */
    ghost predicate Untouched(b: Before)
      reads tenant`records, registry, velocity
    {
      registry.View() == b.memory && GuardView() == b.guard && tenant.records == b.records
    }

    ghost function GuardAfter(b: Before, g: Gates): Velocity.GuardState
      reads if velocity == null then {} else {velocity.clock}
    {
      if velocity != null && g.live && RateChecked(ExitOf(g))
      then Velocity.CheckSpec(velocity.lim, b.guard, velocity.clock.t).0
      else b.guard
    }

    /** What a run that started from b leaves in the registry, the nonces, the guard and the ledger. */
    ghost predicate Leaves(b: Before, q: Request, w: World, g: Gates)
      reads tenant, registry, velocity, if velocity == null then {} else {velocity.clock}
    {
      && registry.View() == RegistryAfter(b.memory, Registration(q), g)
      && tenant.usedCommandNonces == NoncesAfter(b.used, NonceOf(q), g)
      && GuardView() == GuardAfter(b, g)
      && tenant.records == Ledger.AppendAll(tenant.d, tenant.c, tenant.enc, tenant.sk, b.records, LedgerBodies(q, w, g))
    }

    /** The whole effect of a run that started from b and met the gates g. */
    ghost predicate Outcome(b: Before, q: Request, w: World, g: Gates, res: PipelineResult)
      reads this, tenant, registry, evidence, velocity, if velocity == null then {} else {velocity.clock}
    {
      res == ResultOf(g) && Follows(b, q, w, g, Labels(g)) && Leaves(b, q, w, g)
    }

    /** What the first layers need to know about the gates. */
    lemma GatesHere(q: Request, w: World)
      ensures var g, a := GatesOf(q, w), q.action;
        && g.structureOk == StructureOk(a) && g.spine == w.spine && GatesAhead(q, w, g)
        && g.hygieneOk == Hygiene.EvaluateSpec(hygiene, a, tenant.settlementAllowlist, VerdictText(w.spine)).ok
        && g.codes == Hygiene.EvaluateSpec(hygiene, a, tenant.settlementAllowlist, VerdictText(w.spine)).violations
        && g.downgradeOffered == q.downgrade.Some?
        && (q.downgrade.Some? ==>
          && g.released == q.downgrade.value.body.violationIds
          && g.downgradeAccepted == DowngradeAccepted(tenant.c, downgradeEnc, q.downgrade.value, q.actionHash, g.codes,
                                                      ActivePems(tenant.operatorKeys.entries, w.keyTime), tenant.usedCommandNonces))
    {
      hide StructureOk, VerdictText, DowngradeAccepted, ActivePems, Hygiene.EvaluateSpec, Replay.MemRegister, SettlementOk, Signable;
    }

    /** Leaving before the registry is asked: only the nonce of a downgrade. */
    lemma LeavesEarly(b: Before, q: Request, w: World, g: Gates)
      requires !AskedRegistry(ExitOf(g)) && Untouched(b)
      requires tenant.usedCommandNonces == NoncesAfter(b.used, NonceOf(q), g)
      ensures Leaves(b, q, w, g)
    {
      hide ExitOf, NoncesAfter;
    }

    /** Leaving without a submission once the registry has been asked. */
    lemma LeavesLate(b: Before, q: Request, w: World, g: Gates)
      requires AskedRegistry(ExitOf(g)) && !ReachedVenue(ExitOf(g))
      requires registry.View() == Replay.MemRegister(b.memory, Registration(q)).0
      requires GuardView() == GuardAfter(b, g) && tenant.records == b.records
      requires tenant.usedCommandNonces == NoncesAfter(b.used, NonceOf(q), g)
      ensures Leaves(b, q, w, g)
    {
      hide ExitOf, NoncesAfter, GuardAfter, Replay.MemRegister;
    }

    /** Leaving after the venue has been called. */
    lemma LeavesFromVenue(b: Before, q: Request, w: World, g: Gates)
      requires PastSigner(g)
      requires registry.View() == AtVenue(SignedMemory(Replay.MemRegister(b.memory, Registration(q)).0, Registration(q), g), Registration(q), g)
      requires GuardView() == GuardAfter(b, g)
      requires tenant.records == Ledger.AppendAll(tenant.d, tenant.c, tenant.enc, tenant.sk, b.records,
                                                  if g.venueAnswers then LedgerBodies(q, w, g) else SignedEntries(q, w, g))
      requires tenant.usedCommandNonces == NoncesAfter(b.used, NonceOf(q), g)
      ensures Leaves(b, q, w, g)
    {
      VenueRow(g);
      hide NoncesAfter, GuardAfter, PastSigner, ExitOf, Replay.MemRegister, SignedMemory, SignedEntries, AtVenue;
    }

    /** _emit */
    method Emit(q: Request, state: ActionState, kind: Kind, payload: string, ghost w: World, ghost b: Before, ghost g: Gates,
                ghost labels: seq<Label>)
      requires evidence.Valid() && Follows(b, q, w, g, labels) && payload == Telling(q, w, g, kind)
      modifies `lastHash, evidence
      ensures evidence.Valid() && Follows(b, q, w, g, labels + [(state, kind)])
    {
      hide Recorded, Told, Telling;
      ghost var chunk := evidence.events[|b.events|..];
      RecordedSnoc(evidence.hash, chunk, b.head, q.action, q.actionHash, now, labels, (state, kind), payload);
      var ev := evidence.Add(EventBody(q.action.actionId, q.action.tenantId, state, KindText(kind), q.actionHash, lastHash, payload, now));
      ToldSnoc(chunk, q, w, g, labels, ev, (state, kind));
      assert evidence.events[|b.events|..] == chunk + [ev];
      lastHash := ev.eventHash;
    }

    /** A refusal: the last event of the run, and the result that names the exit. */
    method Refuse(q: Request, w: World, e: Exit, sofar: PipelineResult, ghost b: Before, ghost g: Gates, ghost labels: seq<Label>)
      returns (res: PipelineResult)
      requires Valid() && Follows(b, q, w, g, labels) && Leaves(b, q, w, g)
      requires Labels(g) == labels + [REFUSAL] && ExitOf(g) == e && ResultOf(g) == sofar.(state := REJECTED, exit := e)
      modifies `lastHash, evidence
      ensures Valid() && Outcome(b, q, w, g, res)
    {
      hide Labels, ResultOf, ExitOf, KindText, Follows, Leaves, Ledger.Tenant.Valid, EvidenceGraph.Valid, Lawful;
      Emit(q, REJECTED, REJECTION, ExitText(e), w, b, g, labels);
      res := sofar.(state := REJECTED, exit := e);
    }

    /** append_ledger, keeping track of what has been appended since base. */
    method Log(body: Ledger.Record, ghost base: seq<Ledger.Record>, ghost bodies: seq<Ledger.Record>)
      requires tenant.Valid() && Lawful(tenant.c)
      requires tenant.records == Ledger.AppendAll(tenant.d, tenant.c, tenant.enc, tenant.sk, base, bodies)
      modifies tenant`records, tenant`head
      ensures tenant.Valid()
      ensures tenant.records == Ledger.AppendAll(tenant.d, tenant.c, tenant.enc, tenant.sk, base, bodies + [body])
    {
      var _ := tenant.AppendLedger(body);
      assert (bodies + [body])[..|bodies|] == bodies;
    }

    /** The last ledger entries: the operator's override, if one was used, and the run itself. */
    method Close(q: Request, w: World, live: bool, res: PipelineResult, ghost b: Before, ghost g: Gates)
      requires tenant.Valid() && Lawful(tenant.c) && PastSigner(g) && g.venueAnswers && live == g.live
      requires res == ResultOf(g) && (Released(g) ==> q.downgrade.Some?)
      requires tenant.records == Ledger.AppendAll(tenant.d, tenant.c, tenant.enc, tenant.sk, b.records, SignedEntries(q, w, g))
      modifies tenant`records, tenant`head
      ensures tenant.Valid()
      ensures tenant.records == Ledger.AppendAll(tenant.d, tenant.c, tenant.enc, tenant.sk, b.records, LedgerBodies(q, w, g))
    {
      hide Ledger.Tenant.Valid, Lawful, Ledger.AppendAll, RunEntry, DowngradeEntry, SignedEntries, ExitOf, Labels, ResultOf, PastSigner, Released;
      VenueRow(g);
      ghost var bodies := SignedEntries(q, w, g);
      if res.downgraded && q.downgrade.Some? {
        Log(DowngradeEntry(q, q.downgrade.value), b.records, bodies);
        bodies := bodies + [DowngradeEntry(q, q.downgrade.value)];
      }
      Log(RunEntry(q, w, live, res.verdict, res.riskOk, res.approvalBound, res.replayOk), b.records, bodies);
    }

    /** run, from the venue on. */
    method Dispatch(q: Request, w: World, live: bool, sofar: PipelineResult, ghost b: Before, ghost g: Gates)
      returns (res: PipelineResult)
      requires Valid() && PastSigner(g) && live == g.live && g.venueAnswers == w.venueAnswers && g.reconciled == Reconciled(w)
      requires Follows(b, q, w, g, BeforeVenue(g))
      requires registry.View() == SignedMemory(Replay.MemRegister(b.memory, Registration(q)).0, Registration(q), g) && HashKnown(q)
      requires GuardView() == GuardAfter(b, g)
      requires tenant.records == Ledger.AppendAll(tenant.d, tenant.c, tenant.enc, tenant.sk, b.records, SignedEntries(q, w, g))
      requires tenant.usedCommandNonces == NoncesAfter(b.used, NonceOf(q), g)
      requires sofar == Underway(g) && (Released(g) ==> q.downgrade.Some?)
      modifies `lastHash, evidence, registry, tenant`records, tenant`head
      ensures Valid()
      ensures Outcome(b, q, w, g, res)
    {
      hide KindText, Recorded, Replay.MemRegister, NoncesAfter, GuardAfter, Follows, Ledger.Tenant.Valid,
           EvidenceGraph.Valid, Lawful, Ledger.AppendAll, SignedEntries, LedgerBodies, SignedMemory, ExitOf, Labels, ResultOf, Leaves,
           PastSigner, Released, BeforeVenue, Underway, Reconciled, Telling;
      VenueRow(g);
      EndWords(q, w, g);
      res := sofar;
      if !w.venueAnswers {
        res := res.(exit := VenueRaised);
        LeavesFromVenue(b, q, w, g);
        return;
      }
      Emit(q, SUBMITTED, SUBMISSION, w.venueState, w, b, g, BeforeVenue(g));
      var known := registry.Advance(q.action.tenantId, q.actionHash, Replay.SUBMITTED);
      assert known;
      var settled := if Reconciled(w) then SETTLED else FAILED;
      Emit(q, settled, RECONCILIATION, w.reconciliation, w, b, g, BeforeVenue(g) + [(SUBMITTED, SUBMISSION)]);
      res := res.(state := settled, exit := Completed);
      Close(q, w, live, res, b, g);
      LeavesFromVenue(b, q, w, g);
    }

    /** The live signature: recorded as an event, in the registry and in the ledger. */
    method SignLive(q: Request, w: World, ghost b: Before, ghost g: Gates)
      requires Valid() && Follows(b, q, w, g, AFTER_HUMAN) && g.live && HashKnown(q) && tenant.records == b.records
      requires registry.View() == Replay.MemRegister(b.memory, Registration(q)).0
      modifies `lastHash, evidence, registry, tenant`records, tenant`head
      ensures Valid() && Follows(b, q, w, g, BeforeVenue(g)) && HashKnown(q)
      ensures registry.View() == SignedMemory(Replay.MemRegister(b.memory, Registration(q)).0, Registration(q), g)
      ensures tenant.records == Ledger.AppendAll(tenant.d, tenant.c, tenant.enc, tenant.sk, b.records, SignedEntries(q, w, g))
    {
      hide KindText, Recorded, Replay.MemRegister, Follows, Ledger.Tenant.Valid, EvidenceGraph.Valid, Lawful, LiveSignEntry;
      Emit(q, SIGNED, SIGNATURE, SignerText(w), w, b, g, AFTER_HUMAN);
      var known := registry.Advance(q.action.tenantId, q.actionHash, Replay.SIGNED);
      assert known;
      Log(LiveSignEntry(q, w), b.records, []);
      assert [] + [LiveSignEntry(q, w)] == [LiveSignEntry(q, w)];
    }

    lemma NothingSigned(q: Request, w: World, g: Gates, m: Replay.Memory)
      requires !g.live
      ensures BeforeVenue(g) == AFTER_HUMAN && SignedMemory(m, Registration(q), g) == m
      ensures tenant.records == Ledger.AppendAll(tenant.d, tenant.c, tenant.enc, tenant.sk, tenant.records, SignedEntries(q, w, g))
    {}

    /** The rate check of the live track. */
    method WithinRate() returns (ok: bool)
      modifies velocity
      ensures velocity == null ==> ok && GuardView() == old(GuardView())
      ensures velocity != null ==> (GuardView(), ok) == Velocity.CheckSpec(velocity.lim, old(velocity.View()), velocity.clock.t)
    {
      ok := true;
      if velocity != null {
        ok := velocity.Check();
      }
    }

    /** The guard after the rate check of a live run, and after a run that never reaches it. */
    lemma RateRow(b: Before, g: Gates)
      requires PastGate(g)
      ensures !g.live || velocity == null ==> GuardAfter(b, g) == b.guard
      ensures g.live && velocity != null ==> GuardAfter(b, g) == Velocity.CheckSpec(velocity.lim, b.guard, velocity.clock.t).0
    {
      if g.live {
        if !g.withinRate {
          TooFastRow(g);
        } else if !g.signable {
          UnsignableRow(g);
        } else {
          VenueRow(g);
        }
      }
      hide Velocity.CheckSpec, PastGate, ExitOf;
    }

    /** The live track of a tenant with a settlement key: the run is stopped by the rate or by the
        signer, or it goes on signed. */
    method Sign(q: Request, w: World, verdict: Verdict, sofar: PipelineResult, ghost b: Before, ghost g: Gates)
      returns (over: bool, res: PipelineResult)
      requires Valid() && g.live && g.signable == Signable(q.action)
      requires g.withinRate == (velocity == null || Velocity.CheckSpec(velocity.lim, velocity.View(), velocity.clock.t).1)
      requires Follows(b, q, w, g, AFTER_HUMAN)
      requires PastGate(g) && verdict == Standing(g)
      requires registry.View() == Replay.MemRegister(b.memory, Registration(q)).0 && HashKnown(q)
      requires GuardView() == b.guard && tenant.records == b.records
      requires tenant.usedCommandNonces == NoncesAfter(b.used, NonceOf(q), g)
      requires sofar == Underway(g)
      modifies `lastHash, evidence, registry, velocity, tenant`records, tenant`head
      ensures Valid()
      ensures over ==> Outcome(b, q, w, g, res)
      ensures !over ==> res == sofar && g.withinRate && g.signable && Follows(b, q, w, g, BeforeVenue(g)) && HashKnown(q)
      ensures !over ==>
        registry.View() == SignedMemory(Replay.MemRegister(b.memory, Registration(q)).0, Registration(q), g)
      ensures !over ==> GuardView() == GuardAfter(b, g) && tenant.usedCommandNonces == NoncesAfter(b.used, NonceOf(q), g)
      ensures !over ==>
        tenant.records == Ledger.AppendAll(tenant.d, tenant.c, tenant.enc, tenant.sk, b.records, SignedEntries(q, w, g))
    {
      hide KindText, Recorded, Replay.MemRegister, Velocity.CheckSpec, NoncesAfter, Follows, Ledger.Tenant.Valid,
           EvidenceGraph.Valid, Lawful, LiveSignEntry, Signable, SignedMemory, SignedEntries, BeforeVenue, Ledger.AppendAll,
           ExitOf, Labels, ResultOf, Leaves, PastGate, Released, GuardAfter;
      RateRow(b, g);
      res, over := sofar, true;
      var ok := WithinRate();
      if !ok {
        TooFastRow(g);
        LeavesLate(b, q, w, g);
        res := Refuse(q, w, TooFast, res, b, g, AFTER_HUMAN);
        return;
      }
      // The signer's own refusal, a verdict other than AUTO without approval, cannot occur.
      assert verdict == AUTO || res.approvalBound by { StandingOpen(g); }
      if !Signable(q.action) {
        UnsignableRow(g);
        LeavesLate(b, q, w, g);
        res := res.(exit := SignerRaised);
        return;
      }
      SignLive(q, w, b, g);
      over := false;
    }

    /** run, from the signer on. */
    method Execute(q: Request, w: World, verdict: Verdict, sofar: PipelineResult, ghost b: Before, ghost g: Gates)
      returns (res: PipelineResult)
      requires Valid() && GatesBeyondReplay(q, w, g)
      requires Follows(b, q, w, g, AFTER_HUMAN)
      requires PastGate(g) && verdict == Standing(g) && (Released(g) ==> q.downgrade.Some?)
      requires registry.View() == Replay.MemRegister(b.memory, Registration(q)).0 && HashKnown(q)
      requires GuardView() == b.guard && tenant.records == b.records
      requires tenant.usedCommandNonces == NoncesAfter(b.used, NonceOf(q), g)
      requires sofar == Underway(g)
      modifies `lastHash, evidence, registry, velocity, tenant`records, tenant`head
      ensures Valid()
      ensures Outcome(b, q, w, g, res)
    {
      hide SettlementOk, Replay.MemRegister, Velocity.CheckSpec, NoncesAfter, Follows, Ledger.Tenant.Valid, EvidenceGraph.Valid,
           Lawful, Signable, SignedMemory, SignedEntries, BeforeVenue, Ledger.AppendAll, PastGate, Released, GuardAfter, Reconciled,
           Outcome, Underway;
      res := sofar;
      if tenant.live {
        var over;
        over, res := Sign(q, w, verdict, res, b, g);
        if over {
          return;
        }
      } else {
        RateRow(b, g);
        NothingSigned(q, w, g, registry.View());
      }
      res := Dispatch(q, w, tenant.live, res, b, g);
    }

    /** run, from the circuit breaker and the settlement gate. */
    method Settle(q: Request, w: World, verdict: Verdict, sofar: PipelineResult, ghost b: Before, ghost g: Gates)
      returns (res: PipelineResult)
      requires Valid() && GatesBeyondReplay(q, w, g)
      requires Follows(b, q, w, g, AFTER_HUMAN)
      requires PastReplay(g) && verdict == Standing(g) && (Released(g) ==> q.downgrade.Some?)
      requires registry.View() == Replay.MemRegister(b.memory, Registration(q)).0 && HashKnown(q)
      requires GuardView() == b.guard && tenant.records == b.records
      requires tenant.usedCommandNonces == NoncesAfter(b.used, NonceOf(q), g)
      requires sofar == Underway(g)
      modifies `lastHash, evidence, registry, velocity, tenant`records, tenant`head
      ensures Valid()
      ensures Outcome(b, q, w, g, res)
    {
      hide KindText, Recorded, SettlementOk, Replay.MemRegister, Velocity.CheckSpec, NoncesAfter, Follows,
           Ledger.Tenant.Valid, EvidenceGraph.Valid, Lawful, Signable, RegistryAfter, LedgerBodies, ExitOf, Labels, ResultOf, Leaves,
           PastReplay, Released, Underway, Reconciled;
      res := sofar;
      if breaker != null && breaker.open {
        HaltedRow(g);
        LeavesLate(b, q, w, g);
        res := Refuse(q, w, Halted, res, b, g, AFTER_HUMAN);
        return;
      }
      if !SettlementOk(q.action, maxValueWei) {
        GateRow(g);
        LeavesLate(b, q, w, g);
        res := Refuse(q, w, GateRefused, res, b, g, AFTER_HUMAN);
        return;
      }
      res := Execute(q, w, verdict, res, b, g);
    }

    /** run, from the replay registry on. */
    method Admit(q: Request, w: World, verdict: Verdict, sofar: PipelineResult, ghost b: Before, ghost g: Gates)
      returns (res: PipelineResult)
      requires Valid() && GatesAhead(q, w, g) && Untouched(b)
      requires Follows(b, q, w, g, AFTER_HUMAN)
      requires PastRisk(g) && HumanSatisfied(g) && verdict == Standing(g) && (Released(g) ==> q.downgrade.Some?)
      requires tenant.usedCommandNonces == NoncesAfter(b.used, NonceOf(q), g)
      requires sofar == Underway(g)
      modifies `lastHash, evidence, registry, velocity, tenant`records, tenant`head
      ensures Valid()
      ensures Outcome(b, q, w, g, res)
    {
      hide KindText, Recorded, SettlementOk, Replay.MemRegister, Velocity.CheckSpec, NoncesAfter, Follows,
           Ledger.Tenant.Valid, EvidenceGraph.Valid, Lawful, Signable, RegistryAfter, LedgerBodies, ExitOf, Labels, ResultOf, Leaves,
           PastRisk, Released, HumanSatisfied, Underway, Reconciled, Outcome, GatesBeyondReplay;
      res := sofar;
      var ok := registry.Register(Registration(q));
      if !ok {
        ReplayedRow(g);
        LeavesLate(b, q, w, g);
        res := res.(replayOk := false);
        res := Refuse(q, w, Replayed, res, b, g, AFTER_HUMAN);
        return;
      }
      RegisteredIsKnown(b.memory, Registration(q));
      res := Settle(q, w, verdict, res, b, g);
    }

    /** run, from the risk engine to the human gate. */
    method Decide(q: Request, w: World, verdict: Verdict, downgraded: bool, sofar: PipelineResult, ghost b: Before, ghost g: Gates)
      returns (res: PipelineResult)
      requires Valid() && GatesAhead(q, w, g) && Untouched(b)
      requires Follows(b, q, w, g, AFTER_HYGIENE)
      requires PastSpine(g) && Cleared(g) && verdict == Standing(g) && downgraded == Released(g)
      requires downgraded ==> q.downgrade.Some? && q.downgrade.value.body.actionHash == q.actionHash
      requires tenant.usedCommandNonces == NoncesAfter(b.used, NonceOf(q), g)
      requires sofar == PipelineResult(verdict, true, [], downgraded, false, false, true, PROPOSED, Structural)
      modifies `lastHash, evidence, registry, velocity, tenant`records, tenant`head
      ensures Valid()
      ensures Outcome(b, q, w, g, res)
    {
      hide KindText, Recorded, SettlementOk, Replay.MemRegister, Velocity.CheckSpec, NoncesAfter, Follows,
           Ledger.Tenant.Valid, EvidenceGraph.Valid, Lawful, Signable, RegistryAfter, LedgerBodies, ExitOf, Labels, ResultOf, Leaves,
           PastSpine, Released, Cleared, Standing, Reconciled, Outcome, GatesBeyondReplay, Approved, Untouched;
      res := sofar;
      Emit(q, EVALUATED, RISK, PassText(w.riskOk), w, b, g, AFTER_HYGIENE);
      res := res.(riskOk := w.riskOk);
      if !w.riskOk {
        RiskRow(g);
        LeavesEarly(b, q, w, g);
        res := res.(verdict := BLOCKED);
        res := Refuse(q, w, RiskBlocked, res, b, g, AFTER_RISK);
        return;
      }
      if verdict == HUMAN {
        var downgradeOk := downgraded && q.downgrade.Some? && q.downgrade.value.body.actionHash == q.actionHash;
        if !Approved(q) && !downgradeOk {
          UnapprovedRow(g);
          LeavesEarly(b, q, w, g);
          res := Refuse(q, w, Unapproved, res, b, g, AFTER_RISK);
          return;
        }
        res := res.(approvalBound := true);
        Emit(q, APPROVED, APPROVAL, Approver(q, downgradeOk), w, b, g, AFTER_RISK);
      } else {
        Emit(q, APPROVED, APPROVAL, "auto_approved", w, b, g, AFTER_RISK);
      }
      res := Admit(q, w, verdict, res, b, g);
    }

    /** A downgrade offered against hygiene violations: it is refused, it releases some of them,
        or it releases them all and the run goes on at the HUMAN band. */
    method Release(q: Request, w: World, codes: seq<string>, sofar: PipelineResult, ghost b: Before, ghost g: Gates)
      returns (over: bool, verdict: Verdict, res: PipelineResult)
      requires Valid() && PastSpine(g) && !g.hygieneOk && g.downgradeOffered && g.codes == codes && g.spine == w.spine
      requires q.downgrade.Some? && g.released == q.downgrade.value.body.violationIds
      requires g.downgradeAccepted == DowngradeAccepted(tenant.c, downgradeEnc, q.downgrade.value, q.actionHash, codes,
                                                        ActivePems(tenant.operatorKeys.entries, w.keyTime), tenant.usedCommandNonces)
      requires Follows(b, q, w, g, AFTER_POLICY) && Untouched(b) && tenant.usedCommandNonces == b.used
      requires sofar == PipelineResult(w.spine, false, codes, false, false, false, true, PROPOSED, Structural)
      modifies `lastHash, evidence, tenant`usedCommandNonces
      ensures Valid()
      ensures over ==> Outcome(b, q, w, g, res)
      ensures !over ==> Released(g) && Cleared(g) && verdict == Standing(g) && q.downgrade.value.body.actionHash == q.actionHash
      ensures !over ==> Follows(b, q, w, g, AFTER_POLICY) && Untouched(b) && tenant.usedCommandNonces == b.used + {NonceOf(q)}
      ensures !over ==> res == PipelineResult(verdict, true, [], true, false, false, true, PROPOSED, Structural)
    {
      hide KindText, Recorded, DowngradeAccepted, ActivePems, Outcome, Follows, Remaining, Ledger.Tenant.Valid,
           EvidenceGraph.Valid, Lawful, Leaves, Labels, ResultOf, ExitOf, PastSpine, Untouched;
      verdict, res, over := w.spine, sofar, true;
      var d := q.downgrade.value;
      var allow := ActivePems(tenant.operatorKeys.entries, w.keyTime);
      if DowngradeAccepted(tenant.c, downgradeEnc, d, q.actionHash, codes, allow, tenant.usedCommandNonces) {
        AcceptedIsBound(tenant.c, downgradeEnc, d, q.actionHash, codes, allow, tenant.usedCommandNonces);
        tenant.usedCommandNonces := tenant.usedCommandNonces + {d.body.nonce};
        if verdict == AUTO {
          verdict := HUMAN;
          res := res.(verdict := HUMAN);
        }
        var remaining := Remaining(codes, d.body.violationIds);
        res := res.(downgraded := true);
        if remaining == [] {
          res := res.(hygieneOk := true, hygieneViolations := []);
          over := false;
        } else {
          PartialRow(g);
          NoncesRow(b.used, NonceOf(q), g);
          LeavesEarly(b, q, w, g);
          res := res.(hygieneOk := false, hygieneViolations := remaining, verdict := BLOCKED);
          res := Refuse(q, w, DowngradePartial, res, b, g, AFTER_POLICY);
        }
      } else {
        RefusedRow(g);
        NoncesRow(b.used, NonceOf(q), g);
        LeavesEarly(b, q, w, g);
        res := res.(verdict := BLOCKED);
        res := Refuse(q, w, DowngradeRefused, res, b, g, AFTER_POLICY);
      }
    }

    /** run, from the hygiene layer on. */
    method Corroborate(q: Request, w: World, sofar: PipelineResult, ghost b: Before, ghost g: Gates) returns (res: PipelineResult)
      requires Valid() && g == GatesOf(q, w) && PastSpine(g)
      requires Follows(b, q, w, g, AFTER_POLICY) && Untouched(b) && tenant.usedCommandNonces == b.used
      requires sofar == PipelineResult(g.spine, true, [], false, false, false, true, PROPOSED, Structural)
      modifies `lastHash, evidence, registry, velocity, tenant`usedCommandNonces, tenant`records, tenant`head
      ensures Valid()
      ensures Outcome(b, q, w, g, res)
    {
      hide VerdictText, KindText, Recorded, DowngradeAccepted, Hygiene.EvaluateSpec, SettlementOk, Replay.MemRegister,
           ActivePems, Velocity.CheckSpec, Outcome, Follows, Remaining, RegistryAfter, Ledger.Tenant.Valid, EvidenceGraph.Valid,
           Lawful, ApprovalVerifies, BindsTo, Signable, StructureOk, GatesOf, GatesAhead, Leaves, Labels, ResultOf, ExitOf, Untouched,
           NoncesAfter;
      res := sofar;
      GatesHere(q, w);
      NoncesRow(b.used, NonceOf(q), g);
      var verdict, downgraded := w.spine, false;
      var found := Hygiene.Evaluate(hygiene, q.action, tenant.settlementAllowlist, VerdictText(verdict));
      PassedHasNone(hygiene, q.action, tenant.settlementAllowlist, verdict);
      res := res.(hygieneOk := found.ok, hygieneViolations := found.violations);
      if !found.ok && q.downgrade.Some? {
        var over;
        over, verdict, res := Release(q, w, found.violations, res, b, g);
        if over {
          return;
        }
        downgraded := true;
      }
      Emit(q, EVALUATED, HYGIENE, PassText(found.ok), w, b, g, AFTER_POLICY);
      if !found.ok && !downgraded {
        UnreleasedRow(g);
        LeavesEarly(b, q, w, g);
        res := res.(verdict := BLOCKED);
        res := Refuse(q, w, HygieneBlocked, res, b, g, AFTER_HYGIENE);
        return;
      }
      res := Decide(q, w, verdict, downgraded, res, b, g);
    }

    /** run, from the top. The state of the pipeline, the tenant, the
        registry, the guard, the graph and the ledger afterwards is exactly the one the decision
        table gives for the gates that stood open before. */
    method Run(q: Request, w: World) returns (res: PipelineResult)
      requires Valid()
      modifies `lastHash, evidence, registry, velocity, tenant`usedCommandNonces, tenant`records, tenant`head
      ensures Valid()
      ensures Outcome(old(Look()), q, w, old(GatesOf(q, w)), res)
    {
      hide VerdictText, KindText, Recorded, DowngradeAccepted, Hygiene.EvaluateSpec, SettlementOk, Replay.MemRegister,
           ActivePems, Velocity.CheckSpec, Follows, Remaining, RegistryAfter, Ledger.Tenant.Valid, EvidenceGraph.Valid,
           Lawful, ApprovalVerifies, BindsTo, Signable, StructureOk, GatesOf, GatesAhead, Leaves, Labels, ResultOf, ExitOf;
      ghost var b, g := Look(), GatesOf(q, w);
      GatesHere(q, w);
      res := PipelineResult(BLOCKED, true, [], false, false, false, true, PROPOSED, Structural);
      assert Follows(b, q, w, g, []) by { NothingYet(b, q, w, g); }
      if !StructureOk(q.action) {
        UnstructuredRow(g);
        LeavesEarly(b, q, w, g);
        return;
      }
      var verdict := w.spine;
      Emit(q, PROPOSED, EPISTEMIC, VerdictText(verdict), w, b, g, []);
      assert [] + AFTER_SPINE == AFTER_SPINE;
      res := res.(verdict := verdict);
      if verdict == BLOCKED {
        SpineRow(g);
        LeavesEarly(b, q, w, g);
        res := Refuse(q, w, SpineBlocked, res, b, g, AFTER_SPINE);
        return;
      }
      Emit(q, AUTHORIZED, POLICY, q.action.capability, w, b, g, AFTER_SPINE);
      res := Corroborate(q, w, res, b, g);
    }

    lemma NothingYet(b: Before, q: Request, w: World, g: Gates)
      requires b == Look()
      ensures Follows(b, q, w, g, [])
    {}

    // ----- what a submission rests on -----

    /** Nothing reaches the venue without authority: the verdict is no stronger than the spine's,
        a HUMAN verdict rests on a verified approval of this very hash or on an accepted downgrade
        bound to it, the breaker is closed, the hash is new to the registry, a live signature is
        within the rate, and a settlement is within the ceiling and 128 bits. */
    lemma SubmissionIsAuthorized(q: Request, w: World)
      requires ReachedVenue(ExitOf(GatesOf(q, w)))
      ensures var verdict := ResultOf(GatesOf(q, w)).verdict;
        && (verdict == AUTO || verdict == HUMAN) && (verdict == AUTO ==> w.spine == AUTO) && w.spine != BLOCKED
        && (verdict == HUMAN && !Approved(q) ==>
          && q.downgrade.Some? && q.downgrade.value.body.actionHash == q.actionHash
          && GatesOf(q, w).downgradeAccepted && Remaining(GatesOf(q, w).codes, GatesOf(q, w).released) == [])
      ensures breaker == null || !breaker.open
      ensures (q.action.tenantId, q.actionHash) !in registry.byHash && !Replay.Expired(Registration(q))
      ensures tenant.live && velocity != null ==> Velocity.CheckSpec(velocity.lim, velocity.View(), velocity.clock.t).1
      ensures q.action.capability == CHAIN_SETTLE ==>
        && IsAddress(q.action.destination) && IntentValue(q.action).Some? && 0 <= IntentValue(q.action).value < TWO_TO_THE_128
        && (maxValueWei.Some? ==> IntentValue(q.action).value <= maxValueWei.value)
    {
      hide StructureOk, VerdictText, ActivePems, Hygiene.EvaluateSpec, IsAddress, Remaining, Velocity.CheckSpec;
    }

    /** A well-formed action: tenant, id and capability named, a nonce that is not negative, and no
        expiry before its own timestamp. */
    predicate Structured(a: FinancialAction) {
      && a.tenantId != "" && a.actionId != "" && a.capability != "" && 0 <= a.nonce
      && (a.expiry == 0 || a.timestamp == 0 || a.timestamp <= a.expiry)
    }

    /** The operator approved this very hash, and signed the approval. */
    predicate ApprovedAndSigned(q: Request) {
      && q.approval.Some?
      && var r := q.approval.value;
        && r.body.decision == "approve" && r.body.actionHash == q.actionHash && r.body.approvedActionHash == q.actionHash
        && r.sig != "" && tenant.c.verify(operatorPem, approvalEnc(r.body), r.sig)
    }

    /** The registry does not know the hash, nor the nonce for another hash, and the action has not expired. */
    predicate NewAndInTime(q: Request)
      reads registry
    {
      && (q.action.expiry == 0 || now == 0 || now <= q.action.expiry)
      && (q.action.tenantId, q.actionHash) !in registry.byHash
      && ((q.action.tenantId, q.action.nonce) in registry.byNonce ==>
        registry.byNonce[(q.action.tenantId, q.action.nonce)] == q.actionHash)
    }

    /** Enough time since the last live signature, and not too many in the window. */
    predicate RateKept()
      reads velocity, if velocity == null then {} else {velocity.clock}
    {
      velocity != null ==>
        && (velocity.last.None? || velocity.clock.t - velocity.last.value >= velocity.lim.minInterval)
        && |Velocity.Recent(velocity.times, velocity.clock.t, velocity.lim.window)| < velocity.lim.maxPerWindow
    }

    ghost function Found(q: Request, w: World): Hygiene.HygieneVerdict
      reads tenant
    {
      Hygiene.EvaluateSpec(hygiene, q.action, tenant.settlementAllowlist, if w.spine == AUTO then "AUTO" else "HUMAN")
    }

    /** A downgrade that is accepted for this action and releases every violation. */
    ghost predicate FullyReleased(q: Request, w: World)
      reads tenant, tenant.operatorKeys
    {
      && q.downgrade.Some?
      && DowngradeAccepted(tenant.c, downgradeEnc, q.downgrade.value, q.actionHash, Found(q, w).violations,
                           ActivePems(tenant.operatorKeys.entries, w.keyTime), tenant.usedCommandNonces)
      && forall c :: c in Found(q, w).violations ==> c in q.downgrade.value.body.violationIds
    }

    lemma GatesLater(q: Request, w: World)
      ensures var g := GatesOf(q, w);
        && (g.structureOk <==> Structured(q.action)) && (g.approved <==> ApprovedAndSigned(q))
        && (q.action.tenantId != "" && 0 <= q.action.nonce ==> (g.registered <==> NewAndInTime(q)))
        && (g.withinRate <==> RateKept()) && (g.settlementOk <==> Settleable(q.action, maxValueWei))
        && (g.signable <==> q.action.capability in {"rathnone.chain_settle", "rathnone.trade_execute"})
        && g.live == tenant.live && g.halted == (breaker != null && breaker.open) && g.riskOk == w.riskOk && g.spine == w.spine
        && g.venueAnswers == w.venueAnswers && (g.reconciled <==> w.reconciliation == "MATCH")
    {
      hide Hygiene.EvaluateSpec, ActivePems, DowngradeAccepted, Replay.MemRegister, Velocity.CheckSpec, SettlementOk, Settleable, Velocity.Recent;
      SettlementExactly(q.action, maxValueWei);
      Replay.MemRegisterExactly(registry.View(), Registration(q));
      if velocity != null { Velocity.CheckExactly(velocity.lim, velocity.View(), velocity.clock.t); }
    }

    lemma GatesOfHygiene(q: Request, w: World)
      requires w.spine != BLOCKED
      ensures var g, found := GatesOf(q, w), Found(q, w);
        && g.hygieneOk == found.ok && g.codes == found.violations
        && (g.downgradeOffered && g.downgradeAccepted && (forall c :: c in g.codes ==> c in g.released) <==> FullyReleased(q, w))
    {
      hide Hygiene.EvaluateSpec, ActivePems, DowngradeAccepted, Replay.MemRegister, Velocity.CheckSpec, SettlementOk, Approved, StructureOk;
      assert VerdictText(w.spine) == if w.spine == AUTO then "AUTO" else "HUMAN";
    }

    /** Exactly when a run submits to the venue, in terms of the request, the world, the keys and
        the state of the collaborators. */
    lemma SubmissionExactly(q: Request, w: World)
      ensures ReachedVenue(ExitOf(GatesOf(q, w)))
         <==> (Structured(q.action) && w.spine != BLOCKED
               && (Found(q, w).ok || FullyReleased(q, w))
               && w.riskOk
               && (w.spine == HUMAN && Found(q, w).ok ==> ApprovedAndSigned(q))
               && NewAndInTime(q)
               && (breaker == null || !breaker.open)
               && Settleable(q.action, maxValueWei)
               && (tenant.live ==> RateKept() && q.action.capability in {"rathnone.chain_settle", "rathnone.trade_execute"}))
    {
      hide GatesOf, ExitOf, Settleable, FullyReleased, Found, NewAndInTime, RateKept, ApprovedAndSigned;
      var g := GatesOf(q, w);
      SubmitsExactlyWhenAllOpen(g);
      GatesLater(q, w);
      if w.spine != BLOCKED { GatesOfHygiene(q, w); }
    }

    /** While the hygiene layer is on, an action to a destination that is not on the tenant's list
        gets past it only with two different active operator keys' signatures on one downgrade. */
    lemma OffListNeedsTwo(q: Request, w: World)
      requires hygiene.enabled && q.action.destination != "" && q.action.destination !in tenant.settlementAllowlist
      requires PastHygiene(ExitOf(GatesOf(q, w))) && "" !in ActivePems(tenant.operatorKeys.entries, w.keyTime)
      ensures q.downgrade.Some?
      ensures var d, allow := q.downgrade.value, ActivePems(tenant.operatorKeys.entries, w.keyTime);
        exists p, s :: p in allow && s in allow && p != s
          && tenant.c.verify(p, downgradeEnc(d.body), d.sig) && tenant.c.verify(s, downgradeEnc(d.body), d.secondSig)
    {
      hide Hygiene.EvaluateSpec, ActivePems, DowngradeAccepted, GatesOf, NoncesAfter;
      var g := GatesOf(q, w);
      PastSpineOf(g);
      GatesHere(q, w);
      GatesSpine(q, w);
      var code := DestinationCode(q, w);
      ReleaseIsSigned(q, w);
      var d, allow := q.downgrade.value, ActivePems(tenant.operatorKeys.entries, w.keyTime);
      assert code in g.codes && code in SECOND_OPERATOR_CODES;
      var p :| p in allow && tenant.c.verify(p, downgradeEnc(d.body), d.sig)
        && ((exists code :: code in g.codes && code in SECOND_OPERATOR_CODES) ==>
          exists s :: s in allow && s != p && tenant.c.verify(s, downgradeEnc(d.body), d.secondSig));
      var s :| s in allow && s != p && tenant.c.verify(s, downgradeEnc(d.body), d.secondSig);
      assert p in allow && s in allow && p != s;
    }

    lemma GatesSpine(q: Request, w: World)
      ensures GatesOf(q, w).spine == w.spine
    {
      hide Hygiene.EvaluateSpec, ActivePems, DowngradeAccepted, Replay.MemRegister, Velocity.CheckSpec, SettlementOk, Approved, StructureOk;
    }

    lemma DestinationCode(q: Request, w: World) returns (code: string)
      requires hygiene.enabled && q.action.destination != "" && q.action.destination !in tenant.settlementAllowlist
      requires w.spine != BLOCKED
      ensures code in Hygiene.EvaluateSpec(hygiene, q.action, tenant.settlementAllowlist, VerdictText(w.spine)).violations
      ensures code in SECOND_OPERATOR_CODES
      ensures !Hygiene.EvaluateSpec(hygiene, q.action, tenant.settlementAllowlist, VerdictText(w.spine)).ok
    {
      code := if tenant.settlementAllowlist == {} then "destination_untrusted" else "destination_off_allowlist";
      hide Hygiene.EvaluateSpec, Hygiene.QuoteList, Hygiene.Verifiable, Hygiene.InBand;
      var _, _ := Hygiene.CodesExactly(hygiene, q.action, tenant.settlementAllowlist, VerdictText(w.spine));
    }

    /** An action with hygiene violations passes only under a downgrade that releases exactly its
        codes, is signed under an active operator key, and under two different ones when a code
        concerns the destination; its nonce was unused and is used up by the run. */
    lemma ReleaseIsSigned(q: Request, w: World)
      requires PastHygiene(ExitOf(GatesOf(q, w))) && !GatesOf(q, w).hygieneOk
      requires "" !in ActivePems(tenant.operatorKeys.entries, w.keyTime)
      ensures q.downgrade.Some?
      ensures var g, d, allow := GatesOf(q, w), q.downgrade.value, ActivePems(tenant.operatorKeys.entries, w.keyTime);
        && SetOf(d.body.violationIds) == SetOf(g.codes) && d.body.actionHash == q.actionHash
        && d.body.nonce !in tenant.usedCommandNonces
        && d.body.nonce in NoncesAfter(tenant.usedCommandNonces, d.body.nonce, g)
        && exists p :: (p in allow && tenant.c.verify(p, downgradeEnc(d.body), d.sig)
          && ((exists code :: code in g.codes && code in SECOND_OPERATOR_CODES) ==>
            exists s :: s in allow && s != p && tenant.c.verify(s, downgradeEnc(d.body), d.secondSig)))
    {
      hide GatesOf, DowngradeAccepted, Hygiene.EvaluateSpec, ActivePems, GatesAhead, NoncesAfter, ResultOf, SetOf;
      GatesHere(q, w);
      var g := GatesOf(q, w);
      assert Released(g) by { PastIsCleared(g); }
      var d, allow := q.downgrade.value, ActivePems(tenant.operatorKeys.entries, w.keyTime);
      AcceptedIsBound(tenant.c, downgradeEnc, d, q.actionHash, g.codes, allow, tenant.usedCommandNonces);
      HygieneNeedsFullRelease(g, tenant.usedCommandNonces, d.body.nonce);
      FullReleaseIsSigned(tenant.c, downgradeEnc, d, q.actionHash, g.codes, allow, tenant.usedCommandNonces);
    }

    /** What a run adds to the ledger. */
    lemma LedgerOfRun(b: Before, q: Request, w: World, g: Gates, res: PipelineResult) returns (added: seq<Ledger.Record>)
      requires Outcome(b, q, w, g, res) && (g.downgradeOffered <==> q.downgrade.Some?)
      ensures tenant.records == b.records + added
      ensures LedgerTells(added, q, w, g, res.exit)
    {
      hide Ledger.AppendAll, Follows, Ledger.Carries, LedgerBodies, LedgerTells, Ledger.CarriesEach, ExitOf, ResultOf,
           RegistryAfter, NoncesAfter, GuardAfter;
      added := Ledger.AppendedCarry(tenant.d, tenant.c, tenant.enc, tenant.sk, b.records, LedgerBodies(q, w, g));
      CompletedResult(g);
      BodiesTell(added, q, w, g);
    }

    /** The events a run leaves, as a reader of the graph sees them: in order, each with its state,
        type and word, all of this tenant's action, hashed, linked and stamped with the pipeline's time. */
    lemma EventsOfRun(b: Before, q: Request, w: World, g: Gates, res: PipelineResult)
      requires Outcome(b, q, w, g, res) && g.spine == w.spine && g.reconciled == Reconciled(w)
      ensures |b.events| <= |evidence.events| && evidence.events[..|b.events|] == b.events
      ensures var chunk := evidence.events[|b.events|..];
        && Reads(chunk, Account(q, w, g, res.exit))
        && forall i :: 0 <= i < |chunk| ==>
          && chunk[i].body.actionId == q.action.actionId && chunk[i].body.tenantId == q.action.tenantId
          && chunk[i].body.actionHash == q.actionHash && chunk[i].body.timestamp == now
          && chunk[i].eventHash == evidence.hash(chunk[i].body)
          && chunk[i].body.prevEventHash == (if i == 0 then b.head else chunk[i - 1].eventHash)
    {
      TellsAll(q, w, g);
      CompletedResult(g);
      hide ExitOf, ResultOf, Labels, Told, Account, Leaves, Recorded;
      var chunk := evidence.events[|b.events|..];
      RecordedEach(evidence.hash, chunk, b.head, q.action, q.actionHash, now, Labels(g));
      ReadsAsTold(evidence.hash, chunk, b.head, q, w, g, now, Labels(g), Account(q, w, g, res.exit));
    }

    /** What else a run leaves behind: the downgrade's nonce is used up once the downgrade has been
        accepted, wherever the run ends; the rate guard has been asked exactly when a live signature was
        due; and an action that was admitted is on record with the status of how far it came. */
    lemma StateOfRun(b: Before, q: Request, w: World, g: Gates, res: PipelineResult)
      requires Outcome(b, q, w, g, res) && (g.downgradeOffered <==> q.downgrade.Some?)
      requires AskedRegistry(res.exit) ==> g.registered == Replay.MemRegister(b.memory, Registration(q)).1
      ensures tenant.usedCommandNonces
           == (if g.structureOk && g.spine != BLOCKED && !g.hygieneOk && q.downgrade.Some? && g.downgradeAccepted
               then b.used + {q.downgrade.value.body.nonce} else b.used)
      ensures GuardView()
           == (if velocity != null && g.live && res.exit in {TooFast, SignerRaised, VenueRaised, Completed}
               then Velocity.CheckSpec(velocity.lim, b.guard, velocity.clock.t).0 else b.guard)
      ensures !AskedRegistry(res.exit) ==> registry.View() == b.memory
      ensures AskedRegistry(res.exit) && g.registered ==>
        var a := q.action;
        && registry.byHash == b.memory.byHash[(a.tenantId, q.actionHash)
             := Replay.ActionRecord(a.actionId, a.tenantId, q.actionHash, a.nonce, StatusAt(res.exit, g.live), now)]
        && registry.byNonce == b.memory.byNonce[(a.tenantId, a.nonce) := q.actionHash]
    {
      CompletedResult(g);
      ConsultsHygiene(g);
      RunOnRecord(b.memory, q.action, q.actionHash, now, g);
      hide ExitOf, ResultOf, Labels, Follows, LedgerBodies, RegistryAfter, Replay.MemRegister, Velocity.CheckSpec;
    }

    /** The trace a run leaves, in every state. verify_chain_integrity still holds for the whole
        graph exactly when the run emitted nothing or its head was the last event of its action;
        validate_transitions finds nothing, for a new action, exactly when the tenant is live or a
        gate was closed or the venue did not answer, and, for an action with earlier events,
        exactly when those were legal and the run emitted nothing. */
    lemma TraceOfRun(b: Before, q: Request, w: World, g: Gates, res: PipelineResult)
      requires Outcome(b, q, w, g, res) && Integrity(b.events)
      ensures Integrity(evidence.events) <==> !g.structureOk || EndHash(EventsOf(b.events, q.action.actionId), "") == b.head
      ensures var earlier := EventsOf(b.events, q.action.actionId);
        LegalChain(EventsOf(evidence.events, q.action.actionId))
        <==> (if earlier == [] then g.live || !AllOpen(g) || !g.venueAnswers else LegalChain(earlier) && !g.structureOk)
    {
      hide ExitOf, ResultOf, Labels, LegalChain, Chained, EventsOf, Integrity, AllOpen, Recorded, Leaves, EndHash;
      var chunk, earlier := evidence.events[|b.events|..], EventsOf(b.events, q.action.actionId);
      assert evidence.events == b.events + chunk;
      RecordedLegalExactly(evidence.hash, chunk, b.head, q.action, q.actionHash, now, g);
      RecordedIsAction(evidence.hash, chunk, b.head, q.action, q.actionHash, now, Labels(g));
      LabelsBegin(g);
      IntegrityExactly(b.events, chunk, q.action.actionId, b.head);
      EventsOfChunk(b.events, chunk, q.action.actionId, q.action.actionId);
      assert [] + chunk == chunk && earlier + [] == earlier;
      if earlier != [] && chunk != [] { RestartIsIllegal(earlier, chunk); }
    }
  }
}
