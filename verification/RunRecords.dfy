/** What a run of src/service/pipeline.py records: the events it emits and the entries it appends
    to the tenant's ledger, as a reader of either finds them. */
module RunRecords {
  import opened Basics
  import opened Action
  import opened EvidenceChain
  import opened Operator
  import opened PipelineSpec
  import Ledger

  datatype Request = Request(action: FinancialAction, actionHash: string, approval: Option<ApprovalRecord>,
                             downgrade: Option<DowngradeRecord>)

  /** What the outside answers: the spine, the risk engine, the wall clock, the venue (which may
      raise), the reconciliation, and the text of the live signature. */
  datatype World = World(spine: Verdict, riskOk: bool, keyTime: int, venueAnswers: bool, venueState: string,
                         reconciliation: string, reconciliationDetail: string, signer: Ledger.Json, signerPubkey: string,
                         signature: Ledger.Json)

  predicate Reconciled(w: World) {
    w.reconciliation == "MATCH"
  }

  function ExitText(e: Exit): string {
    match e
    case SpineBlocked => "epistemic BLOCKED"
    case DowngradeRefused => "hygiene downgrade refused"
    case DowngradePartial => "hygiene partial release"
    case HygieneBlocked => "hygiene BLOCKED"
    case RiskBlocked => "risk BLOCKED"
    case Unapproved => "missing/invalid/forged approval"
    case Replayed => "replay/isolation"
    case Halted => "breaker open"
    case GateRefused => "settlement gate"
    case TooFast => "velocity"
    case _ => ""
  }

  /** Who approved: the operator of the downgrade that released the violations, else the one of
      the approval. */
  function Approver(q: Request, released: bool): string {
    if released && q.downgrade.Some? then q.downgrade.value.body.operatorId
    else if q.approval.Some? then q.approval.value.body.operatorId
    else ""
  }

  /** signer_address, or else signer_pubkey. */
  function SignerText(w: World): string {
    if w.signer.Str? && w.signer.s != "" then w.signer.s else w.signerPubkey
  }

  function PassText(ok: bool): string {
    if ok then "ok" else "failed"
  }

  /** What the event of each kind says beside its state. */
  function Telling(q: Request, w: World, g: Gates, kind: Kind): string {
    match kind
    case EPISTEMIC => VerdictText(w.spine)
    case POLICY => q.action.capability
    case HYGIENE => PassText(g.hygieneOk)
    case RISK => PassText(w.riskOk)
    case APPROVAL => if Standing(g) == HUMAN then Approver(q, Released(g)) else "auto_approved"
    case SIGNATURE => SignerText(w)
    case SUBMISSION => w.venueState
    case RECONCILIATION => w.reconciliation
    case REJECTION => ExitText(ExitOf(g))
  }

  lemma EndWords(q: Request, w: World, g: Gates)
    ensures Telling(q, w, g, SUBMISSION) == w.venueState && Telling(q, w, g, RECONCILIATION) == w.reconciliation
  {}

  ghost predicate Told(chunk: seq<Event>, q: Request, w: World, g: Gates, labels: seq<Label>) {
    |chunk| == |labels| && forall i :: 0 <= i < |chunk| ==> chunk[i].body.payload == Telling(q, w, g, labels[i].1)
  }

  lemma ToldSnoc(chunk: seq<Event>, q: Request, w: World, g: Gates, labels: seq<Label>, ev: Event, step: Label)
    requires Told(chunk, q, w, g, labels) && ev.body.payload == Telling(q, w, g, step.1)
    ensures Told(chunk + [ev], q, w, g, labels + [step])
  {
    hide Telling;
  }

  /** The word of a rejection says which gate was closed. */
  lemma RejectionTellsGate(e: Exit, f: Exit)
    requires Refuses(e) && Refuses(f) && ExitText(e) == ExitText(f)
    ensures e == f
  {}

  /** One event as a reader sees it. */
  datatype Spoken = Spoken(state: ActionState, eventType: string, says: string)

  /** The first five events of a run that no layer refuses. */
  function Prelude(q: Request, w: World, g: Gates): seq<Spoken> {
    [Spoken(PROPOSED, "EPISTEMIC", if w.spine == AUTO then "AUTO" else if w.spine == HUMAN then "HUMAN" else "BLOCKED"),
     Spoken(AUTHORIZED, "AUTHORIZED", q.action.capability),
     Spoken(EVALUATED, "HYGIENE", if g.hygieneOk then "ok" else "failed"),
     Spoken(EVALUATED, "RISK", if w.riskOk then "ok" else "failed"),
     Spoken(APPROVED, "APPROVAL",
            if g.spine == AUTO && g.hygieneOk then "auto_approved"
            else if !g.hygieneOk && q.downgrade.Some? then q.downgrade.value.body.operatorId
            else if q.approval.Some? then q.approval.value.body.operatorId else "")]
  }

  /** What follows once every gate stood open. */
  function Execution(w: World, live: bool): seq<Spoken> {
    (if live then [Spoken(SIGNED, "SIGNATURE", if w.signer.Str? && w.signer.s != "" then w.signer.s else w.signerPubkey)] else [])
    + [Spoken(SUBMITTED, "SUBMISSION", w.venueState),
       Spoken(if w.reconciliation == "MATCH" then SETTLED else FAILED, "RECONCILIATION", w.reconciliation)]
  }

  /** How many of the first five events come before the end of a run. */
  function Passes(e: Exit): nat {
    match e
    case Structural => 0
    case SpineBlocked => 1
    case DowngradeRefused => 2
    case DowngradePartial => 2
    case HygieneBlocked => 3
    case RiskBlocked => 4
    case Unapproved => 4
    case _ => 5
  }

  predicate Refuses(e: Exit) {
    e != Structural && e != Completed && e != VenueRaised && e != SignerRaised
  }

  /** The events of a run that ends at e: a completed run leaves them all, one that the venue
      raises on lacks the last two, and a refused one ends with its rejection. */
  function Account(q: Request, w: World, g: Gates, e: Exit): seq<Spoken> {
    if e == Completed then Prelude(q, w, g) + Execution(w, g.live)
    else if e == VenueRaised then Prelude(q, w, g) + Execution(w, g.live)[..if g.live then 1 else 0]
    else Prelude(q, w, g)[..Passes(e)] + if Refuses(e) then [Spoken(REJECTED, "REJECTION", ExitText(e))] else []
  }

  function SpokenAt(q: Request, w: World, g: Gates, l: Label): Spoken {
    Spoken(l.0, KindText(l.1), Telling(q, w, g, l.1))
  }

  predicate Tells(q: Request, w: World, g: Gates, labels: seq<Label>, steps: seq<Spoken>) {
    |steps| == |labels| && forall i :: 0 <= i < |steps| ==> steps[i] == SpokenAt(q, w, g, labels[i])
  }

  predicate Reads(chunk: seq<Event>, steps: seq<Spoken>) {
    |chunk| == |steps| && forall i :: 0 <= i < |chunk| ==>
      Spoken(chunk[i].body.state, chunk[i].body.eventType, chunk[i].body.payload) == steps[i]
  }

  // ----- ledger entries of a run -----

  function Flag(b: bool): Ledger.Json {
    Ledger.Other(if b then "true" else "false")
  }

  function CommonBody(event: string, q: Request): Ledger.Record {
    map["event" := Ledger.Str(event), "action_id" := Ledger.Str(q.action.actionId),
        "action_hash" := Ledger.Str(q.actionHash), "intent_hash" := Ledger.Str(q.actionHash)]
  }

  function LiveSignEntry(q: Request, w: World): Ledger.Record {
    CommonBody("live_sign", q)
      ["capability" := Ledger.Str(q.action.capability)]["settlement_address" := w.signer]["live_signature" := w.signature]
  }

  function DowngradeEntry(q: Request, r: DowngradeRecord): Ledger.Record {
    CommonBody("hygiene_downgrade", q)
      ["released_violations" := Ledger.Strs(r.body.violationIds)]
      ["operator_id" := Ledger.Str(r.body.operatorId)]["operator_pubkey_pem" := Ledger.Str(r.pubkeyPem)]
      ["reason" := Ledger.Str(r.body.reason)]["nonce" := Ledger.Int(r.body.nonce)]
      ["second_operator_id" := Ledger.Str(r.body.secondOperatorId)]
      ["second_operator_pubkey_pem" := Ledger.Str(r.secondPubkeyPem)]
  }

  function WithGates(m: Ledger.Record, q: Request, verdict: Verdict, riskOk: bool, approvalBound: bool, replayOk: bool): Ledger.Record {
    m["capability" := Ledger.Str(q.action.capability)]["verdict" := Ledger.Str(VerdictText(verdict))]
     ["risk_ok" := Flag(riskOk)]["approval_bound" := Flag(approvalBound)]["replay_ok" := Flag(replayOk)]
  }

  function WithEnd(m: Ledger.Record, w: World, live: bool): Ledger.Record {
    m["venue_state" := Ledger.Str(w.venueState)]["reconciliation" := Ledger.Str(w.reconciliation)]
     ["reconciliation_detail" := Ledger.Str(w.reconciliationDetail)]
     ["live_signature" := if live then w.signature else Ledger.Other("null")]
  }

  function RunEntry(q: Request, w: World, live: bool, verdict: Verdict, riskOk: bool, approvalBound: bool, replayOk: bool): Ledger.Record {
    WithEnd(WithGates(CommonBody("v2_pipeline", q), q, verdict, riskOk, approvalBound, replayOk), w, live)
  }

  function SignedEntries(q: Request, w: World, g: Gates): seq<Ledger.Record> {
    if g.live then [LiveSignEntry(q, w)] else []
  }

  function NonceOf(q: Request): int {
    if q.downgrade.Some? then q.downgrade.value.body.nonce else 0
  }

  /** The entries a run appends: a live signature once it is made, and at the end the operator's
      override, if one was used, and the run itself. */
  function LedgerBodies(q: Request, w: World, g: Gates): seq<Ledger.Record> {
    var e, res, signed := ExitOf(g), ResultOf(g), SignedEntries(q, w, g);
    var released := if Released(g) && q.downgrade.Some? then signed + [DowngradeEntry(q, q.downgrade.value)] else signed;
    if e.Completed? then released + [RunEntry(q, w, g.live, res.verdict, res.riskOk, res.approvalBound, res.replayOk)]
    else if e.VenueRaised? then signed
    else []
  }

  lemma TellsFive(q: Request, w: World, g: Gates)
    requires g.spine == w.spine && (PastSpine(g) && Cleared(g) ==> (Released(g) <==> !g.hygieneOk))
    ensures forall n :: 0 <= n <= 5 && (n == 5 ==> PastSpine(g) && Cleared(g)) ==> Tells(q, w, g, AFTER_HUMAN[..n], Prelude(q, w, g)[..n])
  {
    hide ExitOf, ExitText;
  }

  lemma TellsJoined(q: Request, w: World, g: Gates, labels: seq<Label>, steps: seq<Spoken>, more: seq<Label>, further: seq<Spoken>)
    requires Tells(q, w, g, labels, steps) && Tells(q, w, g, more, further)
    ensures Tells(q, w, g, labels + more, steps + further)
  {
    hide SpokenAt;
  }

  lemma TellsRefusal(q: Request, w: World, g: Gates)
    ensures Tells(q, w, g, [REFUSAL], [Spoken(REJECTED, "REJECTION", ExitText(ExitOf(g)))])
  {
    hide ExitOf, ExitText;
  }

  lemma TellsTail(q: Request, w: World, g: Gates)
    requires g.reconciled == Reconciled(w)
    ensures Tells(q, w, g, SignedStep(g), Execution(w, g.live)[..if g.live then 1 else 0])
    ensures Tells(q, w, g, SignedStep(g) + EndSteps(g), Execution(w, g.live))
  {
    hide ExitOf, ExitText;
  }

  /** The labels of a run, as a reader sees them. */
  lemma TellsAll(q: Request, w: World, g: Gates)
    requires g.spine == w.spine && g.reconciled == Reconciled(w)
    ensures Tells(q, w, g, Labels(g), Account(q, w, g, ExitOf(g)))
  {
    var e := ExitOf(g);
    var n := Passes(e);
    assert PastSpine(g) && Cleared(g) ==> (Released(g) <==> !g.hygieneOk);
    LabelShape(g);
    TellsFive(q, w, g);
    TellsRefusal(q, w, g);
    TellsTail(q, w, g);
    assert Prelude(q, w, g)[..5] == Prelude(q, w, g) && AFTER_HUMAN[..5] == AFTER_HUMAN;
    hide Telling, KindText, SpokenAt, Tells, ExitText, Prelude, ExitOf, Labels, Passes, PastSpine, Cleared, Released, Execution,
         SignedStep, EndSteps, Account;
    TellsWhole(q, w, g, e, AFTER_HUMAN, AFTER_HUMAN[..n]);
  }

  /** The same, given the first five labels and those of them that the run leaves. */
  lemma TellsWhole(q: Request, w: World, g: Gates, e: Exit, five: seq<Label>, some: seq<Label>)
    requires e == Completed || e == VenueRaised ==> Tells(q, w, g, five, Prelude(q, w, g))
    requires Passes(e) <= 5 && Tells(q, w, g, some, Prelude(q, w, g)[..Passes(e)])
    requires Tells(q, w, g, [REFUSAL], [Spoken(REJECTED, "REJECTION", ExitText(e))])
    requires Tells(q, w, g, SignedStep(g), Execution(w, g.live)[..if g.live then 1 else 0])
    requires Tells(q, w, g, SignedStep(g) + EndSteps(g), Execution(w, g.live))
    ensures Tells(q, w, g, if e == Completed then five + SignedStep(g) + EndSteps(g)
                           else if e == VenueRaised then five + SignedStep(g)
                           else some + if Refuses(e) then [REFUSAL] else [],
                  Account(q, w, g, e))
  {
    hide Tells, ExitText, Prelude, Passes, Execution, SignedStep, EndSteps;
    Lengths(q, w, g);
    if e == Completed {
      TellsJoined(q, w, g, five, Prelude(q, w, g), SignedStep(g) + EndSteps(g), Execution(w, g.live));
      assert five + SignedStep(g) + EndSteps(g) == five + (SignedStep(g) + EndSteps(g));
    } else if e == VenueRaised {
      TellsSome(q, w, g, five, Prelude(q, w, g), SignedStep(g));
    } else {
      TellsRefused(q, w, g, e, some, Prelude(q, w, g));
    }
  }

  lemma Lengths(q: Request, w: World, g: Gates)
    ensures |Prelude(q, w, g)| == 5 && |Execution(w, g.live)| >= 2
  {}

  lemma TellsSome(q: Request, w: World, g: Gates, five: seq<Label>, says: seq<Spoken>, signed: seq<Label>)
    requires Tells(q, w, g, five, says) && |Execution(w, g.live)| >= 2
    requires Tells(q, w, g, signed, Execution(w, g.live)[..if g.live then 1 else 0])
    ensures Tells(q, w, g, five + signed, says + Execution(w, g.live)[..if g.live then 1 else 0])
  {
    hide Tells, Execution;
    TellsJoined(q, w, g, five, says, signed, Execution(w, g.live)[..if g.live then 1 else 0]);
  }

  lemma TellsRefused(q: Request, w: World, g: Gates, e: Exit, some: seq<Label>, says: seq<Spoken>)
    requires Passes(e) <= 5 == |says| && Tells(q, w, g, some, says[..Passes(e)])
    requires Tells(q, w, g, [REFUSAL], [Spoken(REJECTED, "REJECTION", ExitText(e))])
    ensures Tells(q, w, g, some + if Refuses(e) then [REFUSAL] else [],
                  says[..Passes(e)] + if Refuses(e) then [Spoken(REJECTED, "REJECTION", ExitText(e))] else [])
  {
    hide Tells, ExitText, Passes;
    if Refuses(e) {
      TellsJoined(q, w, g, some, says[..Passes(e)], [REFUSAL], [Spoken(REJECTED, "REJECTION", ExitText(e))]);
    } else {
      assert says[..Passes(e)] + [] == says[..Passes(e)] && some + [] == some;
    }
  }

  function SignedStep(g: Gates): seq<Label> {
    if g.live then [(SIGNED, SIGNATURE)] else []
  }

  function EndSteps(g: Gates): seq<Label> {
    [(SUBMITTED, SUBMISSION), (if g.reconciled then SETTLED else FAILED, RECONCILIATION)]
  }

  lemma LabelShape(g: Gates)
    ensures var e := ExitOf(g); var n := Passes(e);
      && (n == 5 ==> PastSpine(g) && Cleared(g))
      && (e == Completed || e == VenueRaised || e == SignerRaised ==> n == 5)
      && n <= 5
      && Labels(g)
         == if e == Completed then
              AFTER_HUMAN + SignedStep(g) + EndSteps(g)
            else if e == VenueRaised then AFTER_HUMAN + SignedStep(g)
            else AFTER_HUMAN[..n] + if Refuses(e) then [REFUSAL] else []
  {
  }

  lemma ReadsAsTold(hash: EventHash, chunk: seq<Event>, head: string, q: Request, w: World, g: Gates, now: int,
                    labels: seq<Label>, steps: seq<Spoken>)
    requires Recorded(hash, chunk, head, q.action, q.actionHash, now, labels)
    requires Told(chunk, q, w, g, labels) && Tells(q, w, g, labels, steps)
    ensures Reads(chunk, steps)
  {
    hide Telling, KindText, Chained, AllOf;
  }

  // ----- what the entries of a run say, field by field -----

  predicate Says(r: Ledger.Record, field: string, v: Ledger.Json) {
    field in r && r[field] == v
  }

  predicate AboutAction(r: Ledger.Record, event: string, q: Request) {
    && Says(r, "event", Ledger.Str(event)) && Says(r, "action_id", Ledger.Str(q.action.actionId))
    && Says(r, "action_hash", Ledger.Str(q.actionHash)) && Says(r, "intent_hash", Ledger.Str(q.actionHash))
  }

  /** The live signature over the authorized intent, with the address that signed it. */
  predicate RecordsSignature(r: Ledger.Record, q: Request, w: World) {
    && AboutAction(r, "live_sign", q) && Says(r, "capability", Ledger.Str(q.action.capability))
    && Says(r, "settlement_address", w.signer) && Says(r, "live_signature", w.signature)
  }

  /** The operator's override: what was released, by whom, why, and under which nonce. */
  predicate RecordsOverride(r: Ledger.Record, q: Request, d: DowngradeRecord) {
    && AboutAction(r, "hygiene_downgrade", q) && Says(r, "released_violations", Ledger.Strs(d.body.violationIds))
    && Says(r, "operator_id", Ledger.Str(d.body.operatorId)) && Says(r, "operator_pubkey_pem", Ledger.Str(d.pubkeyPem))
    && Says(r, "reason", Ledger.Str(d.body.reason)) && Says(r, "nonce", Ledger.Int(d.body.nonce))
    && Says(r, "second_operator_id", Ledger.Str(d.body.secondOperatorId))
    && Says(r, "second_operator_pubkey_pem", Ledger.Str(d.secondPubkeyPem))
  }

  /** A verdict of AUTO, or of HUMAN with an approval, and every gate passed. */
  predicate RecordsGates(r: Ledger.Record, q: Request, auto: bool) {
    && Says(r, "capability", Ledger.Str(q.action.capability))
    && Says(r, "verdict", Ledger.Str(if auto then "AUTO" else "HUMAN"))
    && Says(r, "risk_ok", Ledger.Other("true")) && Says(r, "replay_ok", Ledger.Other("true"))
    && Says(r, "approval_bound", Ledger.Other(if auto then "false" else "true"))
  }

  /** What the venue and the reconciliation answered, and the live signature, if any. */
  predicate RecordsEnd(r: Ledger.Record, w: World, live: bool) {
    && Says(r, "venue_state", Ledger.Str(w.venueState))
    && Says(r, "reconciliation", Ledger.Str(w.reconciliation))
    && Says(r, "reconciliation_detail", Ledger.Str(w.reconciliationDetail))
    && Says(r, "live_signature", if live then w.signature else Ledger.Other("null"))
  }

  predicate RecordsRun(r: Ledger.Record, q: Request, w: World, live: bool, auto: bool) {
    AboutAction(r, "v2_pipeline", q) && RecordsGates(r, q, auto) && RecordsEnd(r, w, live)
  }

  lemma ActionIsCarried(r: Ledger.Record, body: Ledger.Record, event: string, q: Request)
    requires Ledger.Carries(r, body) && AboutAction(body, event, q)
    ensures AboutAction(r, event, q)
  {}

  lemma SignatureIsRecorded(r: Ledger.Record, q: Request, w: World)
    requires Ledger.Carries(r, LiveSignEntry(q, w))
    ensures RecordsSignature(r, q, w)
  {
    assert RecordsSignature(LiveSignEntry(q, w), q, w);
    hide LiveSignEntry;
    ActionIsCarried(r, LiveSignEntry(q, w), "live_sign", q);
    hide AboutAction;
  }

  lemma OverrideSays(q: Request, d: DowngradeRecord)
    ensures RecordsOverride(DowngradeEntry(q, d), q, d)
  {}

  lemma OverrideIsRecorded(r: Ledger.Record, q: Request, d: DowngradeRecord)
    requires Ledger.Carries(r, DowngradeEntry(q, d))
    ensures RecordsOverride(r, q, d)
  {
    OverrideSays(q, d);
    hide DowngradeEntry;
    ActionIsCarried(r, DowngradeEntry(q, d), "hygiene_downgrade", q);
    hide AboutAction;
  }

  lemma WithGatesSays(m: Ledger.Record, q: Request, v: Verdict)
    requires AboutAction(m, "v2_pipeline", q) && (v == AUTO || v == HUMAN)
    ensures var r := WithGates(m, q, v, true, v == HUMAN, true);
      RecordsGates(r, q, v == AUTO) && AboutAction(r, "v2_pipeline", q)
  {}

  lemma WithEndKeeps(m: Ledger.Record, q: Request, w: World, live: bool, auto: bool)
    requires AboutAction(m, "v2_pipeline", q) && RecordsGates(m, q, auto)
    ensures RecordsRun(WithEnd(m, w, live), q, w, live, auto)
  {}

  lemma RunSays(q: Request, w: World, live: bool, v: Verdict)
    requires v == AUTO || v == HUMAN
    ensures RecordsRun(RunEntry(q, w, live, v, true, v == HUMAN, true), q, w, live, v == AUTO)
  {
    var m := CommonBody("v2_pipeline", q);
    assert AboutAction(m, "v2_pipeline", q);
    hide CommonBody, WithGates, WithEnd, AboutAction, RecordsGates, RecordsRun;
    WithGatesSays(m, q, v);
    WithEndKeeps(WithGates(m, q, v, true, v == HUMAN, true), q, w, live, v == AUTO);
  }

  lemma GatesAreCarried(r: Ledger.Record, body: Ledger.Record, q: Request, auto: bool)
    requires Ledger.Carries(r, body) && RecordsGates(body, q, auto)
    ensures RecordsGates(r, q, auto)
  {}

  lemma EndIsCarried(r: Ledger.Record, body: Ledger.Record, w: World, live: bool)
    requires Ledger.Carries(r, body) && RecordsEnd(body, w, live)
    ensures RecordsEnd(r, w, live)
  {}

  lemma RunIsRecorded(r: Ledger.Record, q: Request, w: World, live: bool, v: Verdict)
    requires Ledger.Carries(r, RunEntry(q, w, live, v, true, v == HUMAN, true)) && (v == AUTO || v == HUMAN)
    ensures RecordsRun(r, q, w, live, v == AUTO)
  {
    hide RunEntry, AboutAction, RecordsGates, RecordsEnd, Ledger.Carries;
    var body := RunEntry(q, w, live, v, true, v == HUMAN, true);
    RunSays(q, w, live, v);
    ActionIsCarried(r, body, "v2_pipeline", q);
    GatesAreCarried(r, body, q, v == AUTO);
    EndIsCarried(r, body, w, live);
  }

  /** Nothing before the live signature; that signature when the tenant is live and the venue is
      called; and once the venue has answered, the operator's override if violations were released,
      and last the run itself. */
  predicate LedgerTells(added: seq<Ledger.Record>, q: Request, w: World, g: Gates, e: Exit) {
    && (e != Completed && e != VenueRaised ==> added == [])
    && (e == VenueRaised ==> |added| == if g.live then 1 else 0)
    && ((e == Completed || e == VenueRaised) && g.live ==> added != [] && RecordsSignature(added[0], q, w))
    && (e == Completed ==>
      && |added| == (if g.live then 1 else 0) + (if g.hygieneOk then 0 else 1) + 1
      && RecordsRun(added[|added| - 1], q, w, g.live, g.spine == AUTO && g.hygieneOk)
      && (!g.hygieneOk ==> q.downgrade.Some? && RecordsOverride(added[|added| - 2], q, q.downgrade.value)))
  }

  lemma CompletedResult(g: Gates)
    ensures ResultOf(g).exit == ExitOf(g)
    ensures ExitOf(g) == Completed ==>
      var auto, res := g.spine == AUTO && g.hygieneOk, ResultOf(g);
      && res.verdict == (if auto then AUTO else HUMAN) && res.riskOk && res.approvalBound == !auto && res.replayOk
      && (Released(g) <==> !g.hygieneOk)
      && (Released(g) ==> g.downgradeOffered)
  {}

  lemma BodiesTell(added: seq<Ledger.Record>, q: Request, w: World, g: Gates)
    requires Ledger.CarriesEach(added, LedgerBodies(q, w, g)) && (g.downgradeOffered <==> q.downgrade.Some?)
    ensures LedgerTells(added, q, w, g, ExitOf(g))
  {
    hide Ledger.Carries, LiveSignEntry, DowngradeEntry, RunEntry, RecordsSignature, RecordsOverride, RecordsRun;
    CompletedResult(g);
    hide ExitOf, ResultOf;
    var e, bodies := ExitOf(g), LedgerBodies(q, w, g);
    if (e == Completed || e == VenueRaised) && g.live {
      SignatureIsRecorded(added[0], q, w);
    }
    if e == Completed {
      var n := |added| - 1;
      RunIsRecorded(added[n], q, w, g.live, if g.spine == AUTO && g.hygieneOk then AUTO else HUMAN);
      if !g.hygieneOk { OverrideIsRecorded(added[n - 1], q, q.downgrade.value); }
    }
  }
}
