/** The decision table of src/service/pipeline.py: the gates of a run in order, the exit that
    the first closed gate forces, and what a run leaves behind at that exit. */
module PipelineSpec {
  import opened Basics
  import opened Action
  import opened EvidenceChain
  import Replay

  datatype Verdict = BLOCKED | HUMAN | AUTO

  function VerdictText(v: Verdict): string {
    match v case BLOCKED => "BLOCKED" case HUMAN => "HUMAN" case AUTO => "AUTO"
  }

  // ----- the settlement gate of src/security/guards.py -----

  predicate IsHexDigit(c: char) {
    '0' <= c <= '9' || 'a' <= c <= 'f' || 'A' <= c <= 'F'
  }

  /** ^0x[0-9a-fA-F]{40}$, whose dollar also matches before one final line feed. */
  predicate IsAddress(s: string) {
    && (|s| == 42 || (|s| == 43 && s[42] == '\n'))
    && s[..2] == "0x" && forall i :: 2 <= i < 42 ==> IsHexDigit(s[i])
  }

  /** An address as it is meant: 0x and forty hex digits, nothing else. */
  predicate IsPlainAddress(s: string) {
    |s| == 42 && s[..2] == "0x" && forall i :: 2 <= i < 42 ==> IsHexDigit(s[i])
  }

  /** The pattern admits the meant addresses and exactly one spelling more of each, the one
      that ends in a line feed. */
  lemma AddressExactly(s: string)
    requires IsPlainAddress(s)
    ensures IsAddress(s) && IsAddress(s + "\n")
    ensures forall t :: s < t && IsAddress(t) ==> t == s + "\n"
  {
    assert (s + "\n")[..2] == s[..2];
    forall t | s < t && IsAddress(t) ensures t == s + "\n" {
      assert t == t[..42] + [t[42]];
    }
  }

  /** Of what the pattern admits, the meant addresses are exactly the texts of 42 characters. */
  lemma PlainExactly(s: string)
    requires IsAddress(s)
    ensures IsPlainAddress(s) <==> |s| == 42
  {}

  const TWO_TO_THE_128: int := 0x1_0000_0000_0000_0000_0000_0000_0000_0000

  /** validate_settlement_intent */
  predicate IntentOk(a: FinancialAction, maxValueWei: Option<int>) {
    && IsAddress(a.destination)
    && IntentValue(a).Some? && IntentValue(a).value < TWO_TO_THE_128
    && (maxValueWei.Some? ==> IntentValue(a).value <= maxValueWei.value)
    && a.nonce >= 0
  }

  /** validate_order */
  predicate OrderOk(a: FinancialAction) {
    Lower(a.side) in {"buy", "sell"} && a.quantity > 0.0
  }

  predicate SettlementOk(a: FinancialAction, maxValueWei: Option<int>) {
    && !(!a.evidence.isEmpty && a.evidence.bindsIdentity)
    && (a.capability == CHAIN_SETTLE ==> IntentOk(a, maxValueWei))
    && (a.capability == TRADE_EXECUTE ==> OrderOk(a))
  }

  /** What the settlement gate lets through: no advisory evidence that binds an identity; for
      chain_settle a whole number of wei below 2^128 and within the ceiling, namely the floor of
      quantity times price when the asset or the currency is wei, and else the quantity; for
      trade_execute a positive quantity to buy or to sell, in any case of letters. */
  ghost predicate Settleable(a: FinancialAction, maxValueWei: Option<int>) {
    && (a.evidence.isEmpty || !a.evidence.bindsIdentity)
    && (a.capability == "rathnone.chain_settle" ==>
      && 0 <= a.nonce && |a.destination| >= 42 && IsPlainAddress(a.destination[..42])
      && (|a.destination| == 42 || a.destination[42..] == "\n")
      && exists wei: int :: IsValueOf(a, wei) && 0 <= wei < 0x1_0000_0000_0000_0000_0000_0000_0000_0000
                            && (maxValueWei.None? || wei <= maxValueWei.value))
    && (a.capability == "rathnone.trade_execute" ==>
      0.0 < a.quantity && (Lower(a.side) == "buy" || Lower(a.side) == "sell"))
  }

  ghost predicate IsValueOf(a: FinancialAction, wei: int) {
    if a.currency == "wei" || (|a.settlementAsset| >= 3 && a.settlementAsset[..3] == "wei") then
      wei as real <= a.quantity * a.priceLimit < wei as real + 1.0
    else a.quantityIsInt && wei as real <= a.quantity < wei as real + 1.0
  }

  lemma HexDigitsAre(c: char)
    ensures IsHexDigit(c) <==> c in "0123456789abcdefABCDEF"
  {}

  lemma AddressParts(s: string)
    ensures IsAddress(s) <==> |s| >= 42 && IsPlainAddress(s[..42]) && (|s| == 42 || s[42..] == "\n")
  {
    if |s| == 43 { assert s[42..] == [s[42]]; }
  }

  lemma FloorIs(x: real, v: int)
    ensures v as real <= x < v as real + 1.0 <==> v == x.Floor
  {}

  lemma ValueExactly(a: FinancialAction, wei: int)
    requires wei >= 0
    ensures IntentValue(a) == Some(wei) <==> IsValueOf(a, wei)
  {
    assert "wei" <= a.settlementAsset <==> |a.settlementAsset| >= 3 && a.settlementAsset[..3] == "wei";
    FloorIs(a.quantity * a.priceLimit, wei);
    FloorIs(a.quantity, wei);
  }

  lemma ValueNotNegative(a: FinancialAction)
    ensures IntentValue(a).Some? ==> IntentValue(a).value >= 0
  {}

  lemma SettlementExactly(a: FinancialAction, maxValueWei: Option<int>)
    ensures SettlementOk(a, maxValueWei) <==> Settleable(a, maxValueWei)
  {
    AddressParts(a.destination);
    ValueNotNegative(a);
    forall wei: int | wei >= 0 ensures IntentValue(a) == Some(wei) <==> IsValueOf(a, wei) { ValueExactly(a, wei); }
    hide IsAddress, IsPlainAddress, IsValueOf, IntentValue, Lower;
    if IntentValue(a).Some? { assert IsValueOf(a, IntentValue(a).value); }
  }

  // ----- gates and exits -----

  /** Everything a run consults, in the order it is consulted. */
  datatype Gates = Gates(
    structureOk: bool, spine: Verdict,
    hygieneOk: bool, codes: seq<string>, downgradeOffered: bool, downgradeAccepted: bool, released: seq<string>,
    riskOk: bool, approved: bool, registered: bool, halted: bool, settlementOk: bool,
    live: bool, withinRate: bool, signable: bool, venueAnswers: bool, reconciled: bool)

  /** The last two leave by an exception instead of a result. */
  datatype Exit =
    | Structural | SpineBlocked | DowngradeRefused | DowngradePartial | HygieneBlocked | RiskBlocked | Unapproved
    | Replayed | Halted | GateRefused | TooFast | Completed | SignerRaised | VenueRaised

  /** The violations a downgrade leaves standing. */
  function Remaining(codes: seq<string>, released: seq<string>): seq<string> {
    if codes == [] then []
    else
      Remaining(codes[..|codes| - 1], released)
      + if codes[|codes| - 1] in released then [] else [codes[|codes| - 1]]
  }

  lemma {:induction false} RemainingIs(codes: seq<string>, released: seq<string>)
    ensures forall c :: c in Remaining(codes, released) <==> c in codes && c !in released
  {
    if codes != [] {
      RemainingIs(codes[..|codes| - 1], released);
      assert codes == codes[..|codes| - 1] + [codes[|codes| - 1]];
    }
  }

  predicate Released(g: Gates) {
    !g.hygieneOk && g.downgradeOffered && g.downgradeAccepted
  }

  predicate Cleared(g: Gates) {
    g.hygieneOk || (Released(g) && Remaining(g.codes, g.released) == [])
  }

  /** The verdict that stands once hygiene has passed. */
  function Standing(g: Gates): Verdict {
    if Released(g) && g.spine == AUTO then HUMAN else g.spine
  }

  predicate HumanSatisfied(g: Gates) {
    Standing(g) == HUMAN ==> g.approved || Released(g)
  }

  /** The first gate that is closed. */
  function ExitOf(g: Gates): Exit {
    if !g.structureOk then Structural
    else if g.spine == BLOCKED then SpineBlocked
    else if !Cleared(g) then
      if !g.downgradeOffered then HygieneBlocked else if g.downgradeAccepted then DowngradePartial else DowngradeRefused
    else if !g.riskOk then RiskBlocked
    else if !HumanSatisfied(g) then Unapproved
    else if !g.registered then Replayed
    else if g.halted then Halted
    else if !g.settlementOk then GateRefused
    else if g.live && !g.withinRate then TooFast
    else if g.live && !g.signable then SignerRaised
    else if !g.venueAnswers then VenueRaised
    else Completed
  }

  /** The exits behind the replay gate: the registry has been asked. */
  predicate AskedRegistry(e: Exit) {
    e.Replayed? || e.Halted? || e.GateRefused? || e.TooFast? || e.Completed? || e.SignerRaised? || e.VenueRaised?
  }

  predicate AskedHygiene(e: Exit) {
    !e.Structural? && !e.SpineBlocked?
  }

  predicate PastHygiene(e: Exit) {
    AskedRegistry(e) || e.RiskBlocked? || e.Unapproved?
  }

  /** venue.submit has been called. */
  predicate ReachedVenue(e: Exit) {
    e.Completed? || e.VenueRaised?
  }

  // ----- what a run leaves behind -----

  datatype PipelineResult = PipelineResult(
    verdict: Verdict, hygieneOk: bool, hygieneViolations: seq<string>, downgraded: bool, riskOk: bool,
    approvalBound: bool, replayOk: bool, state: ActionState, exit: Exit)

  function ResultOf(g: Gates): PipelineResult {
    var e := ExitOf(g);
    var consulted := AskedHygiene(e);
    PipelineResult(
      if PastHygiene(e) && e != RiskBlocked then Standing(g) else BLOCKED,
      consulted ==> Cleared(g),
      if !consulted || Cleared(g) then [] else if Released(g) then Remaining(g.codes, g.released) else g.codes,
      consulted && Released(g),
      PastHygiene(e) && e != RiskBlocked,
      AskedRegistry(e) && Standing(g) == HUMAN,
      e != Replayed,
      if e.Structural? || e.SignerRaised? || e.VenueRaised? then PROPOSED
      else if e != Completed then REJECTED
      else if g.reconciled then SETTLED else FAILED,
      e)
  }

  /** The event types of a run. */
  datatype Kind = EPISTEMIC | POLICY | HYGIENE | RISK | APPROVAL | SIGNATURE | SUBMISSION | RECONCILIATION | REJECTION

  function KindText(k: Kind): string {
    match k
    case EPISTEMIC => "EPISTEMIC"
    case POLICY => "AUTHORIZED"
    case HYGIENE => "HYGIENE"
    case RISK => "RISK"
    case APPROVAL => "APPROVAL"
    case SIGNATURE => "SIGNATURE"
    case SUBMISSION => "SUBMISSION"
    case RECONCILIATION => "RECONCILIATION"
    case REJECTION => "REJECTION"
  }

  type Label = (ActionState, Kind)

  const REFUSAL: Label := (REJECTED, REJECTION)

  const AFTER_SPINE: seq<Label> := [(PROPOSED, EPISTEMIC)]
  const AFTER_POLICY: seq<Label> := AFTER_SPINE + [(AUTHORIZED, POLICY)]
  const AFTER_HYGIENE: seq<Label> := AFTER_POLICY + [(EVALUATED, HYGIENE)]
  const AFTER_RISK: seq<Label> := AFTER_HYGIENE + [(EVALUATED, RISK)]
  const AFTER_HUMAN: seq<Label> := AFTER_RISK + [(APPROVED, APPROVAL)]

  function BeforeVenue(g: Gates): seq<Label> {
    if g.live then AFTER_HUMAN + [(SIGNED, SIGNATURE)] else AFTER_HUMAN
  }

  /** The events of a run, by state and type. */
  function Labels(g: Gates): seq<Label> {
    var e := ExitOf(g);
    match e
    case Structural => []
    case SpineBlocked => AFTER_SPINE + [REFUSAL]
    case DowngradeRefused => AFTER_POLICY + [REFUSAL]
    case DowngradePartial => AFTER_POLICY + [REFUSAL]
    case HygieneBlocked => AFTER_HYGIENE + [REFUSAL]
    case RiskBlocked => AFTER_RISK + [REFUSAL]
    case Unapproved => AFTER_RISK + [REFUSAL]
    case SignerRaised => AFTER_HUMAN
    case VenueRaised => BeforeVenue(g)
    case Completed => BeforeVenue(g) + [(SUBMITTED, SUBMISSION)] + [(if g.reconciled then SETTLED else FAILED, RECONCILIATION)]
    case _ => AFTER_HUMAN + [REFUSAL]
  }

  // ----- the rows of the table -----

  lemma UnstructuredRow(g: Gates)
    requires !g.structureOk
    ensures ExitOf(g) == Structural && Labels(g) == [] && forall used, nonce :: NoncesAfter(used, nonce, g) == used
    ensures ResultOf(g) == PipelineResult(BLOCKED, true, [], false, false, false, true, PROPOSED, Structural)
  {}

  lemma SpineRow(g: Gates)
    requires g.structureOk && g.spine == BLOCKED
    ensures ExitOf(g) == SpineBlocked && Labels(g) == AFTER_SPINE + [REFUSAL]
    ensures forall used, nonce :: NoncesAfter(used, nonce, g) == used
    ensures ResultOf(g) == PipelineResult(BLOCKED, true, [], false, false, false, true, REJECTED, SpineBlocked)
  {}

  predicate PastSpine(g: Gates) {
    g.structureOk && g.spine != BLOCKED
  }

  /** Past the spine a downgrade that is accepted burns its nonce, wherever the run ends. */
  lemma NoncesRow(used: set<int>, nonce: int, g: Gates)
    requires PastSpine(g)
    ensures NoncesAfter(used, nonce, g) == if Released(g) then used + {nonce} else used
  {}

  lemma RefusedRow(g: Gates)
    requires PastSpine(g) && !g.hygieneOk && g.downgradeOffered && !g.downgradeAccepted
    ensures ExitOf(g) == DowngradeRefused && Labels(g) == AFTER_POLICY + [REFUSAL] && !Released(g)
    ensures ResultOf(g) == PipelineResult(BLOCKED, false, g.codes, false, false, false, true, REJECTED, DowngradeRefused)
  {}

  lemma PartialRow(g: Gates)
    requires PastSpine(g) && Released(g) && Remaining(g.codes, g.released) != []
    ensures ExitOf(g) == DowngradePartial && Labels(g) == AFTER_POLICY + [REFUSAL]
    ensures ResultOf(g)
         == PipelineResult(BLOCKED, false, Remaining(g.codes, g.released), true, false, false, true, REJECTED, DowngradePartial)
  {}

  lemma UnreleasedRow(g: Gates)
    requires PastSpine(g) && !g.hygieneOk && !g.downgradeOffered
    ensures ExitOf(g) == HygieneBlocked && Labels(g) == AFTER_HYGIENE + [REFUSAL] && !Released(g)
    ensures ResultOf(g) == PipelineResult(BLOCKED, false, g.codes, false, false, false, true, REJECTED, HygieneBlocked)
  {}

  lemma RiskRow(g: Gates)
    requires PastSpine(g) && Cleared(g) && !g.riskOk
    ensures ExitOf(g) == RiskBlocked && Labels(g) == AFTER_RISK + [REFUSAL]
    ensures ResultOf(g) == PipelineResult(BLOCKED, true, [], Released(g), false, false, true, REJECTED, RiskBlocked)
  {
    hide Released;
  }

  predicate PastRisk(g: Gates) {
    PastSpine(g) && Cleared(g) && g.riskOk
  }

  lemma UnapprovedRow(g: Gates)
    requires PastRisk(g) && !HumanSatisfied(g)
    ensures ExitOf(g) == Unapproved && Labels(g) == AFTER_RISK + [REFUSAL]
    ensures ResultOf(g) == PipelineResult(Standing(g), true, [], Released(g), true, false, true, REJECTED, Unapproved)
  {
    hide Released, Standing;
  }

  /** The result of a run past the human gate, up to where and how it ends. */
  function Underway(g: Gates): PipelineResult {
    PipelineResult(Standing(g), true, [], Released(g), true, Standing(g) == HUMAN, true, PROPOSED, Structural)
  }

  lemma ReplayedRow(g: Gates)
    requires PastRisk(g) && HumanSatisfied(g) && !g.registered
    ensures ExitOf(g) == Replayed && Labels(g) == AFTER_HUMAN + [REFUSAL]
    ensures ResultOf(g) == Underway(g).(replayOk := false, state := REJECTED, exit := Replayed)
  {
    hide Released, Standing;
  }

  predicate PastReplay(g: Gates) {
    PastRisk(g) && HumanSatisfied(g) && g.registered
  }

  lemma HaltedRow(g: Gates)
    requires PastReplay(g) && g.halted
    ensures ExitOf(g) == Halted && Labels(g) == AFTER_HUMAN + [REFUSAL]
    ensures ResultOf(g) == Underway(g).(state := REJECTED, exit := Halted)
  {
    hide Released, Standing;
  }

  lemma GateRow(g: Gates)
    requires PastReplay(g) && !g.halted && !g.settlementOk
    ensures ExitOf(g) == GateRefused && Labels(g) == AFTER_HUMAN + [REFUSAL]
    ensures ResultOf(g) == Underway(g).(state := REJECTED, exit := GateRefused)
  {
    hide Released, Standing;
  }

  predicate PastGate(g: Gates) {
    PastReplay(g) && !g.halted && g.settlementOk
  }

  lemma StandingOpen(g: Gates)
    requires PastGate(g)
    ensures Standing(g) == AUTO || Underway(g).approvalBound
  {
    hide Released, Cleared, HumanSatisfied;
  }

  lemma TooFastRow(g: Gates)
    requires PastGate(g) && g.live && !g.withinRate
    ensures ExitOf(g) == TooFast && Labels(g) == AFTER_HUMAN + [REFUSAL]
    ensures ResultOf(g) == Underway(g).(state := REJECTED, exit := TooFast)
  {
    hide Released, Standing;
  }

  lemma UnsignableRow(g: Gates)
    requires PastGate(g) && g.live && g.withinRate && !g.signable
    ensures ExitOf(g) == SignerRaised && Labels(g) == AFTER_HUMAN
    ensures ResultOf(g) == Underway(g).(exit := SignerRaised)
  {
    hide Released, Standing;
  }

  predicate PastSigner(g: Gates) {
    PastGate(g) && (g.live ==> g.withinRate && g.signable)
  }

  lemma VenueRow(g: Gates)
    requires PastSigner(g)
    ensures !g.venueAnswers ==> ExitOf(g) == VenueRaised && Labels(g) == BeforeVenue(g) && ResultOf(g) == Underway(g).(exit := VenueRaised)
    ensures g.venueAnswers ==>
      var end := if g.reconciled then SETTLED else FAILED;
      && ExitOf(g) == Completed && Labels(g) == BeforeVenue(g) + [(SUBMITTED, SUBMISSION)] + [(end, RECONCILIATION)]
      && ResultOf(g) == Underway(g).(state := end, exit := Completed)
  {
    hide Released, Standing;
  }

  /** The events are linked from head on, hashed, and about this action at this time. */
  ghost predicate Recorded(hash: EventHash, chunk: seq<Event>, head: string, a: FinancialAction, actionHash: string,
                           now: int, labels: seq<Label>) {
    && |chunk| == |labels| && Chained(chunk, head) && AllOf(chunk, a.actionId)
    && forall i :: 0 <= i < |chunk| ==>
      && chunk[i].eventHash == hash(chunk[i].body)
      && chunk[i].body.tenantId == a.tenantId && chunk[i].body.actionHash == actionHash && chunk[i].body.timestamp == now
      && chunk[i].body.state == labels[i].0 && chunk[i].body.eventType == KindText(labels[i].1)
  }

  lemma RecordedSnoc(hash: EventHash, chunk: seq<Event>, head: string, a: FinancialAction, actionHash: string,
                     now: int, labels: seq<Label>, step: Label, payload: string)
    requires Recorded(hash, chunk, head, a, actionHash, now, labels)
    ensures var body := EventBody(a.actionId, a.tenantId, step.0, KindText(step.1), actionHash, EndHash(chunk, head), payload, now);
      Recorded(hash, chunk + [Event(body, hash(body))], head, a, actionHash, now, labels + [step])
  {
    var body := EventBody(a.actionId, a.tenantId, step.0, KindText(step.1), actionHash, EndHash(chunk, head), payload, now);
    ChainedSnoc(chunk, head, Event(body, hash(body)));
    hide Chained, EndHash, KindText;
  }

  lemma RecordedIsAction(hash: EventHash, chunk: seq<Event>, head: string, a: FinancialAction, actionHash: string,
                         now: int, labels: seq<Label>)
    requires Recorded(hash, chunk, head, a, actionHash, now, labels)
    ensures Chained(chunk, head) && AllOf(chunk, a.actionId) && |chunk| == |labels|
    ensures chunk != [] ==> chunk[0].body.state == labels[0].0
  {}

  lemma RecordedEach(hash: EventHash, chunk: seq<Event>, head: string, a: FinancialAction, actionHash: string,
                     now: int, labels: seq<Label>)
    requires Recorded(hash, chunk, head, a, actionHash, now, labels)
    ensures forall i :: 0 <= i < |chunk| ==>
      && chunk[i].body.actionId == a.actionId && chunk[i].body.tenantId == a.tenantId
      && chunk[i].body.actionHash == actionHash && chunk[i].body.timestamp == now
      && chunk[i].eventHash == hash(chunk[i].body)
      && chunk[i].body.prevEventHash == (if i == 0 then head else chunk[i - 1].eventHash)
  {
    hide KindText;
    assert forall i :: 0 <= i < |chunk| ==> chunk[i].body.prevEventHash == EndHash(chunk[..i], head);
  }

  function Registering(a: FinancialAction, actionHash: string, now: int): Replay.Registration {
    Replay.Registration(a.tenantId, a.actionId, actionHash, a.nonce, now, a.expiry)
  }

  function SignedMemory(m: Replay.Memory, r: Replay.Registration, g: Gates): Replay.Memory {
    if g.live then m.(byHash := Replay.SetStatus(m.byHash, (r.tenantId, r.actionHash), Replay.SIGNED)) else m
  }

  function AtVenue(m: Replay.Memory, r: Replay.Registration, g: Gates): Replay.Memory {
    if g.venueAnswers then m.(byHash := Replay.SetStatus(m.byHash, (r.tenantId, r.actionHash), Replay.SUBMITTED)) else m
  }

  /** The registry after a run. */
  function RegistryAfter(m: Replay.Memory, r: Replay.Registration, g: Gates): Replay.Memory {
    var e := ExitOf(g);
    if !AskedRegistry(e) then m
    else
      var asked := Replay.MemRegister(m, r).0;
      if ReachedVenue(e) then AtVenue(SignedMemory(asked, r, g), r, g) else asked
  }

  /** The downgrade nonces of the tenant after a run. */
  function NoncesAfter(used: set<int>, nonce: int, g: Gates): set<int> {
    if AskedHygiene(ExitOf(g)) && Released(g) then used + {nonce} else used
  }

  // ----- the authority of a run -----

  /** Every gate in front of the venue is open. */
  predicate AllOpen(g: Gates) {
    && g.structureOk && g.spine != BLOCKED && g.riskOk && g.registered && !g.halted && g.settlementOk
    && (g.hygieneOk || (g.downgradeOffered && g.downgradeAccepted && forall c :: c in g.codes ==> c in g.released))
    && (g.spine == HUMAN && g.hygieneOk ==> g.approved)
    && (g.live ==> g.withinRate && g.signable)
  }

  /** A run submits to the venue exactly when every gate is open. */
  lemma SubmitsExactlyWhenAllOpen(g: Gates)
    ensures ReachedVenue(ExitOf(g)) <==> AllOpen(g)
    ensures ExitOf(g) == Completed <==> AllOpen(g) && g.venueAnswers
  {
    RemainingIs(g.codes, g.released);
    var rest := Remaining(g.codes, g.released);
    assert rest == [] <==> forall c :: c in g.codes ==> c in g.released by {
      if rest != [] { assert rest[0] in rest; }
    }
  }

  /** Narrowing only: no exit reports more authority than the spine granted, and only an AUTO
      that nothing had to release keeps AUTO. */
  lemma NarrowingOnly(g: Gates)
    ensures ResultOf(g).verdict == AUTO ==> g.spine == AUTO && g.hygieneOk && g.riskOk
    ensures ResultOf(g).verdict == HUMAN ==> g.riskOk && (g.spine == HUMAN || (g.spine == AUTO && !g.hygieneOk))
    ensures ReachedVenue(ExitOf(g)) ==> ResultOf(g).verdict == if g.spine == AUTO && g.hygieneOk then AUTO else HUMAN
    ensures ReachedVenue(ExitOf(g)) && ResultOf(g).verdict == HUMAN ==>
      ResultOf(g).approvalBound && (g.approved || (Released(g) && Cleared(g)))
  {}

  /** Hygiene violations are passed only by a downgrade that releases exactly their codes, and
      a partial release changes nothing but the nonce it burns. */
  lemma HygieneNeedsFullRelease(g: Gates, used: set<int>, nonce: int)
    requires Released(g) ==> SetOf(g.released) <= SetOf(g.codes) && nonce !in used
    ensures PastHygiene(ExitOf(g)) && !g.hygieneOk ==>
      && SetOf(g.released) == SetOf(g.codes)
      && NoncesAfter(used, nonce, g) == used + {nonce} && NoncesAfter(used, nonce, g) != used
    ensures ExitOf(g) == DowngradePartial ==>
      ResultOf(g).verdict == BLOCKED && nonce in NoncesAfter(used, nonce, g)
      && exists c :: c in g.codes && c !in g.released
  {
    RemainingIs(g.codes, g.released);
    if ExitOf(g) == DowngradePartial {
      assert Remaining(g.codes, g.released)[0] in Remaining(g.codes, g.released);
    }
    assert nonce !in used ==> used + {nonce} != used by {
      assert nonce in used + {nonce};
    }
  }

  lemma PastSpineOf(g: Gates)
    requires PastHygiene(ExitOf(g))
    ensures g.structureOk && g.spine != BLOCKED
  {}

  lemma PastIsCleared(g: Gates)
    requires PastHygiene(ExitOf(g))
    ensures Cleared(g)
  {}

  // ----- the state machine -----

  ghost predicate LegalLabels(labels: seq<Label>) {
    forall i :: 0 <= i < |labels| - 1 ==> LegalLabelAt(labels, i)
  }

  predicate LegalLabelAt(labels: seq<Label>, i: nat)
    requires i < |labels| - 1
  {
    LegalTransition(labels[i].0, labels[i + 1].0)
  }

  /** Every run, at every exit, moves only along legal transitions, except a run without a
      settlement key that finds every gate open and the venue answering: it goes from APPROVED
      straight to SUBMITTED. */
  lemma LegalExactly(g: Gates)
    ensures LegalLabels(Labels(g)) <==> g.live || !AllOpen(g) || !g.venueAnswers
  {
    SubmitsExactlyWhenAllOpen(g);
    hide AllOpen;
    if !g.live && ExitOf(g) == Completed {
      assert Labels(g)[4].0 == APPROVED && Labels(g)[5].0 == SUBMITTED;
      assert !LegalLabelAt(Labels(g), 4);
    }
  }

  /** A run that emits anything begins with PROPOSED. */
  lemma LabelsBegin(g: Gates)
    ensures Labels(g) == [] <==> !g.structureOk
    ensures g.structureOk ==> Labels(g)[0].0 == PROPOSED
  {}

  /** The same for the recorded events, which is what validate_transitions inspects. */
  lemma RecordedLegalExactly(hash: EventHash, chunk: seq<Event>, head: string, a: FinancialAction, actionHash: string,
                             now: int, g: Gates)
    requires Recorded(hash, chunk, head, a, actionHash, now, Labels(g))
    ensures LegalChain(chunk) <==> g.live || !AllOpen(g) || !g.venueAnswers
  {
    hide Labels, LegalTransition, AllOpen, Chained;
    LegalExactly(g);
    var labels := Labels(g);
    forall i | 0 <= i < |chunk| - 1 ensures LegalAt(chunk, i) <==> LegalLabelAt(labels, i) {
      assert chunk[i].body.state == labels[i].0 && chunk[i + 1].body.state == labels[i + 1].0;
    }
    hide LegalAt, LegalLabelAt;
    if LegalChain(chunk) {
      assert forall i :: 0 <= i < |labels| - 1 ==> LegalAt(chunk, i);
    }
  }

  // ----- runs -----

  /** One run of a fresh pipeline: its action, its gates, and the events it recorded. */
  datatype Run = Run(a: FinancialAction, actionHash: string, now: int, g: Gates, chunk: seq<Event>)

  ghost predicate FreshPipelines(hash: EventHash, runs: seq<Run>) {
    && (forall i :: 0 <= i < |runs| ==>
      Recorded(hash, runs[i].chunk, "", runs[i].a, runs[i].actionHash, runs[i].now, Labels(runs[i].g)))
    && (forall i, j :: 0 <= i < j < |runs| ==> runs[i].a.actionId != runs[j].a.actionId)
  }

  function Traces(runs: seq<Run>): (ts: seq<RunEvents>)
    ensures |ts| == |runs| && forall i :: 0 <= i < |runs| ==> ts[i] == RunEvents(runs[i].a.actionId, runs[i].chunk)
  {
    if runs == [] then [] else Traces(runs[..|runs| - 1]) + [RunEvents(runs[|runs| - 1].a.actionId, runs[|runs| - 1].chunk)]
  }

  /** After any sequence of runs, each with a fresh pipeline and action id, the evidence graph
      as a whole passes verify_chain_integrity. */
  lemma RunsVerify(hash: EventHash, runs: seq<Run>)
    requires FreshPipelines(hash, runs)
    ensures Integrity(AllEvents(Traces(runs)))
  {
    hide Labels, ExitOf;
    RunsKeepIntegrity(Traces(runs));
  }

  // ----- once per hash and nonce -----

  /** One run's dealings with the registry. */
  datatype Visit = Visit(r: Replay.Registration, g: Gates)

  function RegistryAfterAll(visits: seq<Visit>): Replay.Memory {
    if visits == [] then Replay.Memory(map[], map[])
    else
      var n := |visits| - 1;
      RegistryAfter(RegistryAfterAll(visits[..n]), visits[n].r, visits[n].g)
  }

  /** Each run asks the registry that the runs before it left. */
  ghost predicate Consistent(visits: seq<Visit>) {
    forall i :: 0 <= i < |visits| && AskedRegistry(ExitOf(visits[i].g)) ==>
      visits[i].g.registered == Replay.MemRegister(RegistryAfterAll(visits[..i]), visits[i].r).1
  }

  /** The registrations of the runs that passed the replay gate, in order. */
  function Passed(visits: seq<Visit>): seq<Replay.Registration> {
    if visits == [] then []
    else
      var v := visits[|visits| - 1];
      Passed(visits[..|visits| - 1]) + if AskedRegistry(ExitOf(v.g)) && v.g.registered then [v.r] else []
  }

  /** The registrations of the runs that submitted to the venue, in order. */
  function Submitted(visits: seq<Visit>): seq<Replay.Registration> {
    if visits == [] then []
    else
      var v := visits[|visits| - 1];
      Submitted(visits[..|visits| - 1]) + if ReachedVenue(ExitOf(v.g)) then [v.r] else []
  }

  lemma AdvanceHolds(m: Replay.Memory, rs: seq<Replay.Registration>, key: (string, string), s: Replay.Status)
    requires Replay.MemHolds(m, rs)
    ensures Replay.MemHolds(m.(byHash := Replay.SetStatus(m.byHash, key, s)), rs)
  {}

  lemma RegisterHolds(m: Replay.Memory, rs: seq<Replay.Registration>, r: Replay.Registration)
    requires Replay.MemHolds(m, rs) && Replay.PairwiseDistinct(rs)
    ensures var (after, ok) := Replay.MemRegister(m, r); var now := if ok then rs + [r] else rs;
      Replay.MemHolds(after, now) && Replay.PairwiseDistinct(now)
  {
    AdvanceHolds(m, rs, (r.tenantId, r.actionHash), Replay.EXPIRED);
  }

  lemma VisitHolds(m: Replay.Memory, rs: seq<Replay.Registration>, v: Visit)
    requires Replay.MemHolds(m, rs) && Replay.PairwiseDistinct(rs)
    requires AskedRegistry(ExitOf(v.g)) ==> v.g.registered == Replay.MemRegister(m, v.r).1
    ensures var now := rs + if AskedRegistry(ExitOf(v.g)) && v.g.registered then [v.r] else [];
      Replay.MemHolds(RegistryAfter(m, v.r, v.g), now) && Replay.PairwiseDistinct(now)
  {
    assert rs + [] == rs;
    RegisterHolds(m, rs, v.r);
    var asked, key := Replay.MemRegister(m, v.r).0, (v.r.tenantId, v.r.actionHash);
    var now := rs + if AskedRegistry(ExitOf(v.g)) && v.g.registered then [v.r] else [];
    hide ExitOf, Replay.MemHolds, Replay.MemRegister, Replay.PairwiseDistinct;
    if AskedRegistry(ExitOf(v.g)) {
      AdvanceHolds(asked, now, key, Replay.SIGNED);
      AdvanceHolds(asked, now, key, Replay.SUBMITTED);
      AdvanceHolds(asked.(byHash := Replay.SetStatus(asked.byHash, key, Replay.SIGNED)), now, key, Replay.SUBMITTED);
    }
  }

  lemma {:induction false} PassedOnce(visits: seq<Visit>)
    requires Consistent(visits)
    ensures Replay.PairwiseDistinct(Passed(visits)) && Replay.MemHolds(RegistryAfterAll(visits), Passed(visits))
  {
    if visits != [] {
      var n := |visits| - 1;
      ConsistentPrefix(visits);
      PassedOnce(visits[..n]);
      VisitHolds(RegistryAfterAll(visits[..n]), Passed(visits[..n]), visits[n]);
      hide ExitOf, RegistryAfter, Consistent, Replay.PairwiseDistinct, Replay.MemHolds;
    }
  }

  lemma ConsistentPrefix(visits: seq<Visit>)
    requires visits != [] && Consistent(visits)
    ensures Consistent(visits[..|visits| - 1])
  {
    var n := |visits| - 1;
    assert forall i :: 0 <= i < n ==> visits[..n][i] == visits[i] && visits[..n][..i] == visits[..i];
  }

  lemma {:induction false} SubmittedArePassed(visits: seq<Visit>)
    ensures forall r :: r in Submitted(visits) ==> r in Passed(visits)
  {
    if visits != [] {
      var v := visits[|visits| - 1];
      SubmittedArePassed(visits[..|visits| - 1]);
      assert ReachedVenue(ExitOf(v.g)) ==> AskedRegistry(ExitOf(v.g)) && v.g.registered;
      hide ExitOf;
    }
  }

  lemma DistinctPrefix(rs: seq<Replay.Registration>, more: seq<Replay.Registration>)
    requires Replay.PairwiseDistinct(rs + more)
    ensures Replay.PairwiseDistinct(rs)
  {
    var all := rs + more;
    assert forall i :: 0 <= i < |rs| ==> all[i] == rs[i];
  }

  /** What the replay gate keeps apart stays apart at the venue. */
  lemma {:induction false} SubmittedDistinct(visits: seq<Visit>)
    requires Replay.PairwiseDistinct(Passed(visits))
    ensures Replay.PairwiseDistinct(Submitted(visits))
  {
    if visits != [] {
      var v, before := visits[|visits| - 1], visits[..|visits| - 1];
      assert ReachedVenue(ExitOf(v.g)) ==> AskedRegistry(ExitOf(v.g)) && v.g.registered;
      hide ExitOf, Replay.PairwiseDistinct;
      DistinctPrefix(Passed(before), if AskedRegistry(ExitOf(v.g)) && v.g.registered then [v.r] else []);
      SubmittedDistinct(before);
      SubmittedArePassed(before);
      if ReachedVenue(ExitOf(v.g)) {
        DistinctSnoc(Passed(before), Submitted(before), v.r);
      } else {
        assert Submitted(visits) == Submitted(before) + [];
      }
    } else {
      assert Replay.PairwiseDistinct(Submitted(visits));
    }
  }

  /** In any sequence of runs over one registry the submissions of a tenant have pairwise
      distinct hashes and pairwise distinct nonces: nothing is submitted twice. */
  lemma SubmittedOnce(visits: seq<Visit>)
    requires Consistent(visits)
    ensures Replay.PairwiseDistinct(Submitted(visits))
  {
    PassedOnce(visits);
    SubmittedDistinct(visits);
  }

  // ----- the same over the durable registry -----

  /** The table after a run. */
  function TableAfter(t: Replay.Table, r: Replay.Registration, g: Gates): Replay.Table {
    var e, key := ExitOf(g), (r.tenantId, r.actionHash);
    if !AskedRegistry(e) then t
    else
      var asked := Replay.DurRegister(t, r).0;
      var signed := if ReachedVenue(e) && g.live then Replay.SetStatus(asked, key, Replay.SIGNED) else asked;
      if e == Completed then Replay.SetStatus(signed, key, Replay.SUBMITTED) else signed
  }

  function TableAfterAll(visits: seq<Visit>): Replay.Table {
    if visits == [] then map[]
    else
      var n := |visits| - 1;
      TableAfter(TableAfterAll(visits[..n]), visits[n].r, visits[n].g)
  }

  /** Each run asks the table that the runs before it left. */
  ghost predicate ConsistentTable(visits: seq<Visit>) {
    forall i :: 0 <= i < |visits| && AskedRegistry(ExitOf(visits[i].g)) ==>
      visits[i].g.registered == Replay.DurRegister(TableAfterAll(visits[..i]), visits[i].r).1
  }

  lemma TableStatusHolds(t: Replay.Table, rs: seq<Replay.Registration>, key: (string, string), s: Replay.Status)
    requires Replay.DurHolds(t, rs)
    ensures Replay.DurHolds(Replay.SetStatus(t, key, s), rs)
  {}

  lemma TableRegisterHolds(t: Replay.Table, rs: seq<Replay.Registration>, r: Replay.Registration)
    requires Replay.DurHolds(t, rs) && Replay.PairwiseDistinct(rs)
    ensures var (after, ok) := Replay.DurRegister(t, r); var now := if ok then rs + [r] else rs;
      Replay.DurHolds(after, now) && Replay.PairwiseDistinct(now)
  {}

  lemma TableVisitHolds(t: Replay.Table, rs: seq<Replay.Registration>, v: Visit)
    requires Replay.DurHolds(t, rs) && Replay.PairwiseDistinct(rs)
    requires AskedRegistry(ExitOf(v.g)) ==> v.g.registered == Replay.DurRegister(t, v.r).1
    ensures var now := rs + if AskedRegistry(ExitOf(v.g)) && v.g.registered then [v.r] else [];
      Replay.DurHolds(TableAfter(t, v.r, v.g), now) && Replay.PairwiseDistinct(now)
  {
    assert rs + [] == rs;
    TableRegisterHolds(t, rs, v.r);
    var asked, key := Replay.DurRegister(t, v.r).0, (v.r.tenantId, v.r.actionHash);
    var now := rs + if AskedRegistry(ExitOf(v.g)) && v.g.registered then [v.r] else [];
    hide ExitOf, Replay.DurHolds, Replay.DurRegister, Replay.PairwiseDistinct;
    if AskedRegistry(ExitOf(v.g)) {
      TableStatusHolds(asked, now, key, Replay.SIGNED);
      TableStatusHolds(asked, now, key, Replay.SUBMITTED);
      TableStatusHolds(Replay.SetStatus(asked, key, Replay.SIGNED), now, key, Replay.SUBMITTED);
    }
  }

  lemma ConsistentTablePrefix(visits: seq<Visit>)
    requires visits != [] && ConsistentTable(visits)
    ensures ConsistentTable(visits[..|visits| - 1])
  {
    var n := |visits| - 1;
    assert forall i :: 0 <= i < n ==> visits[..n][i] == visits[i] && visits[..n][..i] == visits[..i];
  }

  lemma {:induction false} PassedOnceDurably(visits: seq<Visit>)
    requires ConsistentTable(visits)
    ensures Replay.PairwiseDistinct(Passed(visits)) && Replay.DurHolds(TableAfterAll(visits), Passed(visits))
  {
    if visits != [] {
      var n := |visits| - 1;
      ConsistentTablePrefix(visits);
      PassedOnceDurably(visits[..n]);
      TableVisitHolds(TableAfterAll(visits[..n]), Passed(visits[..n]), visits[n]);
      hide ExitOf, TableAfter, ConsistentTable, Replay.PairwiseDistinct, Replay.DurHolds;
    }
  }

  /** Nothing is submitted twice over the durable registry either, with whatever its expiries burn. */
  lemma SubmittedOnceDurably(visits: seq<Visit>)
    requires ConsistentTable(visits)
    ensures Replay.PairwiseDistinct(Submitted(visits))
  {
    PassedOnceDurably(visits);
    SubmittedDistinct(visits);
  }

  lemma DistinctSnoc(all: seq<Replay.Registration>, some: seq<Replay.Registration>, r: Replay.Registration)
    requires Replay.PairwiseDistinct(all + [r]) && Replay.PairwiseDistinct(some)
    requires forall x :: x in some ==> x in all
    ensures Replay.PairwiseDistinct(some + [r])
  {
    var grown := some + [r];
    forall i, j | 0 <= i < j < |grown| && grown[i].tenantId == grown[j].tenantId
      ensures grown[i].actionHash != grown[j].actionHash && grown[i].nonce != grown[j].nonce
    {
      if j == |some| {
        assert some[i] in some;
        var k :| 0 <= k < |all| && all[k] == some[i];
        assert (all + [r])[k] == some[i] && (all + [r])[|all|] == r;
      } else {
        assert grown[i] == some[i] && grown[j] == some[j];
      }
    }
  }

  // ----- the same for the actions themselves -----

  /** One run: the action proposed, its hash, the pipeline's time, and the gates it met. */
  datatype ActionRun = ActionRun(a: FinancialAction, actionHash: string, now: int, g: Gates)

  function VisitOf(run: ActionRun): Visit {
    Visit(Registering(run.a, run.actionHash, run.now), run.g)
  }

  function VisitsOf(runs: seq<ActionRun>): seq<Visit> {
    if runs == [] then [] else VisitsOf(runs[..|runs| - 1]) + [VisitOf(runs[|runs| - 1])]
  }

  /** The runs that submitted to the venue, in order. */
  function SubmittedRuns(runs: seq<ActionRun>): seq<ActionRun> {
    if runs == [] then []
    else
      var run := runs[|runs| - 1];
      SubmittedRuns(runs[..|runs| - 1]) + if ReachedVenue(ExitOf(run.g)) then [run] else []
  }

  lemma {:induction false} SubmittedVisits(runs: seq<ActionRun>)
    ensures |Submitted(VisitsOf(runs))| == |SubmittedRuns(runs)|
    ensures forall i :: 0 <= i < |SubmittedRuns(runs)| ==> Submitted(VisitsOf(runs))[i] == VisitOf(SubmittedRuns(runs)[i]).r
  {
    if runs != [] {
      var n := |runs| - 1;
      SubmittedVisits(runs[..n]);
      VisitsLength(runs[..n]);
      var visits := VisitsOf(runs);
      assert visits[..n] == VisitsOf(runs[..n]) && visits[n] == VisitOf(runs[n]);
      hide ExitOf;
    }
  }

  lemma {:induction false} VisitsLength(runs: seq<ActionRun>)
    ensures |VisitsOf(runs)| == |runs|
  {
    if runs != [] { VisitsLength(runs[..|runs| - 1]); }
  }

  /** No two of these runs, of one tenant, have one hash or one nonce. */
  ghost predicate ActionsDiffer(runs: seq<ActionRun>) {
    forall i, j :: 0 <= i < j < |runs| && runs[i].a.tenantId == runs[j].a.tenantId ==>
      runs[i].actionHash != runs[j].actionHash && runs[i].a.nonce != runs[j].a.nonce
  }

  /** The action has not expired at the pipeline's time, or one of the two is not given. */
  predicate InTime(run: ActionRun) {
    run.a.expiry == 0 || run.now == 0 || run.now <= run.a.expiry
  }

  lemma VisitsDiffer(runs: seq<ActionRun>)
    requires Replay.PairwiseDistinct(Submitted(VisitsOf(runs)))
    ensures ActionsDiffer(SubmittedRuns(runs))
  {
    SubmittedVisits(runs);
    var rs, done := Submitted(VisitsOf(runs)), SubmittedRuns(runs);
    hide Submitted, SubmittedRuns, VisitsOf;
    forall i, j | 0 <= i < j < |done| && done[i].a.tenantId == done[j].a.tenantId
      ensures done[i].actionHash != done[j].actionHash && done[i].a.nonce != done[j].a.nonce
    {
      assert rs[i] == VisitOf(done[i]).r && rs[j] == VisitOf(done[j]).r;
      assert rs[i].tenantId == rs[j].tenantId;
    }
  }

  lemma {:induction false} SubmittedFrom(runs: seq<ActionRun>)
    ensures forall run :: run in SubmittedRuns(runs) ==> run in runs && ReachedVenue(ExitOf(run.g))
  {
    if runs != [] {
      SubmittedFrom(runs[..|runs| - 1]);
      hide ExitOf;
    }
  }

  lemma {:induction false} VisitAt(runs: seq<ActionRun>, i: nat)
    requires i < |runs|
    ensures |VisitsOf(runs)| == |runs| && VisitsOf(runs)[i] == VisitOf(runs[i])
  {
    VisitsLength(runs);
    VisitsLength(runs[..|runs| - 1]);
    if i < |runs| - 1 { VisitAt(runs[..|runs| - 1], i); }
  }

  lemma AskedInTime(m: Replay.Memory, run: ActionRun)
    requires run.g.registered == Replay.MemRegister(m, VisitOf(run).r).1 && ReachedVenue(ExitOf(run.g))
    ensures InTime(run)
  {
    Replay.MemRegisterExactly(m, VisitOf(run).r);
    hide Replay.MemRegister;
  }

  lemma AskedInTimeDurably(t: Replay.Table, run: ActionRun)
    requires run.g.registered == Replay.DurRegister(t, VisitOf(run).r).1 && ReachedVenue(ExitOf(run.g))
    ensures InTime(run)
  {
    Replay.DurRegisterExactly(t, VisitOf(run).r);
    hide Replay.DurRegister;
  }

  /** In any sequence of runs over one registry the actions of a tenant that are submitted have
      pairwise distinct hashes and pairwise distinct nonces, and none has expired. */
  lemma ActionsSubmittedOnce(runs: seq<ActionRun>)
    requires Consistent(VisitsOf(runs))
    ensures ActionsDiffer(SubmittedRuns(runs)) && forall run :: run in SubmittedRuns(runs) ==> InTime(run)
  {
    SubmittedOnce(VisitsOf(runs));
    VisitsDiffer(runs);
    SubmittedFrom(runs);
    forall run | run in SubmittedRuns(runs) ensures InTime(run) {
      var i :| 0 <= i < |runs| && runs[i] == run;
      VisitAt(runs, i);
      var visits := VisitsOf(runs);
      assert AskedRegistry(ExitOf(visits[i].g));
      hide ExitOf, Replay.MemRegister, RegistryAfterAll;
      AskedInTime(RegistryAfterAll(visits[..i]), run);
    }
  }

  /** The same over the durable registry. */
  lemma ActionsSubmittedOnceDurably(runs: seq<ActionRun>)
    requires ConsistentTable(VisitsOf(runs))
    ensures ActionsDiffer(SubmittedRuns(runs)) && forall run :: run in SubmittedRuns(runs) ==> InTime(run)
  {
    SubmittedOnceDurably(VisitsOf(runs));
    VisitsDiffer(runs);
    SubmittedFrom(runs);
    forall run | run in SubmittedRuns(runs) ensures InTime(run) {
      var i :| 0 <= i < |runs| && runs[i] == run;
      VisitAt(runs, i);
      var visits := VisitsOf(runs);
      assert AskedRegistry(ExitOf(visits[i].g));
      hide ExitOf, Replay.DurRegister, TableAfterAll;
      AskedInTimeDurably(TableAfterAll(visits[..i]), run);
    }
  }

  // ----- exits and results, gate by gate -----

  /** The gates in the order in which a run meets them. */
  ghost predicate Open(g: Gates, i: nat) {
    match i
    case 0 => g.structureOk
    case 1 => g.spine != BLOCKED
    case 2 => g.hygieneOk || (g.downgradeOffered && g.downgradeAccepted && forall c :: c in g.codes ==> c in g.released)
    case 3 => g.riskOk
    case 4 => g.spine == AUTO || !g.hygieneOk || g.approved
    case 5 => g.registered
    case 6 => !g.halted
    case 7 => g.settlementOk
    case 8 => !g.live || g.withinRate
    case 9 => !g.live || g.signable
    case _ => g.venueAnswers
  }

  function ExitBehind(g: Gates, i: nat): Exit {
    match i
    case 0 => Structural
    case 1 => SpineBlocked
    case 2 => if !g.downgradeOffered then HygieneBlocked else if g.downgradeAccepted then DowngradePartial else DowngradeRefused
    case 3 => RiskBlocked
    case 4 => Unapproved
    case 5 => Replayed
    case 6 => Halted
    case 7 => GateRefused
    case 8 => TooFast
    case 9 => SignerRaised
    case _ => VenueRaised
  }

  lemma ClearedExactly(g: Gates)
    ensures Cleared(g) <==> Open(g, 2)
  {
    RemainingIs(g.codes, g.released);
    var rest := Remaining(g.codes, g.released);
    if rest != [] { assert rest[0] in rest; }
    hide Remaining;
  }

  /** A run leaves by the exit of the first gate that is closed. */
  lemma FirstClosedGate(g: Gates, i: nat)
    requires i <= 10 && !Open(g, i) && forall j: nat :: j < i ==> Open(g, j)
    ensures ExitOf(g) == ExitBehind(g, i)
  {
    ClearedExactly(g);
    hide Cleared;
    assert i > 0 ==> Open(g, 0);
    assert i > 1 ==> Open(g, 1);
    assert i > 2 ==> Open(g, 2);
    assert i > 3 ==> Open(g, 3);
    assert i > 4 ==> Open(g, 4);
    assert i > 5 ==> Open(g, 5);
    assert i > 6 ==> Open(g, 6);
    assert i > 7 ==> Open(g, 7);
    assert i > 8 ==> Open(g, 8);
    assert i > 9 ==> Open(g, 9);
  }

  /** The result of a run, field by field. */
  lemma ResultExactly(g: Gates)
    ensures var r, e := ResultOf(g), ExitOf(g);
      var past := e !in {Structural, SpineBlocked, DowngradeRefused, DowngradePartial, HygieneBlocked, RiskBlocked};
      && r.exit == e && r.riskOk == past
      && r.verdict == (if !past then BLOCKED else if g.spine == AUTO && g.hygieneOk then AUTO else HUMAN)
      && r.state == (if e == Completed then (if g.reconciled then SETTLED else FAILED)
                     else if e in {Structural, SignerRaised, VenueRaised} then PROPOSED else REJECTED)
      && (r.hygieneOk <==> e !in {DowngradeRefused, DowngradePartial, HygieneBlocked})
      && (r.hygieneOk ==> r.hygieneViolations == [])
      && (e in {DowngradeRefused, HygieneBlocked} ==> r.hygieneViolations == g.codes)
      && (e == DowngradePartial ==> forall c :: c in r.hygieneViolations <==> c in g.codes && c !in g.released)
      && (r.downgraded <==> g.structureOk && g.spine != BLOCKED && !g.hygieneOk && g.downgradeOffered && g.downgradeAccepted)
      && (r.approvalBound <==> past && e != Unapproved && r.verdict == HUMAN)
      && (r.replayOk <==> e != Replayed)
  {
    RemainingIs(g.codes, g.released);
    hide Remaining;
  }

  // ----- what stays on record -----

  /** The status under which an action is on record when its run leaves at this exit. */
  function StatusAt(e: Exit, live: bool): Replay.Status {
    if e == Completed then Replay.SUBMITTED
    else if e == VenueRaised && live then Replay.SIGNED
    else Replay.REGISTERED
  }

  /** A run that the registry admits leaves its action on record, under its own tenant, hash, id,
      nonce and time, with the status of how far it came; a run that does not ask changes nothing. */
  lemma RunOnRecord(m: Replay.Memory, a: FinancialAction, actionHash: string, now: int, g: Gates)
    requires AskedRegistry(ExitOf(g)) ==> g.registered == Replay.MemRegister(m, Registering(a, actionHash, now)).1
    ensures var after := RegistryAfter(m, Registering(a, actionHash, now), g);
      && (!AskedRegistry(ExitOf(g)) ==> after == m)
      && (AskedRegistry(ExitOf(g)) && g.registered ==>
            && after.byHash == m.byHash[(a.tenantId, actionHash)
                 := Replay.ActionRecord(a.actionId, a.tenantId, actionHash, a.nonce, StatusAt(ExitOf(g), g.live), now)]
            && after.byNonce == m.byNonce[(a.tenantId, a.nonce) := actionHash])
  {
    var r := Registering(a, actionHash, now);
    Replay.MemRegisterExactly(m, r);
    ExitsApart(g);
    hide ExitOf, Replay.MemRegister;
  }

  /** The same over the durable registry, where the action's one row holds it all. */
  lemma RunOnTable(t: Replay.Table, a: FinancialAction, actionHash: string, now: int, g: Gates)
    requires AskedRegistry(ExitOf(g)) ==> g.registered == Replay.DurRegister(t, Registering(a, actionHash, now)).1
    ensures var after := TableAfter(t, Registering(a, actionHash, now), g);
      && (!AskedRegistry(ExitOf(g)) ==> after == t)
      && (AskedRegistry(ExitOf(g)) && g.registered ==>
            after == t[(a.tenantId, actionHash)
              := Replay.ActionRecord(a.actionId, a.tenantId, actionHash, a.nonce, StatusAt(ExitOf(g), g.live), now)])
  {
    var r := Registering(a, actionHash, now);
    Replay.DurRegisterExactly(t, r);
    ExitsApart(g);
    hide ExitOf, Replay.DurRegister;
  }

  lemma ConsultsHygiene(g: Gates)
    ensures AskedHygiene(ExitOf(g)) <==> g.structureOk && g.spine != BLOCKED
  {}

  lemma ExitsApart(g: Gates)
    ensures ExitOf(g) == Completed ==> g.venueAnswers
    ensures ExitOf(g) == VenueRaised ==> !g.venueAnswers
    ensures AskedRegistry(ExitOf(g)) && !g.registered ==> ExitOf(g) == Replayed
  {}
}
