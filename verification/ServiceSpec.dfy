/** The query service's state and steps (src/query/service.py), as functions: serving a
    query through the scope gate, and rotating the evidence key. */
module ServiceSpec {
  import opened Basics
  import opened Crypto
  import opened Algebra
  import opened Graph
  import opened Semantics
  import opened Evidence
  import opened Scope
  import opened TrustLog
  import opened WitnessLog

  /** What create_app fixes: the crypto, the canonical encodings, the hashes that bind a
      scope to a query, and the operation authority (None when not provisioned). */
  datatype Config = Config(
    c: Scheme, trustEnc: TrustEncoding, witnessEnc: WitnessEncoding, scopeEnc: QueryScope -> string,
    opHash: Op -> string, textHash: string -> string, recordHash: (seq<string>, seq<string>) -> string,
    opPem: Option<string>, authorityId: string)

  datatype State = State(
    sk: Key, trust: AuthorityLog, serving: Log, keySeq: int, keyFingerprint: string,
    graphs: map<string, Snapshot>, usedNonces: set<int>)

  datatype Route = OpRoute | NlRoute | OpAttested | NlAttested

  /** A request after parsing: op is None when it does not parse or compile. */
  datatype Request = Request(route: Route, graphName: string, op: Option<Op>, text: string,
                             scope: Option<QueryScope>, now: int, issuedAt: int)

  datatype Outcome = Refused | Answered(record: EvidenceRecord)

  datatype Event = Query(req: Request) | Rotate(newSk: Key, now: int) | Load(name: string, g: Snapshot)

  function Initial(cfg: Config, sk: Key, now: int): State {
    State(sk, BuildBootstrapLog(cfg.c, cfg.trustEnc, sk, cfg.authorityId, now), Log(cfg.authorityId, []),
          0, Fingerprint(cfg.c, cfg.c.publicPem(sk)), map[], {})
  }

  // ----- the scope gate -----

  predicate SignatureHolds(cfg: Config, scope: QueryScope, pem: string) {
    scope.sig != "" && cfg.c.verify(pem, cfg.scopeEnc(scope.(sig := "")), scope.sig)
  }

  /** verify_scope, called as the gate calls it: with the scope's own graph name. */
  predicate ScopeAdmitted(cfg: Config, st: State, scope: QueryScope, now: int)
    requires cfg.opPem.Some?
  {
    && scope.nonce !in st.usedNonces
    && scope.notBefore <= now <= scope.notAfter
    && SignatureHolds(cfg, scope, cfg.opPem.value)
  }

  predicate GatePasses(cfg: Config, st: State, req: Request) {
    cfg.opPem.Some? ==> req.scope.Some? && ScopeAdmitted(cfg, st, req.scope.value, req.now)
  }

  /** The scope in force for a request that passed the gate. */
  function ScopeInForce(cfg: Config, req: Request): Option<QueryScope> {
    if cfg.opPem.None? then None else req.scope
  }

  function AfterGate(cfg: Config, st: State, req: Request): State {
    if GatePasses(cfg, st, req) && cfg.opPem.Some? then
      st.(usedNonces := st.usedNonces + {req.scope.value.nonce})
    else st
  }

  // ----- running a query -----

  ghost predicate WellFormed(st: State) {
    forall name :: name in st.graphs ==> Coherent(st.graphs[name])
  }

  /** Operators have the children the evaluator indexes. */
  ghost predicate RequestArity(req: Request) {
    req.op.Some? ==> Arity(req.op.value)
  }

  /** _run */
  ghost function RunQuery(cfg: Config, st: State, graphName: string, op: Op, scope: Option<QueryScope>,
                          bindingDone: bool): Outcome
    requires WellFormed(st) && Arity(op)
  {
    if graphName !in st.graphs then Refused
    else if scope.Some? && !bindingDone && scope.value.bodyHash != cfg.opHash(op) then Refused
    else
      var record := RecordOf(st.graphs[graphName], op);
      if scope.Some? && !Allows(scope.value, op, |record.included|, |record.excluded|) then Refused
      else Answered(record)
  }

  function Served(cfg: Config, st: State, queryHash: string, record: EvidenceRecord, scope: Option<QueryScope>, issuedAt: int): State {
    var agent := if scope.Some? then scope.value.agentId else "<unscoped>";
    var caps := if scope.Some? then scope.value.capabilities else ["<allow-all>"];
    st.(serving := AppendEntry(cfg.c, cfg.witnessEnc, st.serving, queryHash, DeterministicHash(cfg.recordHash, record),
                               agent, caps, st.sk, cfg.authorityId, issuedAt, st.keySeq, st.keyFingerprint))
  }

  /** The checks of query_nl before _run: the text binding and the capabilities. */
  predicate TextScopeHolds(cfg: Config, req: Request, op: Op, scope: QueryScope) {
    scope.bodyHash == cfg.textHash(req.text) && Allows(scope, op, 0, 0)
  }

  /** The answer of a request: gate, parse, route-specific checks, _run. */
  ghost function Answer(cfg: Config, st: State, req: Request): Outcome
    requires WellFormed(st) && RequestArity(req)
  {
    if !GatePasses(cfg, st, req) || req.op.None? then Refused
    else
      var scope := ScopeInForce(cfg, req);
      match req.route
      case OpRoute => RunQuery(cfg, st, req.graphName, req.op.value, scope, false)
      case OpAttested => RunQuery(cfg, st, req.graphName, req.op.value, scope, false)
      case NlRoute =>
        if scope.Some? && !TextScopeHolds(cfg, req, req.op.value, scope.value) then Refused
        else RunQuery(cfg, st, req.graphName, req.op.value, scope, true)
      case NlAttested => RunQuery(cfg, st, req.graphName, req.op.value, scope, true)
  }

  function QueryHash(cfg: Config, req: Request): string
    requires req.op.Some?
  {
    if req.route == NlAttested then cfg.textHash(req.text) else cfg.opHash(req.op.value)
  }

  ghost function HandleState(cfg: Config, st: State, req: Request): State
    requires WellFormed(st) && RequestArity(req)
  {
    var gated := AfterGate(cfg, st, req);
    var outcome := Answer(cfg, st, req);
    if outcome.Answered? && req.route in {OpAttested, NlAttested} then
      Served(cfg, gated, QueryHash(cfg, req), outcome.record, ScopeInForce(cfg, req), req.issuedAt)
    else gated
  }

  /** rotate_evidence_key: the current key signs its successor in, then the new key takes over. */
  function Rotated(cfg: Config, st: State, newSk: Key, now: int): State {
    var trust := AppendRotate(cfg.c, cfg.trustEnc, st.trust, newSk, st.sk, cfg.authorityId, now);
    st.(sk := newSk, trust := trust, keySeq := trust.entries[|trust.entries| - 1].body.index,
        keyFingerprint := Fingerprint(cfg.c, cfg.c.publicPem(newSk)))
  }

  ghost predicate EventOk(e: Event) {
    match e
    case Query(req) => RequestArity(req)
    case Rotate(_, _) => true
    case Load(_, g) => Coherent(g)
  }

  ghost function Step(cfg: Config, st: State, e: Event): State
    requires WellFormed(st) && EventOk(e)
  {
    match e
    case Query(req) => HandleState(cfg, st, req)
    case Rotate(newSk, now) => Rotated(cfg, st, newSk, now)
    case Load(name, g) => st.(graphs := st.graphs[name := g])
  }

  lemma StepWellFormed(cfg: Config, st: State, e: Event)
    requires WellFormed(st) && EventOk(e)
    ensures WellFormed(Step(cfg, st, e))
  {
    hide Arity, Coherent;
  }

  /** The state after a sequence of events. */
  ghost function After(cfg: Config, st: State, es: seq<Event>): (r: State)
    requires WellFormed(st) && forall e :: e in es ==> EventOk(e)
    ensures WellFormed(r)
  {
    if es == [] then st
    else
      var prev := After(cfg, st, es[..|es| - 1]);
      StepWellFormed(cfg, prev, es[|es| - 1]);
      Step(cfg, prev, es[|es| - 1])
  }

  // ----- the two logs cross-verify -----

  /** The served entries name key sequence numbers that never decrease and never run ahead. */
  ghost predicate KeysInOrder(entries: seq<WitnessEntry>, keySeq: int) {
    && (forall i, j :: 0 <= i < j < |entries| ==> entries[i].body.keySeq <= entries[j].body.keySeq)
    && (forall i :: 0 <= i < |entries| ==> entries[i].body.keySeq <= keySeq)
  }

  /** The trust log verifies against the first key and ends in the key in force; the witness
      entries verify against the trust log. */
  ghost predicate CrossVerified(cfg: Config, anchorPem: string, st: State) {
    && TrustLog.Accepted(cfg.c, cfg.trustEnc, st.trust, anchorPem)
    && st.trust.entries[0].body.pem == anchorPem
    && st.keySeq == |st.trust.entries| - 1
    && st.trust.entries[st.keySeq].body.pem == cfg.c.publicPem(st.sk)
    && st.trust.entries[st.keySeq].body.action != "revoke"
    && st.keyFingerprint == Fingerprint(cfg.c, cfg.c.publicPem(st.sk))
    && st.serving.authorityId == cfg.authorityId
    && AnchoredEntries(cfg.c, cfg.witnessEnc, st.serving.entries, st.trust)
    && KeysInOrder(st.serving.entries, st.keySeq)
  }

  lemma InitialCrossVerified(cfg: Config, sk: Key, now: int)
    requires Lawful(cfg.c)
    ensures CrossVerified(cfg, cfg.c.publicPem(sk), Initial(cfg, sk, now))
  {
    BootstrapAccepted(cfg.c, cfg.trustEnc, sk, cfg.authorityId, now);
  }

  /** The trust log agrees with the service on the key in force. */
  lemma KeyInForce(cfg: Config, anchorPem: string, st: State)
    requires CrossVerified(cfg, anchorPem, st)
    ensures st.trust.entries != [] && LastTrusted(st.trust.entries) == Some(cfg.c.publicPem(st.sk))
    ensures TrustedKeyForSeq(cfg.c, st.trust, st.keySeq, Some(st.keyFingerprint)) == Some(cfg.c.publicPem(st.sk))
  {
    hide Fingerprint, AnchoredEntries, KeysInOrder;
  }

  lemma RotatedCrossVerified(cfg: Config, anchorPem: string, st: State, newSk: Key, now: int)
    requires Lawful(cfg.c) && CrossVerified(cfg, anchorPem, st)
    ensures CrossVerified(cfg, anchorPem, Rotated(cfg, st, newSk, now))
    ensures st.trust.entries <= Rotated(cfg, st, newSk, now).trust.entries
  {
    hide Fingerprint, Lawful, TrustLog.Accepted, AnchoredEntries;
    var st' := Rotated(cfg, st, newSk, now);
    KeyInForce(cfg, anchorPem, st);
    TrustLog.AppendAccepted(cfg.c, cfg.trustEnc, st.trust, anchorPem, "rotate", cfg.c.publicPem(newSk), st.sk, cfg.authorityId, now);
    RotationKeepsAnchored(cfg.c, cfg.witnessEnc, st.serving.entries, st.trust, st'.trust);
  }

  lemma ServedCrossVerified(cfg: Config, anchorPem: string, st: State, queryHash: string, record: EvidenceRecord,
                            scope: Option<QueryScope>, issuedAt: int)
    requires Lawful(cfg.c) && CrossVerified(cfg, anchorPem, st)
    ensures CrossVerified(cfg, anchorPem, Served(cfg, st, queryHash, record, scope, issuedAt))
    ensures var es := Served(cfg, st, queryHash, record, scope, issuedAt).serving.entries;
      |es| == |st.serving.entries| + 1 && es[..|es| - 1] == st.serving.entries
      && BoundKey(cfg.c, st.trust, es[|es| - 1].body) == Some(cfg.c.publicPem(st.sk))
  {
    hide Fingerprint, Lawful, TrustLog.Accepted, AnchoredEntries, DeterministicHash;
    KeyInForce(cfg, anchorPem, st);
    var agent := if scope.Some? then scope.value.agentId else "<unscoped>";
    var caps := if scope.Some? then scope.value.capabilities else ["<allow-all>"];
    AppendAnchored(cfg.c, cfg.witnessEnc, st.serving, st.trust, queryHash, DeterministicHash(cfg.recordHash, record), agent, caps,
                   st.sk, cfg.authorityId, issuedAt, st.keySeq, st.keyFingerprint);
  }

  lemma StepCrossVerified(cfg: Config, anchorPem: string, st: State, e: Event)
    requires Lawful(cfg.c) && WellFormed(st) && EventOk(e) && CrossVerified(cfg, anchorPem, st)
    ensures CrossVerified(cfg, anchorPem, Step(cfg, st, e))
  {
    hide Arity, Coherent, Lawful, TrustLog.Accepted, AnchoredEntries, Served, Rotated, KeysInOrder, RunQuery, GatePasses, Fingerprint, QueryHash;
    match e
    case Query(req) =>
      var outcome := Answer(cfg, st, req);
      if outcome.Answered? && req.route in {OpAttested, NlAttested} {
        ServedCrossVerified(cfg, anchorPem, AfterGate(cfg, st, req), QueryHash(cfg, req), outcome.record, ScopeInForce(cfg, req), req.issuedAt);
      }
    case Rotate(newSk, now) => RotatedCrossVerified(cfg, anchorPem, st, newSk, now);
    case Load(name, g) =>
  }

  /** In every state reachable from create_app the two logs cross-verify: the trust log under
      the first key, and a non-empty witness log under the trust log. */
  lemma {:induction false} AlwaysCrossVerified(cfg: Config, sk: Key, now: int, es: seq<Event>)
    requires Lawful(cfg.c) && forall e :: e in es ==> EventOk(e)
    ensures CrossVerified(cfg, cfg.c.publicPem(sk), After(cfg, Initial(cfg, sk, now), es))
    ensures var st := After(cfg, Initial(cfg, sk, now), es);
      cfg.authorityId != "" && st.serving.entries != [] ==> Anchored(cfg.c, cfg.witnessEnc, st.serving, st.trust)
  {
    if es == [] {
      InitialCrossVerified(cfg, sk, now);
    } else {
      AlwaysCrossVerified(cfg, sk, now, es[..|es| - 1]);
      StepCrossVerified(cfg, cfg.c.publicPem(sk), After(cfg, Initial(cfg, sk, now), es[..|es| - 1]), es[|es| - 1]);
    }
  }

  /** The key in force at the moment each witness entry was appended, in order. */
  ghost function ServingKeys(cfg: Config, st: State, es: seq<Event>): seq<string>
    requires WellFormed(st) && forall e :: e in es ==> EventOk(e)
  {
    if es == [] then []
    else
      var prev, now := After(cfg, st, es[..|es| - 1]), After(cfg, st, es);
      ServingKeys(cfg, st, es[..|es| - 1])
      + (if now.serving.entries != prev.serving.entries then [cfg.c.publicPem(prev.sk)] else [])
  }

  /** entries[i] resolves, through the trust log, to keys[i]. */
  ghost predicate ResolveTo(c: Scheme, entries: seq<WitnessEntry>, trust: AuthorityLog, keys: seq<string>) {
    |entries| == |keys| && forall i :: 0 <= i < |entries| ==> BoundKey(c, trust, entries[i].body) == Some(keys[i])
  }

  lemma ResolveStable(c: Scheme, entries: seq<WitnessEntry>, trust: AuthorityLog, grown: AuthorityLog, keys: seq<string>)
    requires ResolveTo(c, entries, trust, keys) && trust.entries <= grown.entries
    ensures ResolveTo(c, entries, grown, keys)
  {
    forall i | 0 <= i < |entries| ensures BoundKey(c, grown, entries[i].body) == Some(keys[i]) {
      assert BoundKey(c, trust, entries[i].body) == Some(keys[i]);
    }
  }

  lemma ResolveSnoc(c: Scheme, entries: seq<WitnessEntry>, e: WitnessEntry, trust: AuthorityLog, keys: seq<string>, key: string)
    requires ResolveTo(c, entries, trust, keys) && BoundKey(c, trust, e.body) == Some(key)
    ensures ResolveTo(c, entries + [e], trust, keys + [key])
  {
    hide BoundKey;
  }

  lemma StepResolves(cfg: Config, anchorPem: string, st: State, e: Event, keys: seq<string>)
    requires Lawful(cfg.c) && WellFormed(st) && EventOk(e) && CrossVerified(cfg, anchorPem, st)
    requires ResolveTo(cfg.c, st.serving.entries, st.trust, keys)
    ensures var st' := Step(cfg, st, e);
      ResolveTo(cfg.c, st'.serving.entries, st'.trust,
                keys + if st'.serving.entries != st.serving.entries then [cfg.c.publicPem(st.sk)] else [])
  {
    hide Arity, Coherent, Lawful, CrossVerified, Served, Rotated, RunQuery, GatePasses, Fingerprint, QueryHash, ResolveTo, BoundKey;
    assert keys + [] == keys;
    match e
    case Query(req) =>
      var outcome, gated := Answer(cfg, st, req), AfterGate(cfg, st, req);
      if outcome.Answered? && req.route in {OpAttested, NlAttested} {
        var st' := Served(cfg, gated, QueryHash(cfg, req), outcome.record, ScopeInForce(cfg, req), req.issuedAt);
        GateKeepsLogs(cfg, anchorPem, st, req);
        ServedCrossVerified(cfg, anchorPem, gated, QueryHash(cfg, req), outcome.record, ScopeInForce(cfg, req), req.issuedAt);
        ServedKeepsTrust(cfg, gated, QueryHash(cfg, req), outcome.record, ScopeInForce(cfg, req), req.issuedAt);
        var es := st'.serving.entries;
        assert es == st.serving.entries + [es[|es| - 1]];
        ResolveSnoc(cfg.c, st.serving.entries, es[|es| - 1], st.trust, keys, cfg.c.publicPem(st.sk));
      }
    case Rotate(newSk, now) =>
      RotatedCrossVerified(cfg, anchorPem, st, newSk, now);
      RotatedKeepsServing(cfg, st, newSk, now);
      ResolveStable(cfg.c, st.serving.entries, st.trust, Rotated(cfg, st, newSk, now).trust, keys);
    case Load(name, g) =>
  }

  lemma GateKeepsLogs(cfg: Config, anchorPem: string, st: State, req: Request)
    requires CrossVerified(cfg, anchorPem, st)
    ensures CrossVerified(cfg, anchorPem, AfterGate(cfg, st, req))
    ensures var g := AfterGate(cfg, st, req); g.trust == st.trust && g.serving == st.serving && g.sk == st.sk
  {}

  lemma ServedKeepsTrust(cfg: Config, st: State, queryHash: string, record: EvidenceRecord, scope: Option<QueryScope>, issuedAt: int)
    ensures Served(cfg, st, queryHash, record, scope, issuedAt).trust == st.trust
  {}

  lemma RotatedKeepsServing(cfg: Config, st: State, newSk: Key, now: int)
    ensures Rotated(cfg, st, newSk, now).serving == st.serving
  {}

  /** Every witness entry resolves to the key that was in force when it was served, through
      any number of later rotations. */
  lemma {:induction false} EntriesResolveToServingKeys(cfg: Config, sk: Key, now: int, es: seq<Event>)
    requires Lawful(cfg.c) && forall e :: e in es ==> EventOk(e)
    ensures var st := After(cfg, Initial(cfg, sk, now), es);
      ResolveTo(cfg.c, st.serving.entries, st.trust, ServingKeys(cfg, Initial(cfg, sk, now), es))
  {
    hide Step, CrossVerified, EventOk;
    if es != [] {
      var before, st0 := es[..|es| - 1], Initial(cfg, sk, now);
      EntriesResolveToServingKeys(cfg, sk, now, before);
      AlwaysCrossVerified(cfg, sk, now, before);
      StepResolves(cfg, cfg.c.publicPem(sk), After(cfg, st0, before), es[|es| - 1], ServingKeys(cfg, st0, before));
    }
  }
}
