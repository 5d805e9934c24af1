/** The steps of src/query/service.py in full: who passes the gate, what is answered, and what a
    step leaves in the state and in the two logs, field by field. */
module ServiceSteps {
  import opened Basics
  import opened Crypto
  import opened Algebra
  import opened Graph
  import opened Semantics
  import opened Evidence
  import opened Scope
  import opened TrustLog
  import opened WitnessLog
  import opened ServiceSpec

  /** create_app: the key signs itself into an otherwise empty service. */
  lemma InitialReads(cfg: Config, sk: Key, now: int)
    ensures var st, pem := Initial(cfg, sk, now), cfg.c.publicPem(sk);
      var b := TrustBody(0, "bootstrap", cfg.authorityId, pem, now, "");
      && st.sk == sk && st.keySeq == 0 && st.keyFingerprint == cfg.c.sha(Squeeze(pem))
      && st.trust == AuthorityLog(cfg.c.sha(Squeeze(pem)), [TrustEntry(b, cfg.c.sign(sk, cfg.c.sha("|" + cfg.trustEnc(b))))])
      && st.serving == Log(cfg.authorityId, []) && st.graphs == map[] && st.usedNonces == {}
  {
    hide Squeeze;
    BootstrapReads(cfg.c, cfg.trustEnc, sk, cfg.authorityId, now);
  }

  /** The scope is fresh, current at the time of the request, and signed under the key given. */
  predicate Fresh(cfg: Config, used: set<int>, scope: QueryScope, now: int, pem: string) {
    && scope.nonce !in used && scope.notBefore <= now && now <= scope.notAfter
    && scope.sig != "" && cfg.c.verify(pem, cfg.scopeEnc(scope.(sig := "")), scope.sig)
  }

  /** Without an operation authority everyone is admitted. */
  predicate Admitted(cfg: Config, st: State, req: Request) {
    match cfg.opPem
    case None => true
    case Some(pem) => req.scope.Some? && Fresh(cfg, st.usedNonces, req.scope.value, req.now, pem)
  }

  /** What the scope was signed for: the query, or on the plain text route the text. */
  predicate BoundTo(cfg: Config, req: Request, op: Op, bodyHash: string) {
    match req.route
    case OpRoute => bodyHash == cfg.opHash(op)
    case OpAttested => bodyHash == cfg.opHash(op)
    case NlRoute => bodyHash == cfg.textHash(req.text)
    case NlAttested => true
  }

  /** The scope lists every operator of the query, or none at all, and allows this many entities. */
  ghost predicate Within(scope: QueryScope, op: Op, entities: nat) {
    && (scope.capabilities == [] || forall name, path, node :: Named(op, name, path, node) ==> name in scope.capabilities)
    && (scope.maxResults.None? || entities <= scope.maxResults.value)
  }

  lemma WithinIsAllowed(scope: QueryScope, op: Op, included: nat, excluded: nat)
    ensures Allows(scope, op, included, excluded) <==> Within(scope, op, included + excluded)
  {
    hide Named, Allows;
    AllowsExactly(scope, op, included, excluded);
  }

  lemma NoneIsAllowed(scope: QueryScope, op: Op, included: nat, excluded: nat)
    ensures Allows(scope, op, included, excluded) ==> Allows(scope, op, 0, 0)
  {
    hide KindsIn;
  }

  /** The scope in force binds this request and covers its answer. */
  ghost predicate Covers(cfg: Config, req: Request, op: Op, r: EvidenceRecord) {
    cfg.opPem.Some? ==>
      req.scope.Some? && BoundTo(cfg, req, op, req.scope.value.bodyHash)
      && Within(req.scope.value, op, |r.included| + |r.excluded|)
  }

  /** Exactly which requests are answered, and with what. */
  lemma AnsweredExactly(cfg: Config, st: State, req: Request)
    requires WellFormed(st) && RequestArity(req)
    ensures Answer(cfg, st, req).Answered?
       <==> (Admitted(cfg, st, req) && req.op.Some? && req.graphName in st.graphs
             && Covers(cfg, req, req.op.value, RecordOf(st.graphs[req.graphName], req.op.value)))
    ensures Answer(cfg, st, req).Answered? ==>
      Answer(cfg, st, req).record == RecordOf(st.graphs[req.graphName], req.op.value)
  {
    hide Arity, Coherent, RecordOf, Allows, Within;
    if req.op.Some? && req.graphName in st.graphs && req.scope.Some? {
      var r := RecordOf(st.graphs[req.graphName], req.op.value);
      WithinIsAllowed(req.scope.value, req.op.value, |r.included|, |r.excluded|);
      NoneIsAllowed(req.scope.value, req.op.value, |r.included|, |r.excluded|);
    }
  }

  /** The entry that the witness log gains for an answer. */
  function WitnessOf(cfg: Config, st: State, req: Request, recordHash: string): WitnessBody
    requires req.op.Some?
  {
    var n := |st.serving.entries|;
    var scope := if cfg.opPem.Some? then req.scope else None;
    WitnessBody(n, cfg.authorityId,
                if req.route == NlAttested then cfg.textHash(req.text) else cfg.opHash(req.op.value),
                recordHash,
                if scope.Some? then scope.value.agentId else "<unscoped>",
                if scope.Some? then scope.value.capabilities else ["<allow-all>"],
                req.issuedAt, st.keySeq, st.keyFingerprint,
                if n == 0 then "" else cfg.c.sha(cfg.witnessEnc(st.serving.entries[n - 1].body)))
  }

  /** One request: a scope that is admitted loses its nonce, even when the query is refused; an
      answer on an attested route is entered in the witness log, signed by the key in force over the
      entry's text and its link; nothing else changes. */
  lemma HandledExactly(cfg: Config, st: State, req: Request)
    requires WellFormed(st) && RequestArity(req)
    ensures var st', out := HandleState(cfg, st, req), Answer(cfg, st, req);
      && st'.sk == st.sk && st'.trust == st.trust && st'.keySeq == st.keySeq && st'.keyFingerprint == st.keyFingerprint
      && st'.graphs == st.graphs
      && st'.usedNonces == (if cfg.opPem.Some? && Admitted(cfg, st, req) then st.usedNonces + {req.scope.value.nonce} else st.usedNonces)
      && (if out.Answered? && (req.route == OpAttested || req.route == NlAttested) then
            req.op.Some?
            && var b := WitnessOf(cfg, st, req, DeterministicHash(cfg.recordHash, out.record));
              st'.serving == Log(cfg.authorityId,
                                 st.serving.entries + [WitnessEntry(b, cfg.c.sign(st.sk, cfg.c.sha(b.prevHash + "|" + cfg.witnessEnc(b))))])
          else st'.serving == st.serving)
  {
    hide Arity, Coherent, RunQuery, TextScopeHolds, DeterministicHash;
  }

  /** A rotation signs the new key in with the old one, under the next number, and puts it in force;
      the witness log, the graphs and the nonces stay as they are. */
  lemma RotatedReads(cfg: Config, st: State, newSk: Key, now: int)
    requires st.trust.entries != []
    ensures var st', n, pem := Rotated(cfg, st, newSk, now), |st.trust.entries|, cfg.c.publicPem(newSk);
      var link := cfg.c.sha(cfg.trustEnc(st.trust.entries[n - 1].body));
      var b := TrustBody(n, "rotate", cfg.authorityId, pem, now, link);
      && st'.sk == newSk && st'.keySeq == n && st'.keyFingerprint == cfg.c.sha(Squeeze(pem))
      && st'.trust == AuthorityLog(st.trust.anchorFingerprint,
                                   st.trust.entries + [TrustEntry(b, cfg.c.sign(st.sk, cfg.c.sha(link + "|" + cfg.trustEnc(b))))])
      && st'.serving == st.serving && st'.graphs == st.graphs && st'.usedNonces == st.usedNonces
  {
    hide Squeeze;
  }
}
