/** The per-application state of create_app and the handlers that change it. */
module Service {
  import opened Basics
  import opened Crypto
  import opened Algebra
  import opened Graph
  import opened Semantics
  import opened Evidence
  import opened Executor
  import opened Scope
  import opened TrustLog
  import opened WitnessLog
  import opened ServiceSpec

  class EvidenceService {
    const cfg: Config
    var sk: Key
    var trust: AuthorityLog
    var serving: Log
    var keySeq: int
    var keyFingerprint: string
    var graphs: map<string, KnowledgeGraph>
    var usedNonces: set<int>

    ghost function Current(): State
      reads this, graphs.Values
    {
      State(sk, trust, serving, keySeq, keyFingerprint, map name | name in graphs :: graphs[name].View(), usedNonces)
    }

    /** create_app with a given evidence key. */
    constructor (cfg: Config, sk: Key, now: int)
      ensures this.cfg == cfg && Current() == Initial(cfg, sk, now) && WellFormed(Current())
      ensures graphs == map[]
    {
      this.cfg, this.sk := cfg, sk;
      trust := BuildBootstrapLog(cfg.c, cfg.trustEnc, sk, cfg.authorityId, now);
      serving := Log(cfg.authorityId, []);
      keySeq, keyFingerprint := 0, Fingerprint(cfg.c, cfg.c.publicPem(sk));
      graphs, usedNonces := map[], {};
    }

    /** load_graph, given the graph object the loader built. */
    method LoadGraph(name: string, g: KnowledgeGraph)
      requires WellFormed(Current()) && Coherent(g.View())
      modifies this`graphs
      ensures graphs == old(graphs)[name := g]
      ensures Current() == Step(cfg, old(Current()), Load(name, g.View()))
    {
      hide WellFormed, Coherent;
      graphs := graphs[name := g];
    }

    /** require_scope: true lets the request through, and burns the scope's nonce. */
    method RequireScope(req: Request) returns (ok: bool)
      modifies this`usedNonces
      ensures ok == GatePasses(cfg, old(Current()), req)
      ensures Current() == AfterGate(cfg, old(Current()), req)
    {
      if cfg.opPem.None? {
        return true;
      }
      if req.scope.None? {
        return false;
      }
      var scope := req.scope.value;
      if scope.nonce in usedNonces || !(scope.notBefore <= req.now <= scope.notAfter)
         || !SignatureHolds(cfg, scope, cfg.opPem.value) {
        return false;
      }
      usedNonces := usedNonces + {scope.nonce};
      return true;
    }

    /** _run */
    method Run(graphName: string, op: Op, scope: Option<QueryScope>, bindingDone: bool) returns (out: Outcome)
      requires WellFormed(Current()) && Arity(op)
      ensures out == RunQuery(cfg, Current(), graphName, op, scope, bindingDone)
    {
      hide Arity, RecordOf, Allows;
      if graphName !in graphs {
        return Refused;
      }
      if scope.Some? && !bindingDone && scope.value.bodyHash != cfg.opHash(op) {
        return Refused;
      }
      assert Current().graphs[graphName] == graphs[graphName].View();
      var executor := new QueryExecutor(graphs[graphName]);
      var record := executor.Execute(op);
      if scope.Some? {
        var ok := EnforceConstraints(op, scope.value, |record.included|, |record.excluded|);
        if !ok {
          return Refused;
        }
      }
      return Answered(record);
    }

    /** rotate_evidence_key */
    method RotateEvidenceKey(newSk: Key, now: int)
      modifies this`sk, this`trust, this`keySeq, this`keyFingerprint
      ensures Current() == Rotated(cfg, old(Current()), newSk, now)
    {
      trust := AppendRotate(cfg.c, cfg.trustEnc, trust, newSk, sk, cfg.authorityId, now);
      sk := newSk;
      keySeq := trust.entries[|trust.entries| - 1].body.index;
      keyFingerprint := Fingerprint(cfg.c, cfg.c.publicPem(sk));
    }

    /** _append_witness */
    method AppendWitness(queryHash: string, record: EvidenceRecord, scope: Option<QueryScope>, issuedAt: int)
      modifies this`serving
      ensures Current() == Served(cfg, old(Current()), queryHash, record, scope, issuedAt)
    {
      hide DeterministicHash;
      var agent := if scope.Some? then scope.value.agentId else "<unscoped>";
      var caps := if scope.Some? then scope.value.capabilities else ["<allow-all>"];
      serving := AppendEntry(cfg.c, cfg.witnessEnc, serving, queryHash, DeterministicHash(cfg.recordHash, record),
                             agent, caps, sk, cfg.authorityId, issuedAt, keySeq, keyFingerprint);
    }

    /** One request through gate, route handler and, on the attested routes, the witness log. */
    method Handle(req: Request) returns (out: Outcome)
      requires WellFormed(Current()) && RequestArity(req)
      modifies this`usedNonces, this`serving
      ensures out == Answer(cfg, old(Current()), req)
      ensures Current() == HandleState(cfg, old(Current()), req)
    {
      hide Arity, RunQuery, Served, Allows;
      var ok := RequireScope(req);
      if !ok || req.op.None? {
        return Refused;
      }
      var op, scope := req.op.value, ScopeInForce(cfg, req);
      RunIgnoresNonces(cfg, old(Current()), req, op);
      if req.route == NlRoute && scope.Some? {
        var holds := scope.value.bodyHash == cfg.textHash(req.text);
        if holds {
          holds := EnforceConstraints(op, scope.value, 0, 0);
        }
        if !holds {
          return Refused;
        }
      }
      out := Run(req.graphName, op, scope, req.route in {NlRoute, NlAttested});
      if out.Answered? && req.route in {OpAttested, NlAttested} {
        AppendWitness(QueryHash(cfg, req), out.record, scope, req.issuedAt);
      }
    }
  }

  lemma RunIgnoresNonces(cfg: Config, st: State, req: Request, op: Op)
    requires WellFormed(st) && Arity(op)
    ensures forall scope, done :: RunQuery(cfg, AfterGate(cfg, st, req), req.graphName, op, scope, done)
                               == RunQuery(cfg, st, req.graphName, op, scope, done)
  {
    hide Arity, RecordOf, Allows;
  }
}
