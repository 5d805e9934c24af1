/** What the scope gate guarantees over whole runs of a provisioned service, and two
    bindings it does not enforce. */
module ServiceScope {
  import opened Basics
  import opened Crypto
  import opened Algebra
  import opened Graph
  import opened Semantics
  import opened Evidence
  import opened Scope
  import opened ServiceSpec

  /** An answered query of a provisioned service ran under a fresh, signed, current scope,
      used only listed operators, and returned no more entities than allowed. */
  lemma AnsweredWithinScope(cfg: Config, st: State, req: Request)
    requires WellFormed(st) && RequestArity(req) && cfg.opPem.Some? && Answer(cfg, st, req).Answered?
    ensures req.scope.Some? && req.op.Some?
    ensures var scope, record := req.scope.value, Answer(cfg, st, req).record;
      && SignatureHolds(cfg, scope, cfg.opPem.value)
      && scope.notBefore <= req.now <= scope.notAfter
      && scope.nonce !in st.usedNonces && scope.nonce in AfterGate(cfg, st, req).usedNonces
      && (scope.capabilities != [] ==> KindsIn(req.op.value) <= (set k | k in scope.capabilities))
      && (scope.maxResults.Some? ==> |record.included| + |record.excluded| <= scope.maxResults.value)
      && (req.route != NlAttested ==>
            scope.bodyHash == (if req.route == NlRoute then cfg.textHash(req.text) else cfg.opHash(req.op.value)))
  {
    hide Arity, Coherent, RecordOf, KindsIn, SignatureHolds;
  }

  /** The nonce a step admits, if any. */
  ghost function AdmittedBy(cfg: Config, st: State, e: Event): seq<int> {
    if e.Query? && cfg.opPem.Some? && GatePasses(cfg, st, e.req) then [e.req.scope.value.nonce] else []
  }

  /** The nonces admitted by the gate during a run, in order. */
  ghost function AdmittedNonces(cfg: Config, st: State, es: seq<Event>): seq<int>
    requires WellFormed(st) && forall e :: e in es ==> EventOk(e)
  {
    if es == [] then []
    else
      var prev, e := After(cfg, st, es[..|es| - 1]), es[|es| - 1];
      AdmittedNonces(cfg, st, es[..|es| - 1]) + AdmittedBy(cfg, prev, e)
  }

  lemma StepNonces(cfg: Config, st: State, e: Event)
    requires WellFormed(st) && EventOk(e)
    ensures Step(cfg, st, e).usedNonces
         == if e.Query? && cfg.opPem.Some? && GatePasses(cfg, st, e.req)
            then st.usedNonces + {e.req.scope.value.nonce} else st.usedNonces
    ensures e.Query? && cfg.opPem.Some? && GatePasses(cfg, st, e.req) ==> e.req.scope.value.nonce !in st.usedNonces
  {
    hide Arity, Coherent, RunQuery;
  }

  /** These are exactly the used nonces, each once. */
  ghost predicate ListsOnce(ns: seq<int>, used: set<int>) {
    (forall i, j :: 0 <= i < j < |ns| ==> ns[i] != ns[j]) && (forall n :: n in ns <==> n in used)
  }

  lemma ListsSnoc(ns: seq<int>, used: set<int>, n: int)
    requires ListsOnce(ns, used) && n !in used
    ensures ListsOnce(ns + [n], used + {n})
  {}

  lemma StepListsOnce(cfg: Config, st: State, e: Event, ns: seq<int>)
    requires WellFormed(st) && EventOk(e) && ListsOnce(ns, st.usedNonces)
    ensures ListsOnce(ns + AdmittedBy(cfg, st, e), Step(cfg, st, e).usedNonces)
  {
    StepNonces(cfg, st, e);
    hide Step, EventOk, GatePasses, WellFormed, ListsOnce;
    assert ns + [] == ns;
    if AdmittedBy(cfg, st, e) != [] {
      ListsSnoc(ns, st.usedNonces, e.req.scope.value.nonce);
    }
  }

  /** In every run each scope nonce is admitted at most once, refused or answered afterwards. */
  lemma {:induction false} NoncesAdmittedOnce(cfg: Config, sk: Key, now: int, es: seq<Event>)
    requires forall e :: e in es ==> EventOk(e)
    ensures WellFormed(Initial(cfg, sk, now))
    ensures ListsOnce(AdmittedNonces(cfg, Initial(cfg, sk, now), es), After(cfg, Initial(cfg, sk, now), es).usedNonces)
  {
    NothingUsed(cfg, sk, now);
    hide Step, EventOk, GatePasses, Initial, ListsOnce, WellFormed;
    if es == [] {
      assert ListsOnce([], {}) by { NoneListed(); }
    } else {
      var st0, before, e := Initial(cfg, sk, now), es[..|es| - 1], es[|es| - 1];
      NoncesAdmittedOnce(cfg, sk, now, before);
      StepListsOnce(cfg, After(cfg, st0, before), e, AdmittedNonces(cfg, st0, before));
      assert After(cfg, st0, es) == Step(cfg, After(cfg, st0, before), e);
    }
  }

  lemma NoneListed()
    ensures ListsOnce([], {})
  {}

  lemma NothingUsed(cfg: Config, sk: Key, now: int)
    ensures Initial(cfg, sk, now).usedNonces == {} && WellFormed(Initial(cfg, sk, now))
  {}

  /** A scope signed by the operation key with no capability and no size limit. */
  function OpenScope(cfg: Config, opSk: Key, graphName: string, bodyHash: string, now: int, nonce: int): QueryScope {
    var unsigned := QueryScope(graphName, "agent", [], None, now, now, nonce, "operator", cfg.c.publicPem(opSk), bodyHash, "");
    unsigned.(sig := cfg.c.sign(opSk, cfg.scopeEnc(unsigned)))
  }

  lemma OpenScopeAdmitted(cfg: Config, st: State, opSk: Key, graphName: string, bodyHash: string, now: int, nonce: int)
    requires Lawful(cfg.c) && cfg.opPem == Some(cfg.c.publicPem(opSk)) && nonce !in st.usedNonces
    requires forall m :: cfg.c.sign(opSk, m) != ""
    ensures ScopeAdmitted(cfg, st, OpenScope(cfg, opSk, graphName, bodyHash, now, nonce), now)
  {
    var scope := OpenScope(cfg, opSk, graphName, bodyHash, now, nonce);
    assert scope.(sig := "").(sig := scope.sig) == scope;
  }

  /** The gate compares a scope's graph name with itself only: a scope signed for any graph
      admits a query against any other loaded graph. */
  lemma GraphNameNotEnforced(cfg: Config, st: State, opSk: Key, scopeGraph: string, queried: string, op: Op,
                             now: int, nonce: int, issuedAt: int)
    requires Lawful(cfg.c) && cfg.opPem == Some(cfg.c.publicPem(opSk)) && nonce !in st.usedNonces
    requires forall m :: cfg.c.sign(opSk, m) != ""
    requires WellFormed(st) && queried in st.graphs && Arity(op)
    ensures var scope := OpenScope(cfg, opSk, scopeGraph, cfg.opHash(op), now, nonce);
      Answer(cfg, st, Request(OpRoute, queried, Some(op), "", Some(scope), now, issuedAt))
      == Answered(RecordOf(st.graphs[queried], op))
  {
    hide Arity, Coherent, RecordOf, ScopeAdmitted;
    OpenScopeAdmitted(cfg, st, opSk, scopeGraph, cfg.opHash(op), now, nonce);
  }

  /** The request is admitted under a scope that names this graph. */
  ghost predicate AnsweredUnder(cfg: Config, st: State, req: Request, graphName: string)
    requires WellFormed(st)
  {
    RequestArity(req) && req.scope.Some? && req.scope.value.graphName == graphName && Answer(cfg, st, req).Answered?
  }

  /** Exactly when the promise of the graph name holds: every request answered under a scope
      for a graph is a request on that graph if and only if no other graph is loaded. */
  lemma GraphNameHoldsExactly(cfg: Config, st: State, opSk: Key, scopeGraph: string, nonce: int)
    requires Lawful(cfg.c) && cfg.opPem == Some(cfg.c.publicPem(opSk)) && nonce !in st.usedNonces
    requires (forall m :: cfg.c.sign(opSk, m) != "") && WellFormed(st)
    ensures (forall req :: AnsweredUnder(cfg, st, req, scopeGraph) ==> req.graphName == scopeGraph)
       <==> st.graphs.Keys <= {scopeGraph}
  {
    forall req | AnsweredUnder(cfg, st, req, scopeGraph) ensures req.graphName in st.graphs {
      AnsweredIsLoaded(cfg, st, req);
    }
    if queried :| queried in st.graphs && queried != scopeGraph {
      var op := Op(TYPE, None, None, None, None, 1, []);
      var scope := OpenScope(cfg, opSk, scopeGraph, cfg.opHash(op), 0, nonce);
      GraphNameNotEnforced(cfg, st, opSk, scopeGraph, queried, op, 0, nonce, 0);
      hide Answer;
      assert AnsweredUnder(cfg, st, Request(OpRoute, queried, Some(op), "", Some(scope), 0, 0), scopeGraph);
    }
  }

  lemma AnsweredIsLoaded(cfg: Config, st: State, req: Request)
    requires WellFormed(st) && RequestArity(req) && Answer(cfg, st, req).Answered?
    ensures req.graphName in st.graphs
  {
    hide Arity, Coherent, RecordOf, Allows, GatePasses, TextScopeHolds;
  }

  /** The attested text route parts from the plain one exactly for a request of a provisioned
      service that passes the gate, parses, names a loaded graph, stays within its scope's
      operators and size, and whose scope is not bound to the text. */
  lemma AttestedTextPartsExactly(cfg: Config, st: State, req: Request)
    requires WellFormed(st) && RequestArity(req) && req.route == NlAttested
    ensures Answer(cfg, st, req) != Answer(cfg, st, req.(route := NlRoute))
       <==> (cfg.opPem.Some? && GatePasses(cfg, st, req) && req.op.Some? && req.graphName in st.graphs
             && Allows(req.scope.value, req.op.value, |RecordOf(st.graphs[req.graphName], req.op.value).included|,
                       |RecordOf(st.graphs[req.graphName], req.op.value).excluded|)
             && req.scope.value.bodyHash != cfg.textHash(req.text))
  {
    hide Arity, Coherent, RecordOf, KindsIn, ScopeAdmitted;
    assert GatePasses(cfg, st, req) == GatePasses(cfg, st, req.(route := NlRoute));
  }

  /** The attested natural-language route checks no body binding: a scope bound to any other
      text is answered there, while the plain route refuses it. */
  lemma AttestedTextNotBound(cfg: Config, st: State, opSk: Key, bodyHash: string, queried: string, text: string, op: Op,
                             now: int, nonce: int, issuedAt: int)
    requires Lawful(cfg.c) && cfg.opPem == Some(cfg.c.publicPem(opSk)) && nonce !in st.usedNonces
    requires forall m :: cfg.c.sign(opSk, m) != ""
    requires WellFormed(st) && queried in st.graphs && Arity(op) && bodyHash != cfg.textHash(text)
    ensures var scope := OpenScope(cfg, opSk, queried, bodyHash, now, nonce);
      Answer(cfg, st, Request(NlAttested, queried, Some(op), text, Some(scope), now, issuedAt))
      == Answered(RecordOf(st.graphs[queried], op))
      && Answer(cfg, st, Request(NlRoute, queried, Some(op), text, Some(scope), now, issuedAt)) == Refused
  {
    hide Arity, Coherent, RecordOf, ScopeAdmitted;
    OpenScopeAdmitted(cfg, st, opSk, queried, bodyHash, now, nonce);
  }
}
