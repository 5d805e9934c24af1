# Rathnone, in Dafny

A model of Rathnone, a fail-closed authorization gateway for financial actions with a
deterministic knowledge-query engine beside it, and proofs of what its parts promise.

What is modelled, by module:

- **Signing and wire format**: `Basics`, `NumberTheory`, `Bytes`, `Secp256k1`,
  `GeneratorOrder`, `Subgroup`, `CurveOrder`, `Ecdsa`, `MixedCurves`, `Recovery`, `Signer` for
  `src/live/signing.py` (SEC 1 v2.0 sections 4.1.3 and 4.1.6, EIP-2), `Rlp`, `Canonical` and
  `RawTx` for `src/venue/l2.py` (Appendix B of the Ethereum Yellow Paper, EIP-155). The point arithmetic
  is proved to stay on the curve, the double-and-add loop to be k-fold addition, every point of
  the curve to be a multiple of G and G to have order N, recovery to invert signing and when it
  misses, the encoder to answer the shortest text that decodes to its item, and raw transactions
  to read back to their sender and their nine fields in order.
- **Query engine**: `Algebra`, `Graph`, `Semantics`, `Search`, `Sorting`, `Executor`,
  `Evidence`, `Verdicts`, `Building`, `Reconciliation`, `Scope` for `src/query/algebra.py`, `executor.py` and
  `scope.py`. The frontier search refines a semantics in terms of walks; `Verdicts` says
  what every operator matches in terms of the entity, its edges and the operands; a query splits the
  entities in two, by a rule that does not see the order in which the graph was built.
- **Signed logs and the query service**: `Crypto`, `TrustLog`, `WitnessLog`, `Ledger` for
  `src/query/authority.py`, `src/query/witness.py`, `src/service/tenant.py` and
  `src/mirror/__init__.py`; `ServiceSpec`, `ServiceSteps`, `ServiceScope`, `Service` for the
  state machine of `src/query/service.py`. The two logs cross-verify in every reachable state.
- **Authorization pipeline**: `Action`, `Hygiene`, `Operator`, `EvidenceChain`,
  `PipelineSpec`, `RunRecords`, `Pipeline` for `src/service/pipeline.py` and the layers it calls.
  `PipelineSpec` is a decision table over the gates of a run; `Pipeline` is the run, step by
  step over its mutable collaborators, proved against the table, with what a submission rests on
  and what a run leaves behind in terms of the request, the answers and the state before.
- **Replay and rate**: `Replay` for `src/security/replay.py`, `Velocity` for the clock, the
  breaker and the velocity guard of `src/security/guards.py`.

Code that changes state is a class with the same fields; its methods are proved against
functions of the old state, and the properties are lemmas about those functions.

What is taken as a hypothesis, never as an axiom, and stated where it is used: both secp256k1
moduli are prime and addition is associative on the curve (`CurveFacts`); that a key's
signatures verify under its public half (`Lawful`); for the root of a log, that a signature
verifies under one key only, in all its spellings (`OneKeyEach`); for what a last hash pins, that
no two of the texts the two compared logs or records hash collide (`NoCollision`,
`NoWitnessCollision`, `IdsToldApart`) and that the canonical encodings are injective
(`Injective`). Hashes, Ed25519, keccak, key ids and the RFC 6979 nonce are function parameters.
That N*G is infinity is proved: `GeneratorOrder` walks the bits of N with the slope of every
doubling, addition and subtraction written out. That N kills every other point is proved in
`CurveOrder` by counting: three cosets of the multiples of G would hold more points than two for
every abscissa.

Where the code and its documentation part, the code is modelled, a run that shows the
difference is given where one can be written down, and so is the exact condition under which
the promise holds:

- `TrustLog.DeclaredAnchorIsNotTheRoot`: the operator's pin is compared with the fingerprint a
  log declares, not with the key of its entry 0; `TrustLog.RootExactly` says when the anchor
  signed the root.
- `TrustLog.RevokedKeyStillAuthorizes`: after a revoke nothing is in force for `current_pem`,
  yet the revoked key still signs the next entry in; `CurrentAuthorizesExactly` says that the two
  are the same for every log that does not end in a revoke.
- `TrustLog.RetiredKeyStillResolves`: the keys that witness entries are resolved to include
  revoked ones; `TrustedKeysHoldExactly` says that they do as soon as a log holds a revoke.
- `ServiceScope.GraphNameNotEnforced` and `ServiceScope.AttestedTextNotBound`: two bindings of a
  query scope that the service does not check; they hold exactly as `GraphNameHoldsExactly` and
  `AttestedTextPartsExactly` say.
- `Reconciliation.ExcludedEntityUnnoticed`: `reconcile_with` reports two runs consistent although
  their hashes differ; `HashIsConsistencyAndDomain` says what it leaves out.
- `Operator.RevokedDuplicateStaysActive`: revoking switches off the first entry of a key only;
  `RevokeTakesEffect` says when that is enough.
- `Operator.EmptyEntryTrustsTheRecord`: an empty allowlist entry trusts the key a record names;
  `AllowlistHoldsExactly` says that no other list does.
- `Ledger.AuditMirror.VerifyChain`: a signature that is not hex raises in the mirror, where the
  tenant refuses it; `SpoiltSignatureRaises` spoils any signature of any accepted ledger.
- `EvidenceChain.RepeatedActionBreaksIntegrity`: a fresh pipeline for an action that already has
  events, such as a replayed one, makes `verify_chain_integrity` false for the whole graph;
  `IntegrityExactly` and `TraceOfRun` say when it stays true.
- `PipelineSpec.LegalExactly`: a run without a settlement key that finds every gate open and the
  venue answering goes from APPROVED straight to SUBMITTED, which the table of legal transitions
  does not allow.
- `Replay.ExpiryBurnsOnlyDurably` and `Replay.BurntNonceFreesTheHash`: the durable registry burns
  the nonce of an expired action, so that either registry accepts calls that the other refuses;
  `StepParts` and `AgreeExactly` say which calls part them.
- `Building.EarlyLinkIsLost`: a link made before its endpoints is dropped silently;
  `SameGraphExactly` says which orders of commands build the same graph.
- `Rlp.RoundTripExactly`: from 2^64 bytes on the encoder answers, and its answer does not decode
  back.
- `Recovery.RecoverExact`: recovery tries the abscissa r and never r + N, and does not check that
  the lifted point is on the curve.
- `PipelineSpec.AddressExactly`: the address pattern also admits one final line feed; `PlainExactly`
  says which of the texts it admits are addresses.

## Model

| member | source | states |
|---|---|---|
| Secp256k1.AddOnCurve | src/live/signing.py:58-73 | _ec_add maps two points of y^2 = x^3 + 7 modulo P (or any prime) to a point of it, in the infinity, inverse, tangent and chord cases |
| Secp256k1.AddCommutes | src/live/signing.py:58-73 | _ec_add is commutative on the curve, although chord slopes are computed from either end |
| Secp256k1.NegateOnCurve | src/live/signing.py:61-62 | the reflected point is on the curve and sums with the point to infinity |
| Secp256k1.InverseIsNegate | src/live/signing.py:61-62 | only opposite points sum to infinity |
| Secp256k1.SlopeSolves | src/live/signing.py:54-55 | dividing by _inv, a Fermat power, really solves den * slope = num modulo a prime |
| Secp256k1.EcMulIsTimes | src/live/signing.py:76-84 | the double-and-add recurrence equals k-fold addition for every k >= 0 and every curve point |
| Secp256k1.EcMul | src/live/signing.py:76-84 | the loop computes that recurrence, hence k-fold addition |
| GeneratorOrder.OrderOfG | src/live/signing.py:46-50 | the constants fit: N*G is infinity, checked step by step of the double-and-add from primality and associativity |
| Subgroup.ScalarCong | src/live/signing.py:46-50 | multiples of G depend only on the scalar modulo N |
| Subgroup.ScalarFinite | src/live/signing.py:46-50 | k*G is finite unless N divides k |
| Subgroup.NegateScalar | src/live/signing.py:163-165 | -(k*G) is (N-k)*G: what flipping s does to the nonce |
| CurveOrder.EveryPointIsMultiple | src/live/signing.py:46-50 | every point of the curve is a multiple of G |
| CurveOrder.EveryPointHasOrder | src/live/signing.py:46-50 | N times any point of the curve is infinity |
| CurveOrder.NoOrderTwo | src/live/signing.py:61-62 | no point of the curve has ordinate zero, so the tangent's denominator never vanishes |
| Ecdsa.SignNeverRaises | src/live/signing.py:149-166 | with a nonce in 1..N-1 signing never raises |
| Ecdsa.SignsExactly | src/live/signing.py:149-166 | a pass signs if and only if neither R.x nor z + r*d is 0 modulo N, and goes round again otherwise |
| Ecdsa.SignAttempt | src/live/signing.py:149-166 | s is always in 1..N//2, r in 1..N-1 and the recovery id a bit (EIP-2) |
| Ecdsa.SignatureEquation | src/live/signing.py:159-165 | the returned s satisfies s*k = z + r*d modulo N for the nonce, or for its negative when low-s flipped |
| Ecdsa.LiftRecoversPoint | src/live/signing.py:180-183 | the power (P+1)/4 and the parity rule recover a curve point or its negation from its abscissa |
| Ecdsa.RecoverRaisesExactly | src/live/signing.py:174-187 | recovery raises exactly for an r below P that N divides, and answers None from P on |
| Ecdsa.RecoverInvertsSign | src/live/signing.py:149-187 | secp256k1_recover on the output of sign is the signer's public point when R.x < N, flipped or not (SEC 1 v2.0 section 4.1.6) |
| Recovery.RecoverPinsPoint | src/live/signing.py:174-187 | recovery from a curve point returns the signer's point only if the lifted point is the one that was signed with |
| MixedCurves.SumAcross | src/live/signing.py:58-73 | _ec_add of a point on the curve and a point of another curve y^2 = x^3 + b lies on the curve only as the negative of the first, or with ordinate zero |
| Recovery.OffCurveMisses | src/live/signing.py:174-187 | from a lifted point off the curve the signer comes out only for a digest r*d modulo N, and only when s*L - z*G happens to be z*G |
| Recovery.RecoverExact | src/live/signing.py:174-187 | recovery returns the signer if and only if R.x < N, or that coincidence happens; so for every digest other than r*d modulo N exactly when R.x < N: the code tries x = r and never r + N |
| Signer.RecoverAddressInvertsSignEth | src/live/signing.py:168-201 | recover_address on the 65 bytes of sign_eth is the wallet's own address |
| Signer.PublicPoint | src/live/signing.py:133-136 | a wallet's public point is a finite curve point |
| Signer.SignatureFits | src/live/signing.py:168-171 | the 65-byte form splits back into r, s and v |
| Signer.AddressIsHashTail | src/live/signing.py:113-120 | the address is the last 20 of the 32 bytes that keccak makes of the two 32-byte big-endian coordinates |
| Signer.Secp256k1Signer.constructor | src/live/signing.py:135-136 | the wallet holds the key and its public point |
| Signer.Secp256k1Signer.Create | src/live/signing.py:133-136 | a wallet is made exactly for keys in 1..N-1 |
| Signer.Secp256k1Signer.Sign | src/live/signing.py:149-166 | the retry loop returns what its first pass returns, or nothing: every pass uses the same nonce |
| Rlp.RoundTrip | src/venue/l2.py:49-96 | decoding at the end of any prefix gives back exactly the encoded item and the position just past it, whatever follows, for lengths below 2^64 (Yellow Paper, Appendix B) |
| Rlp.ListRoundTrip | src/venue/l2.py:90-96 | the list loop gives back the items of a concatenation, in order |
| Rlp.PrefixFree | src/venue/l2.py:49-63 | encodings are injective and prefix-free |
| Bytes.BigEndian | src/venue/l2.py:39-46 | of two byte strings the number of the joined one is that of the first shifted by the length of the second, plus that of the second |
| Bytes.NoLeadingZero | src/venue/l2.py:39-46 | an integer is written without a leading zero byte, zero as nothing, and reads back |
| Canonical.SmallByte | src/venue/l2.py:54-55 | a single byte below 0x80 is its own encoding |
| Canonical.ShortString | src/venue/l2.py:56-61 | up to 55 other bytes follow one byte 0x80 + length |
| Canonical.LongString | src/venue/l2.py:56-63 | more follow 0xb7 + the size of their length and that length, big-endian without leading zeros |
| Canonical.Number | src/venue/l2.py:39-46 | an integer is encoded as its shortest big-endian bytes |
| Canonical.ListForm | src/venue/l2.py:50-63 | a list is 0xc0 + length, or 0xf7 + the size of the length and the length, and then the encodings of its items, joined in order |
| Canonical.Shortest | src/venue/l2.py:49-96 | the encoding is canonical: whatever text decodes to an item is no shorter than its encoding, for strings and lists at any depth (Yellow Paper, Appendix B) |
| Canonical.LongerIsRead | src/venue/l2.py:66-75 | the decoder does read longer texts: the two-byte form of a small byte decodes to that byte |
| Canonical.TruncatedIsRead | src/venue/l2.py:66-96 | a text that breaks off is read without an error: a string or list that announces more than is left takes what is left, and the position moves past the end |
| Rlp.AllFitIfEachFits | src/venue/l2.py:52-53 | a list of encodable items is encodable |
| Rlp.RoundTripExactly | src/venue/l2.py:49-96 | encoding succeeds and decodes back to the item if and only if every length in it is below 2^64 |
| Rlp.LongPrefix | src/venue/l2.py:59-63 | from 2^64 bytes on a string gets a list's prefix byte or none, and a list none at all |
| Rlp.TooLongStringHeader | src/venue/l2.py:59-63 | below 2^72 bytes it does get one, the prefix of an empty list |
| Rlp.Decode | src/venue/l2.py:66-87 | on arbitrary bytes with pos < len the decoder terminates, never raises and moves forward |
| Rlp.DecodeAt | src/venue/l2.py:66-87 | the decoder, statement by statement, computes that function |
| Rlp.DecodeListLoop | src/venue/l2.py:90-96 | the while loop appends exactly the remaining items |
| RawTx.RawTxRoundTrip | src/venue/l2.py:145-170 | reading a raw transaction back gives the chain id, the digest that was signed and the wallet's own address, for every field value (EIP-155) |
| RawTx.ReadSignedList | tests/test_real_l2_venue.py:117-129 | the nine fields come back and v splits into chain id and parity |
| RawTx.RawTxFields | src/venue/l2.py:145-170 | what is signed and what is sent decode to nine-item lists: nonce, gas price, gas limit, to, value and data in this order as the transaction has them, then chain id, nothing, nothing in the one and v, r, s in the other, with v the chain id doubled plus 35 or 36, and r, s the signature of the digest (EIP-155) |
| Graph.KnowledgeGraph.constructor | src/query/executor.py:54-56 | a new graph is empty and coherent |
| Graph.KnowledgeGraph.Add | src/query/executor.py:58-61 | add replaces an entity in place or appends it, and keeps the graph coherent |
| Graph.KnowledgeGraph.Link | src/query/executor.py:63-66 | link stores both directions, or nothing when an endpoint is unknown |
| Graph.KnowledgeGraph.Neighbors | src/query/executor.py:83-88 | neighbors are the edge targets of the wanted kind, in adjacency order |
| Graph.NeighborIdsAreEdges | src/query/executor.py:83-88 | an id is a neighbor exactly when an edge of the kind leads to it |
| Search.WithinHasWalk | src/query/executor.py:384-402 | everything the level sets hold is the end of a walk that short |
| Search.WalkStaysWithin | src/query/executor.py:384-402 | every walk of n edges ends inside the n-th level set |
| Search.ReachesIffWithin | src/query/executor.py:384-402 | the declarative search and the level sets agree at every depth |
| Executor.QueryExecutor.FrontierSearch | src/query/executor.py:384-402 | the seen/frontier search terminates and returns true exactly when a walk of at most depth edges of the kind leads to an entity where the operand holds |
| Executor.QueryExecutor.Shortest | src/query/executor.py:404-421 | the search of PATH returns true exactly when the target holds here or hop by hop at a neighbor, within max_len hops |
| Executor.QueryExecutor.Leaf | src/query/executor.py:317-381 | a leaf's verdict, reasons and predicates are those of the declarative semantics |
| Executor.QueryExecutor.EvalOperands | src/query/executor.py:270-302 | the operand loop collects verdicts, failing reasons and predicates of all operands, skipping none |
| Executor.QueryExecutor.Eval | src/query/executor.py:266-314 | the evaluator computes the recursive semantics and appends exactly its plan lines |
| Executor.QueryExecutor.Execute | src/query/executor.py:247-263 | execute returns the record of the semantics over all entities in insertion order |
| Verdicts.AndMatches | src/query/executor.py:268-279 | AND matches exactly the entities of the graph that every operand matches |
| Verdicts.OrMatches | src/query/executor.py:281-299 | OR matches exactly the entities that some operand matches |
| Verdicts.NotMatches | src/query/executor.py:301-312 | NOT matches exactly the entities of the graph that its operand does not match |
| Verdicts.TypeMatches | src/query/executor.py:327-331 | TYPE matches exactly the entities of that type |
| Verdicts.SourceMatches | src/query/executor.py:332-337 | SOURCE matches exactly the entities from that source |
| Verdicts.TextMatches | src/query/executor.py:338-342 | MATCH matches exactly the entities whose text contains the argument in lower case; an empty argument matches nothing |
| Verdicts.ScoreMatches | src/query/executor.py:343-347 | SCORE matches exactly the entities whose score is at least the threshold, zero if there is none |
| Verdicts.TimeMatches | src/query/executor.py:348-355 | TIME matches exactly the entities whose timestamp is within the bounds that are given, both included |
| Verdicts.NearMatches | src/query/executor.py:374-378 | NEAR matches exactly the entities that have the argument, in lower case, among their neighbor terms |
| Verdicts.GraphMatches | src/query/executor.py:356-421 | a graph operator matches exactly the entities from which a walk of at most its depth, along the edges of its kind, ends where its leaf operand matches: derived_from for DERIVED_FROM, same_as for SAME_AS, any edge otherwise |
| Verdicts.OperandReports | src/query/executor.py:268-299 | the reasons and predicates of AND and OR are those of the operands, plus the one line each adds |
| Verdicts.AndInOrder | src/query/executor.py:268-279 | the reasons of a failing AND come in the order of its operands |
| Verdicts.OrInOrder | src/query/executor.py:281-299 | and so do those that a failing OR repeats |
| Verdicts.NotReports | src/query/executor.py:301-312 | NOT keeps the predicates of its operand and says whether it held or not |
| Verdicts.LeafReports | src/query/executor.py:317-381 | a leaf lists its own name and gives the one reason for its verdict, with the values compared |
| Verdicts.PlanExactly | src/query/executor.py:266-326 | the plan has a line exactly for every operator that is visited, at its nesting depth, the root first |
| Verdicts.PlanInOrder | src/query/executor.py:268-302 | below the line of an AND or OR come the plans of its operands in their order, one level deeper |
| Verdicts.RecordDescribes | src/query/executor.py:247-263 | every entry names an entity of the graph, with its verdict, its reasons and its predicates, sorted and once each |
| Verdicts.RecordInOrder | src/query/executor.py:247-263 | the entries of each side stand in insertion order, and the plan is that of the query once for every entity |
| Verdicts.HashOfSortedIds | src/query/executor.py:120-127 | the hash is taken of the ids in code point order, each side in full |
| Sorting.StringLeqExactly | src/query/executor.py:120-127 | the order of ids is the lexicographic one: a prefix first, else the first character that differs decides |
| Semantics.PathIffReaches | src/query/executor.py:404-421 | a path hop by hop exists exactly when a walk that short does |
| Semantics.PathIsConnected | src/query/executor.py:356-373 | PATH at depth d finds exactly what CONNECTED_TO at depth d finds, although a search of its own decides it |
| Semantics.BooleanOperandNeverFound | src/query/executor.py:379-380 | a boolean operand under a graph operator never holds, at any depth |
| Semantics.ReachesMonotone | src/query/executor.py:384-402 | a deeper search never loses a match |
| Semantics.EvalSameGraph | src/query/executor.py:266-381 | verdicts and reasons depend on entities and edges only, not on how they are stored |
| Evidence.Partition | src/query/executor.py:247-263 | every entity is included or excluded, exactly once, by whether the query matches it |
| Evidence.HashForgetsOrder | src/query/executor.py:120-127 | graphs with the same entities and edges give every query the same deterministic_hash |
| Building.BuildEntities | src/query/executor.py:58-61 | a built graph holds exactly the entities added last under their ids |
| Building.BuildEdges | src/query/executor.py:63-66 | for every sequence of commands the edges are exactly the links whose endpoints were both there, in both directions |
| Building.SameGraphExactly | src/query/executor.py:53-66 | two sequences of commands build the same graph if and only if they leave the same entities and the same links took effect |
| Building.SameCommandsSameGraph | src/query/executor.py:53-66 | two orders of the same commands, each id added once, build the same graph if and only if the same links found their endpoints |
| Building.EndpointsFirstSuffices | src/query/executor.py:63-66 | with all endpoints added before their links, every order of the commands makes the same links take effect |
| Building.InsertionOrderIrrelevant | src/query/executor.py:120-127 | as soon as the same entities and links took effect, the partition and the hash of every query are the same |
| Building.EarlyLinkIsLost | src/query/executor.py:63-66 | a link before one of its endpoints is dropped: two orders of three commands that build different graphs |
| Evidence.RoundTripRecord | src/query/algebra.py:60-88 | Op.from_dict(op.to_dict()) yields the same evidence record, plan and reasons included, on every graph |
| Algebra.DictRoundTrip | src/query/algebra.py:60-88 | the round trip resets the depth of the operators that do not carry one, and nothing else |
| Algebra.DictRoundTripExact | src/query/algebra.py:60-88 | the round trip is the identity exactly when those depths are 1 |
| Algebra.NodeRoundTrip | src/query/algebra.py:60-88 | kind, argument, threshold and bounds of every node come back unchanged, and its operands in order |
| Reconciliation.HashPinsSets | src/query/executor.py:120-127 | two records have one hash exactly when both id sets agree, under a collision-free hash |
| Reconciliation.HashIsConsistencyAndDomain | src/query/executor.py:188-208 | equal hashes are exactly consistent reconciliation plus equal entity sets: reconcile_with does not look at exclusions |
| Reconciliation.ExcludedEntityUnnoticed | src/query/executor.py:188-208 | a graph with one excluded entity and the empty graph reconcile as consistent and hash differently |
| Reconciliation.VerifyAgainstPrior | src/query/executor.py:156-186 | verify against the id sets of an earlier run accepts exactly when verify against its hash does |
| Reconciliation.VerifyExactly | src/query/executor.py:156-186 | verify accepts exactly when the hash expected is the record's own and the id sets expected are those of its entries, as far as any are expected |
| Reconciliation.ConsistentExactly | src/query/executor.py:188-204 | two records are consistent exactly when they include the same ids |
| Scope.DisallowedKinds | src/query/scope.py:183-195 | the stack worklist returns exactly the kinds occurring anywhere in the tree outside the allowed set |
| Scope.EnforceConstraints | src/query/scope.py:198-218 | accepts exactly the listed kinds within the size limit |
| Scope.KindsExactly | src/query/scope.py:183-195 | a name is among the kinds of a query exactly when some node of the tree, at any depth, has that kind |
| Scope.AllowsExactly | src/query/scope.py:198-218 | allowed exactly when no capability is listed or the name of every node is, and the number of entities is within the limit, if any |
| Scope.NamesAsWritten | src/query/algebra.py:28-41 | the names of the thirteen operators as capabilities spell them |
| TrustLog.VerifyTrustLog | src/query/authority.py:225-294 | the loop accepts exactly the logs whose every entry is in place, chained and signed by the newest key before it |
| TrustLog.AcceptedExactly | src/query/authority.py:225-294 | accepted if and only if the declared fingerprint is the anchor's, entry 0 bootstraps and signs itself, and every later entry carries its number and the hash of the text before it and is signed, over that hash and its own text, by the key of the last earlier entry that is not a revoke |
| TrustLog.BootstrapReads | src/query/authority.py:173-189 | a bootstrapped log field by field |
| TrustLog.AppendReads | src/query/authority.py:192-222 | an appended entry field by field, with what its signature covers |
| TrustLog.RotateAndRevokeRead | src/query/authority.py:192-222 | a rotation enters the public half of the new key, a revoke that of the key that signs it, both signed by the key before |
| TrustLog.TrustedKeyExactly | src/query/authority.py:297-324 | an entry resolves to a key exactly when it is there, is no revoke, holds that key and has the fingerprint asked for |
| Crypto.SqueezeExactly | src/query/authority.py:61-70 | a fingerprint ignores blanks, tabs, line feeds and carriage returns, and nothing else |
| TrustLog.BootstrapAccepted | src/query/authority.py:180-189 | a bootstrapped log is accepted under its own key |
| TrustLog.AppendAccepted | src/query/authority.py:192-222 | appending with the key in force keeps a log accepted |
| TrustLog.ForeignAppendRefused | src/query/authority.py:275-292 | appending with another key is refused |
| TrustLog.AuthorityGoesBackToRoot | src/query/authority.py:247-256 | every entry of an accepted log has a line of signing keys down to entry 0, and it starts at the anchor exactly when the anchor signed entry 0 |
| TrustLog.RootExactly | src/query/authority.py:225-246 | the pinned anchor signed the root of an accepted log if and only if its text loads and entry 0 carries the anchor's key, up to white space |
| TrustLog.DeclaredAnchorIsNotTheRoot | src/query/authority.py:244-246 | the pin is compared with a declared fingerprint only: a log of any other key passes once it declares the anchor's, and the anchor signed nothing in it |
| TrustLog.RevokedKeyStillAuthorizes | src/query/authority.py:153-163 | a revoked key is no longer current but still signs the next entry in |
| TrustLog.CurrentAuthorizesExactly | src/query/authority.py:153-256 | every entry with which an accepted log stays accepted is signed by current_pem if and only if the log does not end in a revoke |
| TrustLog.RetiredKeyStillResolves | src/query/authority.py:297-324 | after a revoke the retired key's own entry still resolves to it |
| TrustLog.TrustedKeysHoldExactly | src/query/authority.py:297-324 | no entry resolves to a key that a revoke retired if and only if the log holds no revoke |
| TrustLog.TipDeterminesLog | src/query/authority.py:255-294 | two accepted logs with the same final canonical text agree on every signed field, lengths included |
| WitnessLog.VerifyWitnessLog | src/query/witness.py:241-290 | the single-key loop accepts exactly the chained logs signed by that key |
| WitnessLog.VerifyWitnessLogAnchored | src/query/witness.py:293-357 | the rotation-aware loop accepts exactly the chained logs whose entries verify under the trust-log key they name |
| WitnessLog.AcceptedByExactly | src/query/witness.py:241-290 | accepted under one key if and only if every entry carries its number and the hash of the text before it, and that key signed it over both |
| WitnessLog.AnchoredExactly | src/query/witness.py:293-357 | accepted under the trust log if and only if, besides, every entry names an entry of the trust log that is there, is no revoke and has the fingerprint named, and its key signed it |
| WitnessLog.AppendReads | src/query/witness.py:193-238 | a served entry field by field, with what its signature covers |
| WitnessLog.AppendAnchored | src/query/witness.py:193-238 | serving under the key an entry names keeps the log verifiable |
| WitnessLog.RotationKeepsAnchored | src/query/witness.py:293-357 | rotating keeps every earlier entry verifiable |
| WitnessLog.TipDeterminesServings | src/query/witness.py:271-290 | the final canonical text pins every serving ever recorded |
| ServiceSpec.AlwaysCrossVerified | src/query/service.py:155-188 | in every state reachable from create_app by queries, rotations and loads the trust log verifies under the first key and a non-empty witness log under the trust log, with key_seq nondecreasing |
| ServiceSpec.EntriesResolveToServingKeys | src/query/service.py:412-435 | every witness entry resolves to the key in force when it was served, through any later rotations |
| ServiceSpec.RotatedCrossVerified | src/query/service.py:368-401 | one rotation keeps both logs verifiable |
| ServiceSpec.ServedCrossVerified | src/query/service.py:412-435 | one attested query keeps both logs verifiable and names the key in force |
| ServiceSteps.InitialReads | src/query/service.py:155-188 | create_app field by field |
| ServiceSteps.AnsweredExactly | src/query/service.py:199-302 | a request is answered if and only if it is admitted, parses, names a loaded graph and, under an operation authority, its scope is bound to it as the route asks and covers every operator and the size of the answer; the answer is the record of the query on that graph |
| ServiceSteps.HandledExactly | src/query/service.py:412-478 | a request burns the nonce of an admitted scope even when it is refused, adds to the witness log exactly for an answer on an attested route, field by field and signed by the key in force, and changes nothing else |
| ServiceSteps.RotatedReads | src/query/service.py:368-401 | a rotation field by field: the old key signs the new one in under the next number |
| ServiceScope.AnsweredWithinScope | src/query/service.py:199-302 | an answered query of a provisioned service had a fresh, signed, current scope, used only listed kinds and stayed within max_results |
| ServiceScope.NoncesAdmittedOnce | src/query/service.py:199-227 | in every run each scope nonce is admitted at most once |
| ServiceScope.GraphNameNotEnforced | src/query/service.py:220-223 | the gate compares a scope's graph name with itself: a scope for one graph opens any loaded graph |
| ServiceScope.GraphNameHoldsExactly | src/query/service.py:220-302 | every answer under a scope for a graph is about that graph if and only if no other graph is loaded |
| ServiceScope.AttestedTextNotBound | src/query/service.py:465-478 | the attested text route checks no body binding, unlike the plain one |
| ServiceScope.AttestedTextPartsExactly | src/query/service.py:465-478 | the attested and the plain text route differ exactly for a gated, parsed request on a loaded graph within its scope's operators and size whose scope is bound to another text |
| Service.EvidenceService.constructor | src/query/service.py:155-188 | create_app starts in the initial state |
| Service.EvidenceService.LoadGraph | src/query/service.py:234-248 | loading replaces the named graph |
| Service.EvidenceService.RequireScope | src/query/service.py:199-227 | the gate admits exactly the fresh, signed, current scopes and burns the nonce |
| Service.EvidenceService.Run | src/query/service.py:250-302 | a query is answered exactly under the binding, capability and size checks |
| Service.EvidenceService.RotateEvidenceKey | src/query/service.py:368-401 | rotation rebinds key, log, sequence number and fingerprint together |
| Service.EvidenceService.AppendWitness | src/query/service.py:412-435 | the serving is appended under the key in force |
| Service.EvidenceService.Handle | src/query/service.py:437-478 | a request changes the state exactly as the step function says |
| Ledger.MadeEntryOk | src/mirror/__init__.py:82-98 | a made entry verifies under the tenant's key, names the head before it and carries the body |
| Ledger.MadeEntryIs | src/mirror/__init__.py:82-98 | a made entry field by field, and what its signature covers: everything but itself, the id and the number |
| Ledger.EntryIdReads | src/mirror/__init__.py:82-98 | an id is its number in at least ten digits |
| Ledger.HeadIsChain | src/mirror/__init__.py:55-79 | the head starts at 32 zero bytes and every record hashes the head before it and its own signed fields into the next |
| Ledger.AcceptedExactly | src/service/tenant.py:162-180 | a ledger is accepted if and only if every record is signed by the tenant over its fields and names the head before it |
| Ledger.LastRecordPins | src/mirror/__init__.py:55-79 | of two accepted ledgers of one length, equal last records mean equal signed fields throughout, unless two texts they hash collide |
| Ledger.AppendedCarry | src/service/tenant.py:130-139 | appending bodies adds one record for each, in order, each with all fields of its body |
| Ledger.AppendAccepted | src/service/tenant.py:130-139 | append_ledger extends an accepted ledger to an accepted one |
| Ledger.Tenant.constructor | src/service/tenant.py:46-64 | a new tenant has an empty, accepted ledger and is not live |
| Ledger.Tenant.AppendLedger | src/service/tenant.py:130-139 | the entry, the new head and the invariant that the ledger verifies |
| Ledger.Tenant.VerifyLocally | src/service/tenant.py:162-180 | accepts exactly the signed, linked ledgers |
| Ledger.AuditMirror.constructor | src/mirror/__init__.py:35-50 | a mirror starts empty |
| Ledger.AuditMirror.Ingest | src/mirror/__init__.py:51-53 | a record is appended |
| Ledger.AuditMirror.VerifyChain | src/mirror/__init__.py:55-79 | accepts exactly what verify_locally accepts, and raises exactly when some signature text is not hex and every record before it is in order |
| Ledger.AuditMirror.SpoiltSignatureRaises | src/mirror/__init__.py:55-79 | replacing one signature of any accepted ledger by a text that is not hex makes the mirror raise there |
| Ledger.HeadDeterminesTail | src/mirror/__init__.py:55-79 | of two ledgers with one head the shorter is the tail of the longer, signed field by signed field, unless two texts they hash collide |
| Ledger.HeadDeterminesLedger | src/mirror/__init__.py:55-79 | two ledgers with one head agree on every signed field of every record, or the longer has come back to its genesis head, unless two texts they hash collide |
| Pipeline.AuthorizationPipeline.Run | src/service/pipeline.py:118-444 | a run leaves result, events, registry, nonces, rate guard and ledger exactly as the decision table says for the gates that stood open before, at every one of its fourteen exits |
| Pipeline.AuthorizationPipeline.Emit | src/service/pipeline.py:102-116 | an event is linked to the last event's own hash |
| Pipeline.AuthorizationPipeline.SignLive | src/service/pipeline.py:369-385 | the live signature is recorded as event, registry status and ledger entry |
| Pipeline.AuthorizationPipeline.SubmissionIsAuthorized | src/service/pipeline.py:118-444 | a submission has a verdict no stronger than the spine's, an approval of this hash or a downgrade bound to it when HUMAN, a closed breaker, a new hash, the rate kept, and for chain_settle a value within the ceiling and 128 bits |
| Pipeline.AuthorizationPipeline.SubmissionExactly | src/service/pipeline.py:118-394 | a run reaches the venue if and only if the action is well-formed, the spine does not block, hygiene finds nothing or an accepted downgrade releases all it finds, risk agrees, a HUMAN verdict has a signed approval of this hash or that downgrade, hash and nonce are new and the expiry not past, the breaker is closed, the order or settlement is within bounds, and a live signature is within the rate and of a capability the signer knows |
| Pipeline.AuthorizationPipeline.EventsOfRun | src/service/pipeline.py:102-444 | the events of a run as a reader sees them: state, type and word of each, in order up to where the run ended, all of this tenant's action and hash, hashed, linked and stamped with the pipeline's time |
| RunRecords.RejectionTellsGate | src/service/pipeline.py:118-356 | two rejections say the same only if the same gate was closed |
| Pipeline.AuthorizationPipeline.LedgerOfRun | src/service/pipeline.py:376-444 | what a run adds to the ledger, field by field: nothing before the live signature, that signature once made, and after the venue's answer the operator's override, if violations were released, and last the run with its verdict, gates, venue state, reconciliation and signature |
| Pipeline.AuthorizationPipeline.StateOfRun | src/service/pipeline.py:170-394 | a downgrade once accepted uses up its nonce wherever the run ends, the rate guard is asked exactly when a live signature is due, and an admitted action is on record with the status of how far it came |
| Pipeline.AuthorizationPipeline.OffListNeedsTwo | src/hygiene/downgrade.py:42-172 | an action to a destination off the tenant's list gets past hygiene only with the signatures of two different active operator keys on one downgrade |
| Pipeline.AuthorizationPipeline.ReleaseIsSigned | src/service/pipeline.py:155-245 | an action with violations passes only under a downgrade that releases exactly its codes, with an unused nonce, signed under an active key and under two different ones for a destination code |
| Pipeline.AuthorizationPipeline.TraceOfRun | src/evidence/chain.py:139-163 | after any run the whole graph verifies exactly when nothing was emitted or the action's last event is the pipeline's head; a new action's trace is legal exactly when the tenant is live, a gate was closed or the venue did not answer, and a repeated one's exactly when nothing was emitted |
| Pipeline.AuthorizationPipeline.constructor | src/service/pipeline.py:78-100 | a pipeline starts with an empty causal head |
| PipelineSpec.SubmitsExactlyWhenAllOpen | src/service/pipeline.py:118-394 | a run reaches the venue if and only if every gate is open |
| PipelineSpec.FirstClosedGate | src/service/pipeline.py:118-394 | of the eleven gates in their order a run leaves by the exit of the first that is closed |
| PipelineSpec.ResultExactly | src/service/pipeline.py:118-444 | every field of the result, from the exit and the gates: verdict, state, violations left, and what it says of hygiene, risk, approval and replay |
| PipelineSpec.SettlementExactly | src/security/guards.py:75-117 | what the settlement gate lets through: for chain_settle an address, a nonce and a whole number of wei, floor of quantity times price or quantity, below 2^128 and within the ceiling; for trade_execute a positive quantity to buy or to sell; never evidence that binds an identity |
| PipelineSpec.AddressExactly | src/security/guards.py:36-86 | the address pattern admits every meant address and, of its extensions, the one by a line feed |
| PipelineSpec.PlainExactly | src/security/guards.py:36-86 | a text that the pattern admits is an address if and only if it has 42 characters |
| PipelineSpec.HexDigitsAre | src/security/guards.py:36 | which characters of an address are hex digits |
| PipelineSpec.NarrowingOnly | src/service/pipeline.py:118-444 | no exit reports more authority than the spine granted; AUTO survives only when nothing had to be released, and at the venue the verdict is AUTO exactly then |
| PipelineSpec.HygieneNeedsFullRelease | src/service/pipeline.py:170-245 | passing hygiene with violations takes a release of exactly the codes; a partial one stays BLOCKED and still burns the nonce |
| PipelineSpec.LegalExactly | src/evidence/chain.py:47-79 | the states of a run form legal transitions if and only if the tenant is live, a gate is closed or the venue does not answer (otherwise APPROVED to SUBMITTED) |
| PipelineSpec.RecordedLegalExactly | src/evidence/chain.py:139-149 | the same for the recorded events |
| PipelineSpec.RunsVerify | src/evidence/chain.py:151-163 | after any sequence of runs with fresh pipelines and action ids the whole graph passes verify_chain_integrity |
| PipelineSpec.PassedOnce | src/service/pipeline.py:298-310 | the registrations that pass the replay gate, over any runs on one registry, have distinct hashes and nonces |
| PipelineSpec.SubmittedOnce | src/service/pipeline.py:298-394 | the registrations of a tenant that reach the venue have pairwise distinct hashes and nonces |
| PipelineSpec.PassedOnceDurably | src/service/app.py:412-414 | the same for the registrations that pass the gate over the durable registry |
| PipelineSpec.SubmittedOnceDurably | src/service/app.py:412-414 | the same for the submissions over the durable registry |
| PipelineSpec.ActionsSubmittedOnce | src/service/pipeline.py:298-394 | over any runs on one registry the submitted actions of a tenant have pairwise distinct hashes and pairwise distinct action nonces, and none was past its expiry |
| PipelineSpec.ActionsSubmittedOnceDurably | src/service/app.py:410-414 | the same over the durable registry |
| PipelineSpec.RunOnRecord | src/service/pipeline.py:298-394 | a run that the registry admits leaves the action on record under its tenant, hash, id, nonce and time, with the status of how far it came |
| PipelineSpec.RunOnTable | src/security/replay.py:165-229 | the same in the one row of the durable registry |
| EvidenceChain.EvidenceGraph.constructor | src/evidence/chain.py:121-123 | a new graph is empty |
| EvidenceChain.EvidenceGraph.Add | src/evidence/chain.py:125-129 | add hashes the event and files it under its action |
| EvidenceChain.EvidenceGraph.ValidateTransitions | src/evidence/chain.py:139-149 | the pairs reported are exactly the successive states that the table does not allow, none exactly for a legal trace |
| EvidenceChain.SettledWasSigned | src/evidence/chain.py:47-79 | in a legal trace nothing is settled that was not authorized, then approved, then signed and then submitted |
| EvidenceChain.ReachedFrom | src/evidence/chain.py:47-79 | the table of legal transitions read by destination |
| EvidenceChain.EvidenceGraph.VerifyChainIntegrity | src/evidence/chain.py:151-163 | true exactly when every action's events are causally linked from the empty hash |
| EvidenceChain.IntegrityExactly | src/evidence/chain.py:151-163 | a linked chain of one action keeps the whole graph intact if and only if it is empty or starts where the action's earlier events end |
| EvidenceChain.RepeatedActionBreaksIntegrity | src/evidence/chain.py:151-163 | a second chain from the empty hash for the same action breaks it |
| EvidenceChain.FreshChunkKeepsIntegrity | src/evidence/chain.py:151-163 | a linked chain of a new action keeps the whole graph intact |
| EvidenceChain.RunsKeepIntegrity | src/evidence/chain.py:151-163 | any sequence of such chains does |
| Operator.ActiveIff | src/security/operator.py:330-333 | a PEM is active exactly when some entry of it is neither revoked nor expired |
| Operator.OperatorKeyRing.constructor | src/security/operator.py:262-263 | a new ring is empty |
| Operator.OperatorKeyRing.Add | src/security/operator.py:269-277 | a key is appended |
| Operator.OperatorKeyRing.Revoke | src/security/operator.py:285-304 | the first entry of the PEM or key id is switched off, and nothing else |
| Operator.OperatorKeyRing.Rotate | src/security/operator.py:306-328 | the new key is added and the old one lapses or is revoked |
| Operator.RevokeFinds | src/security/operator.py:285-304 | revoke switches off the first entry with the text as PEM, if it begins with five dashes or has a line feed, and else the first with it as key id; every other entry stays |
| Operator.RevokeTakesEffect | src/security/operator.py:285-304 | revoking takes a key out of force exactly when no later active entry repeats its PEM; other keys are untouched |
| Operator.RevokedDuplicateStaysActive | src/security/operator.py:285-304 | a key that was added twice is in force after its revocation |
| Operator.RotateKeepsBothForWindow | src/security/operator.py:306-328 | with a window the old key stays in force until the window has passed and not after, the new one at once |
| Operator.RotateExactly | src/security/operator.py:306-328 | after a rotation the new key is in force until its own expiry, the old one not at all, or until the window has passed if one is given and it had no expiry; no other key is touched |
| Operator.RotateOnlyAdds | src/security/operator.py:306-328 | with no old key to retire, the new one is added and nothing else changes |
| Operator.AcceptedDowngradeIsSigned | src/hygiene/downgrade.py:125-172 | an accepted downgrade is bound, fresh, within the violations and signed by an allowlisted key, or two different ones for a destination code |
| Operator.PrimaryExactly | src/hygiene/downgrade.py:99-112 | the first signature counts under the listed key or, for an empty entry, under the key that the record names, if it names one |
| Operator.SingleOperatorExact | src/hygiene/downgrade.py:125-172 | without a destination code that is also sufficient |
| Operator.TwoOperatorExact | src/hygiene/downgrade.py:125-172 | with a destination code accepted if and only if bound, fresh, within the violations and signed under two different listed keys, as long as no signature verifies under two listed texts |
| Operator.DestinationNeedsSecond | src/hygiene/downgrade.py:83-172 | a destination code without a second signature, or with one allowlisted key, is never accepted |
| Operator.EmptyEntryTrustsTheRecord | src/hygiene/downgrade.py:102-104 | an allowlist with an empty entry accepts a record signed by whatever key the record names |
| Operator.AllowlistHoldsExactly | src/hygiene/downgrade.py:83-172 | every accepted record is signed under a listed key if and only if no entry of the list is empty |
| Hygiene.MedianRobust | src/hygiene/__init__.py:124-130 | a strict majority inside an interval puts the median inside, for odd and even counts |
| Hygiene.MedianIsMiddle | src/hygiene/__init__.py:124-130 | the median is the middle of the values in order, or the mean of the two middle ones |
| Hygiene.RecordedExactly | src/hygiene/__init__.py:160-178 | the quote recorded for an origin is the one of the last source of that name that quotes the instrument, and for "feed" otherwise the median of the anonymous feed |
| Hygiene.CodesExactly | src/hygiene/__init__.py:132-249 | which violation codes an action has, each exactly when its own condition on the layer, the action and the allowlist holds |
| Hygiene.CodesInOrder | src/hygiene/__init__.py:145-249 | every check gives one code at most, and the codes stand in the order of the checks |
| Hygiene.PassThrough | src/hygiene/__init__.py:132-157 | a disabled layer finds nothing and passes the verdict through |
| Hygiene.Evaluate | src/hygiene/__init__.py:132-249 | the checks, in order, give exactly the violation codes; a disabled layer passes the verdict through |
| Hygiene.AcceptedPriceIsCorroborated | src/hygiene/__init__.py:160-208 | acceptance needs quorum distinct origins however often one repeats, and puts the price within the band of a value in any interval in which a majority of the sources and feeds of the layer quotes |
| Hygiene.AcceptedDestinationIsListed | src/hygiene/__init__.py:210-224 | a named destination passes only from the allowlist |
| Replay.ActionRegistry.constructor | src/security/replay.py:52-56 | a new registry is empty |
| Replay.ActionRegistry.Register | src/security/replay.py:62-95 | accepts or refuses as the specification says, with the status of an expired action updated |
| Replay.ActionRegistry.RecordStatus | src/security/replay.py:103-107 | only the named record changes status |
| Replay.ActionRegistry.Advance | src/security/replay.py:97-101 | advances a known hash, refuses an unknown one |
| Replay.DurableActionRegistry.constructor | src/security/replay.py:140-159 | a new table is empty |
| Replay.DurableActionRegistry.Register | src/security/replay.py:165-218 | the same over one table with two uniqueness constraints; an expired action takes its row |
| Replay.DurableActionRegistry.Advance | src/security/replay.py:220-229 | advances a known hash, refuses an unknown one |
| Replay.MemRegisterExactly | src/security/replay.py:62-95 | a registration is accepted exactly when it is well-formed, not expired, its hash is new to the tenant and its nonce is not taken by another hash, and what it leaves in both maps |
| Replay.DurRegisterExactly | src/security/replay.py:165-218 | the same for the table, where an expired one leaves its row |
| Replay.MemNoReplay | src/security/replay.py:62-101 | in every run the accepted registrations of a tenant have distinct hashes and nonces |
| Replay.DurNoReplay | src/security/replay.py:165-229 | the same for the durable registry |
| Replay.StepParts | src/security/replay.py:62-229 | in the same position the registries give every call the same verdict, and part exactly at a well-formed expired registration whose hash and nonce are free |
| Replay.AgreeExactly | src/security/replay.py:62-229 | over a run they stay in step if and only if there is no such call, and then accept the same registrations |
| Replay.BurnIsSeen | src/security/replay.py:172-184 | after such a call the same registration without its expiry is accepted by the one and refused by the other |
| Replay.AgreeWhenNothingExpires | src/security/replay.py:62-229 | in particular they agree call by call when nothing has expired |
| Replay.DurableRefinesMemory | src/security/replay.py:62-229 | whatever the durable registry accepts in a run, the in-memory one accepts when replayed from empty |
| Replay.ExpiryBurnsOnlyDurably | src/security/replay.py:172-184 | the converse fails: an expired action burns its nonce in the durable registry only |
| Replay.BurntNonceFreesTheHash | src/security/replay.py:172-184 | nor does the durable registry accept less: a run whose last call it alone accepts |
| Velocity.Clock.constructor | src/security/guards.py:144-148 | a manual clock starts at zero |
| Velocity.Clock.Advance | src/security/guards.py:158-163 | the clock never goes backwards |
| Velocity.CircuitBreaker.constructor | src/security/guards.py:182-185 | a new breaker is closed |
| Velocity.CircuitBreaker.Halt | src/security/guards.py:191-193 | halting opens the breaker |
| Velocity.CircuitBreaker.Resume | src/security/guards.py:195-197 | resuming closes it |
| Velocity.VelocityGuard.constructor | src/security/guards.py:205-212 | a new guard has no history |
| Velocity.VelocityGuard.Check | src/security/guards.py:214-223 | a check refuses, prunes and records as the specification says |
| Velocity.CheckExactly | src/security/guards.py:214-223 | a check succeeds exactly when min_interval has passed since the last success and fewer than max_per_window successes lie in the window |
| Velocity.CheckLeaves | src/security/guards.py:214-223 | a check that comes too early changes nothing, any other forgets the successes that are no longer recent, and only one that succeeds is remembered |
| Velocity.HistoryNotNeeded | src/security/guards.py:219-223 | pruning never changes a later decision |
| Velocity.SlidingWindow | src/security/guards.py:214-223 | with a nondecreasing clock every closed interval of window length holds at most max_per_window successes |
| Velocity.MinimumSpacing | src/security/guards.py:214-223 | successive successes are at least min_interval apart |

## Left out

- Ecdsa.RecoverInvertsSign: for R.x < N only, which is what the code supports; Recovery.RecoverExact shows that it misses otherwise.
- Signer.Secp256k1Signer.Sign: cut off after a number of passes, because the source repeats the same nonce for ever when r or s is zero; a random key is not drawn.
- Rlp.RoundTrip: integers come back as their byte strings, as in the source; negative integers, on which the encoder raises, are not modelled.
- RawTx.RawTxRoundTrip: the gas limit is an argument and the address is given as bytes; JSON-RPC submission, querying and the map of transaction hashes are not modelled.
- Executor.QueryExecutor.Eval: assumes that NOT and the graph operators have a child, on which the source raises IndexError otherwise; text is lower-cased for ASCII letters only.
- Service.EvidenceService.Handle: HTTP, authentication headers, artifact loading, compiling text to a query, attestations, the poison verdict and the reply to expectations are not modelled; a request that does not parse is an absent operator.
- Service.EvidenceService.LoadGraph: the graph object is given; two names may share one object, as in the source.
- Ledger.Tenant.AppendLedger: a record is a map of JSON values and its canonical text an injective function; the spine context, AUM and roles of a tenant are not modelled.
- Operator.OperatorKeyRing.Revoke: operator names, roles and the durable key store are not modelled; the key id of a PEM is a function parameter.
- Pipeline.AuthorizationPipeline.Run: the spine, the risk engine, the venue and the reconciliation are arbitrary answers; the identity scan is one flag of the advisory evidence; event payloads and refusal texts are reduced to short words; the registry is the in-memory one, and what a run leaves in the durable one is a function of PipelineSpec.
- Hygiene.Evaluate: prices and quantities are real numbers; provenance, check lists and texts of violations are not modelled.
- Replay.DurableActionRegistry.Register: a finite map with two uniqueness constraints instead of SQL; status_of, seen, reset and close are not modelled.
- Velocity.Clock.Advance: the manual clock; the monotonic and wall-clock modes are readings of the machine.
- Velocity.VelocityGuard.Check: times are integers read from the clock at the call; a refused check is a result instead of an exception.
- `verify_command` and the operator commands of src/security/operator.py: a chain of the same checks as downgrades and scopes, which would add only easy members.
- JSON dictionaries of evidence records, attestations and logs: field-by-field copies.
- Thread races inside the web server: every step is atomic here.
