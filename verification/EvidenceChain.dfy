/** The economic state machine and causal evidence chain of src/evidence/chain.py. */
module EvidenceChain {
  import opened Basics

  datatype ActionState =
    | PROPOSED | AUTHORIZED | EVALUATED | APPROVED | SIGNED | SUBMITTED | ACCEPTED
    | SETTLED | REJECTED | EXPIRED | CANCELLED | FAILED | REVERSED | DISPUTED

  /** _LEGAL */
  function Legal(src: ActionState): set<ActionState> {
    match src
    case PROPOSED => {AUTHORIZED, REJECTED, EXPIRED, CANCELLED}
    case AUTHORIZED => {EVALUATED, APPROVED, REJECTED, EXPIRED, CANCELLED}
    case EVALUATED => {APPROVED, REJECTED, CANCELLED, EVALUATED}
    case APPROVED => {SIGNED, REJECTED, CANCELLED}
    case SIGNED => {SUBMITTED, CANCELLED, FAILED}
    case SUBMITTED => {ACCEPTED, SETTLED, FAILED, CANCELLED}
    case ACCEPTED => {SETTLED, FAILED, REVERSED, DISPUTED}
    case SETTLED => {REVERSED, DISPUTED}
    case _ => {}
  }

  predicate LegalTransition(src: ActionState, dst: ActionState) {
    dst in Legal(src)
  }

  /** The hashed fields of an event; the payload is kept as its canonical text. */
  datatype EventBody = EventBody(actionId: string, tenantId: string, state: ActionState, eventType: string,
                                 actionHash: string, prevEventHash: string, payload: string, timestamp: int)

  datatype Event = Event(body: EventBody, eventHash: string)

  /** The hash of an event's canonical text. */
  type EventHash = EventBody -> string

  /** The events of one action, in insertion order. */
  function EventsOf(events: seq<Event>, actionId: string): seq<Event> {
    if events == [] then []
    else
      EventsOf(events[..|events| - 1], actionId)
      + if events[|events| - 1].body.actionId == actionId then [events[|events| - 1]] else []
  }

  /** The hash the next event of a chain must name. */
  function EndHash(chain: seq<Event>, head: string): string {
    if chain == [] then head else chain[|chain| - 1].eventHash
  }

  ghost predicate Chained(chain: seq<Event>, head: string) {
    forall i :: 0 <= i < |chain| ==> chain[i].body.prevEventHash == EndHash(chain[..i], head)
  }

  lemma ChainedSnoc(chain: seq<Event>, head: string, ev: Event)
    requires Chained(chain, head) && ev.body.prevEventHash == EndHash(chain, head)
    ensures Chained(chain + [ev], head)
  {
    assert forall i :: 0 <= i <= |chain| ==> (chain + [ev])[..i] == chain[..i];
  }

  /** Every action's events are causally linked, starting from the empty hash. */
  ghost predicate Integrity(events: seq<Event>) {
    forall a :: Chained(EventsOf(events, a), "")
  }

  ghost predicate LegalChain(chain: seq<Event>) {
    forall i :: 0 <= i < |chain| - 1 ==> LegalAt(chain, i)
  }

  predicate LegalAt(chain: seq<Event>, i: nat)
    requires i < |chain| - 1
  {
    LegalTransition(chain[i].body.state, chain[i + 1].body.state)
  }

  class EvidenceGraph {
    const hash: EventHash
    var events: seq<Event>
    var byAction: map<string, seq<Event>>

    ghost predicate Valid()
      reads this
    {
      forall a :: EventsOf(events, a) == if a in byAction then byAction[a] else []
    }

    constructor (hash: EventHash)
      ensures Valid() && events == [] && this.hash == hash
    {
      this.hash := hash;
      events, byAction := [], map[];
    }

    /** add: finalizes the hash and files the event under its action. */
    method Add(body: EventBody) returns (ev: Event)
      requires Valid()
      modifies this
      ensures Valid() && ev == Event(body, hash(body)) && events == old(events) + [ev]
    {
      ev := Event(body, hash(body));
      forall a ensures EventsOf(events + [ev], a) == EventsOf(events, a) + if a == body.actionId then [ev] else [] {
        EventsOfSnoc(events, ev, a);
      }
      events := events + [ev];
      byAction := byAction[body.actionId := (if body.actionId in byAction then byAction[body.actionId] else []) + [ev]];
    }

    /** trace */
    function Trace(actionId: string): seq<Event>
      reads this
    {
      if actionId in byAction then byAction[actionId] else []
    }

    /** validate_transitions: no violation is reported exactly for a legal trace. */
    method ValidateTransitions(actionId: string) returns (violations: seq<(ActionState, ActionState)>)
      requires Valid()
      ensures violations == [] <==> LegalChain(EventsOf(events, actionId))
      ensures forall p :: p in violations <==> IsViolation(EventsOf(events, actionId), p)
    {
      hide EventsOf, LegalTransition, LegalChain, IsViolation;
      violations := [];
      var chain := Trace(actionId);
      var prev: Option<ActionState>, i := None, 0;
      LegalStart(chain);
      assert forall p :: !IsViolation(chain[..0], p) by { NoViolationYet(chain); }
      while i < |chain|
        invariant 0 <= i <= |chain|
        invariant prev == if i == 0 then None else Some(chain[i - 1].body.state)
        invariant violations == [] <==> LegalChain(chain[..i])
        invariant forall p :: p in violations <==> IsViolation(chain[..i], p)
      {
        var s := chain[i].body.state;
        LegalSnoc(chain, i);
        ViolationSnoc(chain, i);
        if prev.Some? && !LegalTransition(prev.value, s) {
          violations := violations + [(prev.value, s)];
        }
        prev, i := Some(s), i + 1;
      }
      assert chain[..i] == chain;
    }

    /** verify_chain_integrity: groups the events by action and walks every chain. */
    method VerifyChainIntegrity() returns (ok: bool)
      ensures ok <==> Integrity(events)
    {
      hide Chained, EventsOf;
      var groups, keys := GroupByAction(events);
      var k := 0;
      while k < |keys|
        invariant 0 <= k <= |keys|
        invariant forall j :: 0 <= j < k ==> Chained(EventsOf(events, keys[j]), "")
      {
        assert keys[k] in groups && groups[keys[k]] == EventsOf(events, keys[k]);
        var linked := WalkChain(groups[keys[k]]);
        if !linked {
          return false;
        }
        k := k + 1;
      }
      forall a ensures Chained(EventsOf(events, a), "") {
        if a in groups {
          assert a in keys;
        } else {
          NothingChained();
        }
      }
      return true;
    }
  }

  /** Two successive states of the chain that the table does not allow. */
  ghost predicate IsViolation(chain: seq<Event>, p: (ActionState, ActionState)) {
    exists i :: 0 <= i < |chain| - 1 && StepsBy(chain, i, p) && !LegalTransition(p.0, p.1)
  }

  predicate StepsBy(chain: seq<Event>, i: nat, p: (ActionState, ActionState))
    requires i < |chain| - 1
  {
    p == (chain[i].body.state, chain[i + 1].body.state)
  }

  lemma NoViolationYet(chain: seq<Event>)
    ensures forall p :: !IsViolation(chain[..0], p)
  {}

  lemma ViolationSnoc(chain: seq<Event>, i: nat)
    requires i < |chain|
    ensures forall p :: (
      IsViolation(chain[..i + 1], p)
      <==> IsViolation(chain[..i], p)
           || (i > 0 && p == (chain[i - 1].body.state, chain[i].body.state) && !LegalTransition(p.0, p.1)))
  {
    hide LegalTransition;
    var now, before := chain[..i + 1], chain[..i];
    forall p
      ensures IsViolation(now, p)
         <==> IsViolation(before, p) || (i > 0 && p == (chain[i - 1].body.state, chain[i].body.state) && !LegalTransition(p.0, p.1))
    {
      if j :| 0 <= j < |now| - 1 && StepsBy(now, j, p) && !LegalTransition(p.0, p.1) {
        if j < i - 1 { assert StepsBy(before, j, p); }
      }
      if j :| 0 <= j < |before| - 1 && StepsBy(before, j, p) && !LegalTransition(p.0, p.1) {
        assert StepsBy(now, j, p);
      }
      if i > 0 && p == (chain[i - 1].body.state, chain[i].body.state) {
        assert StepsBy(now, i - 1, p);
      }
    }
  }

  lemma LegalStart(chain: seq<Event>)
    ensures LegalChain(chain[..0])
  {}

  lemma LegalSnoc(chain: seq<Event>, i: nat)
    requires i < |chain|
    ensures LegalChain(chain[..i + 1])
      <==> LegalChain(chain[..i]) && (i > 0 ==> LegalTransition(chain[i - 1].body.state, chain[i].body.state))
  {
    var now, before := chain[..i + 1], chain[..i];
    assert forall j :: 0 <= j < i - 1 ==> (LegalAt(now, j) <==> LegalAt(before, j));
    if i > 0 { assert LegalAt(now, i - 1) <==> LegalTransition(chain[i - 1].body.state, chain[i].body.state); }
    hide LegalAt;
    if LegalChain(now) {
      assert forall j :: 0 <= j < |before| - 1 ==> LegalAt(now, j);
      assert i > 0 ==> LegalAt(now, i - 1);
    }
  }

  lemma NothingChained()
    ensures Chained([], "")
  {}

  /** The by_action dictionary of verify_chain_integrity, with its key order. */
  method GroupByAction(events: seq<Event>) returns (groups: map<string, seq<Event>>, keys: seq<string>)
    ensures Grouped(events, groups) && forall a :: a in keys <==> a in groups
  {
    hide Grouped;
    groups, keys := map[], [];
    var i := 0;
    assert Grouped(events[..0], groups) by { NothingGrouped(); }
    while i < |events|
      invariant 0 <= i <= |events|
      invariant Grouped(events[..i], groups) && forall a :: a in keys <==> a in groups
    {
      var ev := events[i];
      assert events[..i + 1] == events[..i] + [ev];
      GroupSnoc(events[..i], groups, ev);
      var a := ev.body.actionId;
      if a !in groups {
        keys := keys + [a];
      }
      groups := groups[a := (if a in groups then groups[a] else []) + [ev]];
      i := i + 1;
    }
    assert events[..i] == events;
  }

  lemma NothingGrouped()
    ensures Grouped([], map[])
  {}

  /** One action's walk in verify_chain_integrity. */
  method WalkChain(chain: seq<Event>) returns (ok: bool)
    ensures ok <==> Chained(chain, "")
  {
    var prevHash, i := "", 0;
    while i < |chain|
      invariant 0 <= i <= |chain| && prevHash == EndHash(chain[..i], "")
      invariant forall j :: 0 <= j < i ==> chain[j].body.prevEventHash == EndHash(chain[..j], "")
    {
      if chain[i].body.prevEventHash != prevHash {
        return false;
      }
      prevHash := chain[i].eventHash;
      i := i + 1;
    }
    return true;
  }

  /** groups files every event under its action, in order. */
  ghost predicate Grouped(events: seq<Event>, groups: map<string, seq<Event>>) {
    forall a :: EventsOf(events, a) == if a in groups then groups[a] else []
  }

  lemma GroupSnoc(events: seq<Event>, groups: map<string, seq<Event>>, ev: Event)
    requires Grouped(events, groups)
    ensures var a := ev.body.actionId;
      Grouped(events + [ev], groups[a := (if a in groups then groups[a] else []) + [ev]])
  {
    forall b ensures EventsOf(events + [ev], b) == EventsOf(events, b) + if b == ev.body.actionId then [ev] else [] {
      EventsOfSnoc(events, ev, b);
    }
  }

  lemma EventsOfSnoc(events: seq<Event>, ev: Event, a: string)
    ensures EventsOf(events + [ev], a) == EventsOf(events, a) + if a == ev.body.actionId then [ev] else []
  {
    assert (events + [ev])[..|events|] == events;
  }

  // ----- runs of fresh actions -----

  ghost predicate AllOf(chunk: seq<Event>, actionId: string) {
    forall i :: 0 <= i < |chunk| ==> chunk[i].body.actionId == actionId
  }

  lemma {:induction false} EventsOfChunk(events: seq<Event>, chunk: seq<Event>, id: string, a: string)
    requires AllOf(chunk, id)
    ensures EventsOf(events + chunk, a) == if a == id then EventsOf(events, a) + chunk else EventsOf(events, a)
  {
    if chunk == [] {
      assert events + chunk == events;
    } else {
      var n := |chunk| - 1;
      EventsOfChunk(events, chunk[..n], id, a);
      assert events + chunk == (events + chunk[..n]) + [chunk[n]];
      EventsOfSnoc(events + chunk[..n], chunk[n], a);
      assert chunk == chunk[..n] + [chunk[n]];
    }
  }

  /** Two linked pieces make one chain exactly when the second starts where the first ends. */
  lemma ChainedAppend(first: seq<Event>, second: seq<Event>, head: string)
    requires Chained(first, "") && Chained(second, head)
    ensures Chained(first + second, "") <==> second == [] || EndHash(first, "") == head
  {
    var whole, n := first + second, |first|;
    forall i | 0 <= i < |whole|
      ensures whole[i].body.prevEventHash == EndHash(whole[..i], "")
        <==> i != n || EndHash(first, "") == head
    {
      if i < n {
        assert whole[..i] == first[..i];
      } else {
        assert whole[..i] == first + second[..i - n] && second[i - n] == whole[i];
        assert second[i - n].body.prevEventHash == EndHash(second[..i - n], head);
      }
    }
    if second != [] { assert whole[n] == second[0]; } else { assert whole == first; }
  }

  /** A linked chain of one action, starting from any head, keeps the whole graph intact exactly
      when it is empty or starts where the action's earlier events end. */
  lemma IntegrityExactly(events: seq<Event>, chunk: seq<Event>, id: string, head: string)
    requires Integrity(events) && AllOf(chunk, id) && Chained(chunk, head)
    ensures Integrity(events + chunk) <==> chunk == [] || EndHash(EventsOf(events, id), "") == head
  {
    hide Chained, EndHash, AllOf, EventsOf;
    assert Chained(EventsOf(events, id), "");
    EventsOfChunk(events, chunk, id, id);
    ChainedAppend(EventsOf(events, id), chunk, head);
    if chunk == [] || EndHash(EventsOf(events, id), "") == head {
      forall a ensures Chained(EventsOf(events + chunk, a), "") {
        EventsOfChunk(events, chunk, id, a);
      }
    }
  }

  lemma StartsEmpty()
    ensures EndHash([], "") == ""
  {}

  /** In particular a chain of a new action, starting from the empty hash. */
  lemma FreshChunkKeepsIntegrity(events: seq<Event>, chunk: seq<Event>, id: string)
    requires Integrity(events) && AllOf(chunk, id) && Chained(chunk, "") && EventsOf(events, id) == []
    ensures Integrity(events + chunk)
  {
    hide Integrity, Chained, EndHash, AllOf, EventsOf;
    StartsEmpty();
    IntegrityExactly(events, chunk, id, "");
  }

  /** A fresh pipeline for an action that already has events breaks the whole graph. */
  lemma RepeatedActionBreaksIntegrity(events: seq<Event>, chunk: seq<Event>, id: string)
    requires Integrity(events) && AllOf(chunk, id) && Chained(chunk, "") && chunk != []
    requires EventsOf(events, id) != [] && EndHash(EventsOf(events, id), "") != ""
    ensures !Integrity(events + chunk)
  {
    hide Integrity, Chained, EndHash, AllOf, EventsOf;
    IntegrityExactly(events, chunk, id, "");
  }

  /** Nothing leads back to PROPOSED. */
  lemma NoWayBack(src: ActionState)
    ensures !LegalTransition(src, PROPOSED)
  {}

  /** The table read the other way: where each state can be reached from. */
  lemma ReachedFrom(src: ActionState, dst: ActionState)
    ensures LegalTransition(src, dst)
       <==> match dst
            case PROPOSED => false
            case AUTHORIZED => src == PROPOSED
            case EVALUATED => src == AUTHORIZED || src == EVALUATED
            case APPROVED => src == AUTHORIZED || src == EVALUATED
            case SIGNED => src == APPROVED
            case SUBMITTED => src == SIGNED
            case ACCEPTED => src == SUBMITTED
            case SETTLED => src == SUBMITTED || src == ACCEPTED
            case REJECTED => src == PROPOSED || src == AUTHORIZED || src == EVALUATED || src == APPROVED
            case EXPIRED => src == PROPOSED || src == AUTHORIZED
            case CANCELLED =>
              src == PROPOSED || src == AUTHORIZED || src == EVALUATED || src == APPROVED || src == SIGNED || src == SUBMITTED
            case FAILED => src == SIGNED || src == SUBMITTED || src == ACCEPTED
            case REVERSED => src == ACCEPTED || src == SETTLED
            case DISPUTED => src == ACCEPTED || src == SETTLED
  {}

  lemma StepBefore(chain: seq<Event>, i: nat)
    requires LegalChain(chain) && 0 < i < |chain|
    ensures LegalTransition(chain[i - 1].body.state, chain[i].body.state)
  {
    assert LegalAt(chain, i - 1);
  }

  lemma {:induction false} AuthorizedBefore(chain: seq<Event>, i: nat) returns (j: nat)
    requires LegalChain(chain) && i < |chain| && chain[0].body.state == PROPOSED
    requires chain[i].body.state == EVALUATED || chain[i].body.state == APPROVED
    ensures j < i && chain[j].body.state == AUTHORIZED
  {
    hide LegalChain, LegalTransition;
    StepBefore(chain, i);
    ReachedFrom(chain[i - 1].body.state, chain[i].body.state);
    if chain[i - 1].body.state == AUTHORIZED { j := i - 1; } else { j := AuthorizedBefore(chain, i - 1); }
  }

  /** In a legal trace nothing settles that was not authorized, then approved, then signed and
      then submitted. */
  lemma SettledWasSigned(chain: seq<Event>, i: nat) returns (authorized: nat, approved: nat, signed: nat, submitted: nat)
    requires LegalChain(chain) && i < |chain| && chain[0].body.state == PROPOSED && chain[i].body.state == SETTLED
    ensures authorized < approved < signed < submitted < i
    ensures chain[authorized].body.state == AUTHORIZED && chain[approved].body.state == APPROVED
    ensures chain[signed].body.state == SIGNED && chain[submitted].body.state == SUBMITTED
  {
    hide LegalChain, LegalTransition;
    StepBefore(chain, i);
    ReachedFrom(chain[i - 1].body.state, SETTLED);
    submitted := i - 1;
    if chain[i - 1].body.state == ACCEPTED {
      StepBefore(chain, i - 1);
      ReachedFrom(chain[i - 2].body.state, ACCEPTED);
      submitted := i - 2;
    }
    StepBefore(chain, submitted);
    ReachedFrom(chain[submitted - 1].body.state, SUBMITTED);
    signed := submitted - 1;
    StepBefore(chain, signed);
    ReachedFrom(chain[signed - 1].body.state, SIGNED);
    approved := signed - 1;
    authorized := AuthorizedBefore(chain, approved);
  }

  /** A second beginning makes a trace illegal. */
  lemma RestartIsIllegal(first: seq<Event>, second: seq<Event>)
    requires first != [] && second != [] && second[0].body.state == PROPOSED
    ensures !LegalChain(first + second)
  {
    hide LegalTransition;
    var whole, i := first + second, |first| - 1;
    NoWayBack(whole[i].body.state);
    assert whole[i + 1] == second[0];
    assert !LegalAt(whole, i);
  }

  /** What one run of a fresh pipeline contributes: linked events of one action. */
  datatype RunEvents = RunEvents(actionId: string, events: seq<Event>)

  function AllEvents(runs: seq<RunEvents>): seq<Event> {
    if runs == [] then [] else AllEvents(runs[..|runs| - 1]) + runs[|runs| - 1].events
  }

  ghost predicate FreshRuns(runs: seq<RunEvents>) {
    && (forall i :: 0 <= i < |runs| ==> AllOf(runs[i].events, runs[i].actionId) && Chained(runs[i].events, ""))
    && (forall i, j :: 0 <= i < j < |runs| ==> runs[i].actionId != runs[j].actionId)
  }

  lemma FreshPrefix(runs: seq<RunEvents>)
    requires runs != [] && FreshRuns(runs)
    ensures var n := |runs| - 1;
      && FreshRuns(runs[..n]) && AllOf(runs[n].events, runs[n].actionId) && Chained(runs[n].events, "")
      && forall i :: 0 <= i < n ==> runs[..n][i].actionId != runs[n].actionId
  {
    hide AllOf, Chained;
  }

  /** An action without a run has no events. */
  lemma {:induction false} NoRunNoEvents(runs: seq<RunEvents>, a: string)
    requires forall i :: 0 <= i < |runs| ==> AllOf(runs[i].events, runs[i].actionId) && runs[i].actionId != a
    ensures EventsOf(AllEvents(runs), a) == []
  {
    if runs != [] {
      var n := |runs| - 1;
      NoRunNoEvents(runs[..n], a);
      EventsOfChunk(AllEvents(runs[..n]), runs[n].events, runs[n].actionId, a);
      hide AllOf, EventsOf;
    }
  }

  lemma NothingIntegral()
    ensures Integrity([])
  {}

  /** After any sequence of runs, each with a fresh pipeline and a fresh action id, the chain
      integrity of the whole graph holds. */
  lemma {:induction false} RunsKeepIntegrity(runs: seq<RunEvents>)
    requires FreshRuns(runs)
    ensures Integrity(AllEvents(runs))
  {
    hide Integrity, EventsOf, Chained, AllOf;
    if runs == [] {
      NothingIntegral();
    } else {
      var n := |runs| - 1;
      assert forall i :: 0 <= i < n ==> AllOf(runs[..n][i].events, runs[..n][i].actionId);
      FreshPrefix(runs);
      hide FreshRuns;
      NoRunNoEvents(runs[..n], runs[n].actionId);
      RunsKeepIntegrity(runs[..n]);
      FreshChunkKeepsIntegrity(AllEvents(runs[..n]), runs[n].events, runs[n].actionId);
    }
  }
}
