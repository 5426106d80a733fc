/** What the record of a tower still holds, over whole runs of revocations and retries. */
module PluginRuns {
  import opened Basics
  import opened Plugin

  ghost predicate Proves(info: TowerInfo, a: Signed) {
    info.proof.Some? && info.proof.value.appointment == a
  }

  /** The record alone accounts for `a`: pending, invalid, accepted under its locator, or in the proof. */
  ghost predicate Held(info: TowerInfo, a: Signed) {
    a in info.pending || a in info.invalid || a.locator in info.appointments || Proves(info, a)
  }

  /** The proof is the only trace of `a`. */
  ghost predicate OnlyProved(info: TowerInfo, a: Signed) {
    Proves(info, a) && a !in info.pending && a !in info.invalid && a.locator !in info.appointments
  }

  // ---------- One step ----------

  /** The tower is asked about this revocation: it is not known to misbehave. */
  predicate Takes(k: Kept, op: Op) {
    op.Revoke? && k.status != MISBEHAVING
  }

  /** The appointment the tower signs wrong in this step, if any. */
  function SignedWrong(k: Kept, op: Op): Option<Signed>
    requires Fits(k, op)
  {
    match op
    case Revoke(a, outcome) => if k.status == REACHABLE && outcome.SignsWrong? then Some(a) else None
    case Retry(outcomes) =>
      var n := Consumed(outcomes);
      if n > 0 && outcomes[n - 1].SignsWrong? then Some(k.info.pending[n - 1]) else None
    case _ => None
  }

  /** The step has the tower accept some appointment with this locator. */
  ghost predicate AcceptsLocator(k: Kept, op: Op, l: Locator)
    requires Fits(k, op)
  {
    match op
    case Revoke(a, outcome) => k.status == REACHABLE && outcome.Accepts? && a.locator == l
    case Retry(outcomes) =>
      exists i :: 0 <= i < Consumed(outcomes) && outcomes[i].Accepts? && k.info.pending[i].locator == l
    case _ => false
  }

  /** The proof about `x`, its only trace, gives way to one about another appointment. */
  ghost predicate Overwrites(k: Kept, op: Op, x: Signed)
    requires Fits(k, op)
  {
    && OnlyProved(k.info, x)
    && SignedWrong(k, op).Some? && SignedWrong(k, op).value != x
    && !AcceptsLocator(k, op, x.locator)
  }

  /** The tower answers a new appointment unexpectedly, and the record knows nothing of it. */
  ghost predicate Forgets(k: Kept, op: Op) {
    Takes(k, op) && RaisesAt(k.status, op.outcome) && !Held(k.info, op.appointment)
  }

  lemma {:induction false} ReceiptsKeys(m: map<Locator, string>, done: seq<Signed>, outcomes: seq<Outcome>, l: Locator)
    requires |done| == |outcomes|
    ensures l in Receipts(m, done, outcomes) <==>
            l in m || exists i :: 0 <= i < |done| && outcomes[i].Accepts? && done[i].locator == l
    decreases |outcomes|
  {
    if outcomes != [] {
      var m' := if outcomes[0].Accepts? then m[done[0].locator := outcomes[0].signature] else m;
      ReceiptsKeys(m', done[1..], outcomes[1..], l);
      assert forall i :: 0 <= i < |done| - 1 ==> done[1..][i] == done[i + 1] && outcomes[1..][i] == outcomes[i + 1];
      if i :| 0 <= i < |done| && outcomes[i].Accepts? && done[i].locator == l {
        if i > 0 {
          assert outcomes[1..][i - 1].Accepts? && done[1..][i - 1].locator == l;
        }
      }
    }
  }

  lemma {:induction false} RejectedAreDone(done: seq<Signed>, outcomes: seq<Outcome>, x: Signed)
    requires |done| == |outcomes| && x in Rejected(done, outcomes)
    ensures x in done
  {
    if outcomes != [] && x in Rejected(done[1..], outcomes[1..]) {
      RejectedAreDone(done[1..], outcomes[1..], x);
    }
  }

  lemma PassLists(k: Kept, outcomes: seq<Outcome>, x: Signed)
    requires Fits(k, Retry(outcomes))
    ensures var after := PassResult(k.info, outcomes);
            && (x in k.info.invalid ==> x in after.invalid)
            && (x in after.pending || x in after.invalid ==> x in k.info.pending || x in k.info.invalid)
  {
    hide SlotsAfter, Receipts;
    var n := Consumed(outcomes);
    var done, seen := k.info.pending[..n], outcomes[..n];
    if x in Rejected(done, seen) {
      RejectedAreDone(done, seen, x);
    }
    hide Rejected, Consumed, Consumes, Stopper;
  }

  lemma PassAccepts(k: Kept, outcomes: seq<Outcome>, l: Locator)
    requires Fits(k, Retry(outcomes))
    ensures l in PassResult(k.info, outcomes).appointments <==>
            l in k.info.appointments || AcceptsLocator(k, Retry(outcomes), l)
  {
    hide SlotsAfter, Rejected;
    var n := Consumed(outcomes);
    var done, seen := k.info.pending[..n], outcomes[..n];
    ReceiptsKeys(k.info.appointments, done, seen, l);
    assert forall i :: 0 <= i < n ==> done[i] == k.info.pending[i] && seen[i] == outcomes[i];
    if AcceptsLocator(k, Retry(outcomes), l) {
      var i :| 0 <= i < n && outcomes[i].Accepts? && k.info.pending[i].locator == l;
      assert seen[i].Accepts? && done[i].locator == l;
    }
    StopperIsNotConsumed(outcomes);
    hide Receipts, Consumed, Stopper, Consumes;
  }

  lemma PassProves(k: Kept, outcomes: seq<Outcome>, x: Signed)
    requires Fits(k, Retry(outcomes))
    ensures Proves(PassResult(k.info, outcomes), x) <==>
            if SignedWrong(k, Retry(outcomes)).Some? then SignedWrong(k, Retry(outcomes)).value == x
            else Proves(k.info, x)
  {
    hide SlotsAfter, Rejected, Receipts;
    StopperIsNotConsumed(outcomes);
    hide Consumes;
  }

  /** What was pending is held after a pass, wherever the pass stops. */
  lemma PendingStaysHeld(info: TowerInfo, outcomes: seq<Outcome>, x: Signed)
    requires |outcomes| == |info.pending| && x in info.pending
    ensures Held(PassResult(info, outcomes), x)
  {
    hide PassResult;
    PassLeavesSuffix(info, outcomes);
    var after := PassResult(info, outcomes);
    var n := |info.pending| - |after.pending|;
    var i :| 0 <= i < |info.pending| && info.pending[i] == x;
    if i < n {
      assert Settled(after, info.pending[i], outcomes[i]);
    } else {
      assert after.pending[i - n] == x;
    }
  }

  lemma RetryHoldsIff(k: Kept, outcomes: seq<Outcome>, x: Signed)
    requires Fits(k, Retry(outcomes)) && Held(k.info, x)
    ensures Held(PassResult(k.info, outcomes), x) <==> !Overwrites(k, Retry(outcomes), x)
  {
    hide PassResult, SignedWrong, AcceptsLocator;
    PassLists(k, outcomes, x);
    PassAccepts(k, outcomes, x.locator);
    PassProves(k, outcomes, x);
    if x in k.info.pending {
      PendingStaysHeld(k.info, outcomes, x);
    }
  }

  lemma RevokeHoldsIff(k: Kept, a: Signed, outcome: Outcome, x: Signed)
    requires Held(k.info, x)
    ensures Held(Next(k, Revoke(a, outcome)).info, x) <==> !Overwrites(k, Revoke(a, outcome), x)
  {
  }

  /** A step loses an appointment exactly when it overwrites the proof that was its only trace. */
  lemma StaysHeldIff(k: Kept, op: Op, x: Signed)
    requires Fits(k, op) && Held(k.info, x)
    ensures Held(Next(k, op).info, x) <==> !Overwrites(k, op, x)
  {
    match op
    case Revoke(a, outcome) => RevokeHoldsIff(k, a, outcome, x);
    case Retry(outcomes) => RetryHoldsIff(k, outcomes, x);
    case _ =>
  }

  /** A revocation is held afterwards exactly when the tower did not answer unexpectedly to something unknown. */
  lemma TakenIsHeldIff(k: Kept, op: Op)
    requires Takes(k, op)
    ensures Held(Next(k, op).info, op.appointment) <==> !Forgets(k, op)
  {
    var a, info := op.appointment, k.info;
    assert a in info.pending + [a] && a in info.invalid + [a];
  }

  // ---------- Runs ----------

  predicate AllFit(k: Kept, ops: seq<Op>)
    decreases |ops|
  {
    ops == [] || (Fits(k, ops[0]) && AllFit(Next(k, ops[0]), ops[1..]))
  }

  function Through(k: Kept, ops: seq<Op>): Kept
    requires AllFit(k, ops)
    decreases |ops|
  {
    if ops == [] then k else Through(Next(k, ops[0]), ops[1..])
  }

  function Taken(k: Kept, taken: set<Signed>, op: Op): set<Signed> {
    if Takes(k, op) then taken + {op.appointment} else taken
  }

  ghost predicate AllHeld(info: TowerInfo, taken: set<Signed>) {
    forall x <- taken :: Held(info, x)
  }

  /** At every moment of the run the record holds every appointment taken so far. */
  ghost predicate AlwaysHeld(k: Kept, taken: set<Signed>, ops: seq<Op>)
    requires AllFit(k, ops)
    decreases |ops|
  {
    AllHeld(k.info, taken) && (ops == [] || AlwaysHeld(Next(k, ops[0]), Taken(k, taken, ops[0]), ops[1..]))
  }

  /** A step that neither overwrites the only trace of a taken appointment nor forgets a new one. */
  ghost predicate Safe(k: Kept, taken: set<Signed>, op: Op)
    requires Fits(k, op)
  {
    !Forgets(k, op) && forall x <- taken :: !Overwrites(k, op, x)
  }

  ghost predicate AllSafe(k: Kept, taken: set<Signed>, ops: seq<Op>)
    requires AllFit(k, ops)
    decreases |ops|
  {
    ops == [] || (Safe(k, taken, ops[0]) && AllSafe(Next(k, ops[0]), Taken(k, taken, ops[0]), ops[1..]))
  }

  lemma StepHoldsIff(k: Kept, taken: set<Signed>, op: Op)
    requires Fits(k, op) && AllHeld(k.info, taken)
    ensures AllHeld(Next(k, op).info, Taken(k, taken, op)) <==> Safe(k, taken, op)
  {
    hide Held, Overwrites, Forgets, Next;
    forall x | x in taken ensures Held(Next(k, op).info, x) <==> !Overwrites(k, op, x) {
      StaysHeldIff(k, op, x);
    }
    ForgetsTakes(k, op);
    if Takes(k, op) {
      TakenIsHeldIff(k, op);
      if !Forgets(k, op) && op.appointment in taken {
        assert Held(Next(k, op).info, op.appointment);
      }
    }
  }

  lemma ForgetsTakes(k: Kept, op: Op)
    ensures Forgets(k, op) ==> Takes(k, op)
  {
  }

  /**
   Nothing taken is ever missing from the record exactly when no step overwrites the only trace of a taken appointment
   and none is answered unexpectedly without being known already.
   */
  lemma {:induction false} AlwaysHeldIff(k: Kept, taken: set<Signed>, ops: seq<Op>)
    requires AllFit(k, ops) && AllHeld(k.info, taken)
    ensures AlwaysHeld(k, taken, ops) <==> AllSafe(k, taken, ops)
    decreases |ops|
  {
    hide Next, Held, AllHeld, Safe, Taken;
    if ops != [] {
      var k', taken' := Next(k, ops[0]), Taken(k, taken, ops[0]);
      StepHoldsIff(k, taken, ops[0]);
      if Safe(k, taken, ops[0]) {
        AlwaysHeldIff(k', taken', ops[1..]);
      } else {
        assert !AllHeld(k'.info, taken');
      }
    }
  }

  /** How often the tower signs wrong in a run. */
  function WrongSignatures(k: Kept, ops: seq<Op>): nat
    requires AllFit(k, ops)
    decreases |ops|
  {
    if ops == [] then 0
    else (if SignedWrong(k, ops[0]).Some? then 1 else 0) + WrongSignatures(Next(k, ops[0]), ops[1..])
  }

  /** A proof comes only from a wrong signature. */
  lemma ProofIffSignedWrong(k: Kept, op: Op)
    requires Fits(k, op)
    ensures Next(k, op).info.proof.Some? <==> k.info.proof.Some? || SignedWrong(k, op).Some?
  {
    if op.Retry? {
      StopperIsNotConsumed(op.outcomes);
    }
  }

  /** With at most one wrong signature and no unexpected response, nothing taken is ever missing from the record. */
  lemma {:induction false} NothingIsLost(k: Kept, taken: set<Signed>, ops: seq<Op>)
    requires AllFit(k, ops) && AllHeld(k.info, taken)
    requires (if k.info.proof.Some? then 1 else 0) + WrongSignatures(k, ops) <= 1
    requires forall op <- ops :: op.Revoke? ==> op.outcome != Unexpected
    ensures AlwaysHeld(k, taken, ops)
    decreases |ops|
  {
    if ops != [] {
      assert Safe(k, taken, ops[0]);
      StepHoldsIff(k, taken, ops[0]);
      ProofIffSignedWrong(k, ops[0]);
      hide Next, Held, AllHeld, Safe, Taken, SignedWrong;
      NothingIsLost(Next(k, ops[0]), Taken(k, taken, ops[0]), ops[1..]);
    }
  }

  // ---------- How two proofs come about ----------

  /** A record without any appointment. */
  function NewTower(status: TowerStatus): Kept {
    Kept(TowerInfo("http://tower", 0, status, map[], [], [], None), status)
  }

  lemma AllFitCons(k: Kept, op: Op, rest: seq<Op>)
    requires Fits(k, op) && AllFit(Next(k, op), rest)
    ensures AllFit(k, [op] + rest) && Through(k, [op] + rest) == Through(Next(k, op), rest)
  {
    assert ([op] + rest)[1..] == rest;
  }

  lemma {:induction false} AllFitConcat(k: Kept, ops: seq<Op>, more: seq<Op>)
    requires AllFit(k, ops) && AllFit(Through(k, ops), more)
    ensures AllFit(k, ops + more) && Through(k, ops + more) == Through(Through(k, ops), more)
    decreases |ops|
  {
    if ops == [] {
      assert ops + more == more;
    } else {
      AllFitConcat(Next(k, ops[0]), ops[1..], more);
      assert (ops + more)[1..] == ops[1..] + more;
    }
  }

  /**
   A revocation while memory is ahead of the record brings the old status back, so a retry by hand is let through
   again.
   */
  lemma RevokeThenRetry(k: Kept, a: Signed, outcome: Outcome)
    requires k.info.status == UNREACHABLE && k.status in {UNREACHABLE, TEMPORARILY_UNREACHABLE}
    ensures var ops := [Revoke(a, outcome), RetryByHand];
            && AllFit(k, ops)
            && Through(k, ops) == Kept(k.info.(pending := k.info.pending + [a]), TEMPORARILY_UNREACHABLE)
  {
    var k1 := Next(k, Revoke(a, outcome));
    assert k1 == Kept(k.info.(pending := k.info.pending + [a]), UNREACHABLE);
    AllFitCons(k1, RetryByHand, []);
    AllFitCons(k, Revoke(a, outcome), [RetryByHand]);
    assert [Revoke(a, outcome)] + [RetryByHand] == [Revoke(a, outcome), RetryByHand];
    assert [RetryByHand] + [] == [RetryByHand];
  }

  lemma WrongRetry(k: Kept, signature: string, rest: seq<Outcome>)
    requires |rest| + 1 == |k.info.pending|
    ensures var wrong := [SignsWrong(signature)] + rest;
            && Fits(k, Retry(wrong))
            && Next(k, Retry(wrong)) ==
                 Kept(k.info.(status := MISBEHAVING, pending := k.info.pending[1..],
                              proof := Some(Proof(k.info.pending[0], signature))), MISBEHAVING)
  {
    var wrong := [SignsWrong(signature)] + rest;
    assert wrong[0] == SignsWrong(signature);
    assert Consumed(wrong) == 1 && Stopper(wrong) == Some(SignsWrong(signature));
    var done, seen := k.info.pending[..1], wrong[..1];
    assert done == [k.info.pending[0]] && seen == [SignsWrong(signature)] && done[1..] == [] && seen[1..] == [];
    assert Rejected(done, seen) == [] + Rejected(done[1..], seen[1..]) == [];
    assert k.info.invalid + [] == k.info.invalid;
    assert Receipts(k.info.appointments, done, seen) == Receipts(k.info.appointments, done[1..], seen[1..]);
    assert SlotsAfter(k.info.availableSlots, seen) == SlotsAfter(k.info.availableSlots, seen[1..]);
  }

  lemma TwoWrongRetries(k: Kept, a: Signed, b: Signed, signature: string)
    requires k.info.pending == [a, b]
    ensures var ops := [Retry([SignsWrong(signature), CannotConnect]), Retry([SignsWrong(signature)])];
            && AllFit(k, ops)
            && Through(k, ops).info == k.info.(status := MISBEHAVING, pending := [], proof := Some(Proof(b, signature)))
  {
    var first, second := Retry([SignsWrong(signature), CannotConnect]), Retry([SignsWrong(signature)]);
    assert [SignsWrong(signature)] + [] == [SignsWrong(signature)];
    assert [SignsWrong(signature)] + [CannotConnect] == [SignsWrong(signature), CannotConnect];
    WrongRetry(k, signature, [CannotConnect]);
    var k1 := Next(k, first);
    WrongRetry(k1, signature, []);
    hide Next;
    AllFitCons(k1, second, []);
    AllFitCons(k, first, [second]);
    assert [second] + [] == [second] && [first] + [second] == [first, second];
  }

  /**
   Two appointments pending at an unreachable tower, retried by hand twice: a revocation in between refreshes the status
   in memory, so both retries are let through. If the tower signs wrong in both, the first appointment is recorded
   nowhere.
   */
  lemma SecondProofLosesFirst(a: Signed, b: Signed, signature: string, outcome: Outcome)
    requires a != b
    ensures var ops := [Revoke(a, outcome), RetryByHand] + [Revoke(b, outcome), RetryByHand]
                       + [Retry([SignsWrong(signature), CannotConnect]), Retry([SignsWrong(signature)])];
            && AllFit(NewTower(UNREACHABLE), ops)
            && !Held(Through(NewTower(UNREACHABLE), ops).info, a)
  {
    hide AllFit, Through, Next;
    var k0 := NewTower(UNREACHABLE);
    var k1 := Kept(k0.info.(pending := [a]), TEMPORARILY_UNREACHABLE);
    RevokeThenRetry(k0, a, outcome);
    RevokeThenRetry(k1, b, outcome);
    assert [] + [a] == [a] && [a] + [b] == [a, b];
    AllFitConcat(k0, [Revoke(a, outcome), RetryByHand], [Revoke(b, outcome), RetryByHand]);
    var k2 := Kept(k0.info.(pending := [a, b]), TEMPORARILY_UNREACHABLE);
    TwoWrongRetries(k2, a, b, signature);
    AllFitConcat(k0, [Revoke(a, outcome), RetryByHand] + [Revoke(b, outcome), RetryByHand],
                 [Retry([SignsWrong(signature), CannotConnect]), Retry([SignsWrong(signature)])]);
  }

  // ---------- Memory and record ----------

  /** A tower that memory holds to be reachable is recorded as reachable. */
  predicate Agrees(k: Kept) {
    k.status == REACHABLE ==> k.info.status == REACHABLE
  }

  lemma {:induction false} ReachableAgrees(k: Kept, ops: seq<Op>)
    requires AllFit(k, ops) && Agrees(k)
    ensures Agrees(Through(k, ops))
    decreases |ops|
  {
    if ops != [] {
      AgreesNext(k, ops[0]);
      ReachableAgrees(Next(k, ops[0]), ops[1..]);
    }
  }

  lemma AgreesNext(k: Kept, op: Op)
    requires Fits(k, op) && Agrees(k)
    ensures Agrees(Next(k, op))
  {
    if op.Retry? {
      StopperIsNotConsumed(op.outcomes);
    }
  }

  // ---------- What a retry pass amounts to ----------

  lemma {:induction false} LastSlots(slots: int, outcomes: seq<Outcome>, k: nat)
    requires k < |outcomes| && outcomes[k].Accepts?
    requires forall m :: k < m < |outcomes| ==> !outcomes[m].Accepts?
    ensures SlotsAfter(slots, outcomes) == outcomes[k].availableSlots
    decreases |outcomes|
  {
    var slots' := if outcomes[0].Accepts? then outcomes[0].availableSlots else slots;
    if k == 0 {
      NoSlots(slots', outcomes[1..]);
    } else {
      LastSlots(slots', outcomes[1..], k - 1);
    }
  }

  lemma {:induction false} NoSlots(slots: int, outcomes: seq<Outcome>)
    requires forall m :: 0 <= m < |outcomes| ==> !outcomes[m].Accepts?
    ensures SlotsAfter(slots, outcomes) == slots
    decreases |outcomes|
  {
    if outcomes != [] {
      NoSlots(slots, outcomes[1..]);
    }
  }

  lemma {:induction false} LastReceipt(m: map<Locator, string>, done: seq<Signed>, outcomes: seq<Outcome>, k: nat)
    requires |done| == |outcomes| && k < |outcomes| && outcomes[k].Accepts?
    requires forall j :: k < j < |outcomes| ==> !(outcomes[j].Accepts? && done[j].locator == done[k].locator)
    ensures done[k].locator in Receipts(m, done, outcomes)
    ensures Receipts(m, done, outcomes)[done[k].locator] == outcomes[k].signature
    decreases |outcomes|
  {
    var m' := if outcomes[0].Accepts? then m[done[0].locator := outcomes[0].signature] else m;
    if k == 0 {
      KeepsReceipt(m', done[1..], outcomes[1..], done[0].locator);
    } else {
      LastReceipt(m', done[1..], outcomes[1..], k - 1);
    }
  }

  lemma {:induction false} KeepsReceipt(m: map<Locator, string>, done: seq<Signed>, outcomes: seq<Outcome>, l: Locator)
    requires |done| == |outcomes| && l in m
    requires forall j :: 0 <= j < |outcomes| ==> !(outcomes[j].Accepts? && done[j].locator == l)
    ensures l in Receipts(m, done, outcomes) && Receipts(m, done, outcomes)[l] == m[l]
    decreases |outcomes|
  {
    if outcomes != [] {
      var m' := if outcomes[0].Accepts? then m[done[0].locator := outcomes[0].signature] else m;
      KeepsReceipt(m', done[1..], outcomes[1..], l);
    }
  }

  /** The first `i` appointments were accepted or rejected, and the next one, if any, was not. */
  ghost predicate StopsBefore(outcomes: seq<Outcome>, i: nat) {
    && i <= |outcomes|
    && (forall k :: 0 <= k < i ==> outcomes[k].Accepts? || outcomes[k].RejectsAppointment?)
    && (i < |outcomes| ==> !outcomes[i].Accepts? && !outcomes[i].RejectsAppointment?)
  }

  /** A pass stops at the first appointment neither accepted nor rejected, and that outcome decides its result. */
  lemma PassMeaning(info: TowerInfo, outcomes: seq<Outcome>, i: nat)
    requires |outcomes| == |info.pending| && StopsBefore(outcomes, i)
    ensures var after, r := PassResult(info, outcomes), PassStatus(outcomes);
            var progress := if i > 0 then REACHABLE else info.status;
            if i == |outcomes| then
              r == Ok(None) && after.pending == [] && after.status == progress
            else
              match outcomes[i]
              case SignsWrong(signature) =>
                && r == Ok(Some(MISBEHAVING)) && after.status == MISBEHAVING && after.pending == info.pending[i + 1..]
                && after.proof == Some(Proof(info.pending[i], signature))
              case RejectsSubscription =>
                r == Ok(Some(SUBSCRIPTION_ERROR)) && after.status == SUBSCRIPTION_ERROR
                && after.pending == info.pending[i..]
              case Unexpected =>
                r == Raised(TypeError) && after.status == progress && after.pending == info.pending[i..]
              case _ =>
                r == Ok(Some(TEMPORARILY_UNREACHABLE)) && after.status == progress
                && after.pending == info.pending[i..]
  {
    hide Rejected, Receipts, SlotsAfter;
    StopsAt(outcomes, i);
    hide Consumed, Stopper;
  }

  /** The last acceptance of a pass decides the recorded slots, and the last one for a locator its receipt. */
  lemma PassRecords(info: TowerInfo, outcomes: seq<Outcome>, i: nat)
    requires |outcomes| == |info.pending| && StopsBefore(outcomes, i)
    ensures var after := PassResult(info, outcomes);
            && ((forall k :: 0 <= k < i ==> !outcomes[k].Accepts?) ==> after.availableSlots == info.availableSlots)
            && (forall k :: 0 <= k < i && outcomes[k].Accepts? && (forall m :: k < m < i ==> !outcomes[m].Accepts?) ==>
                  after.availableSlots == outcomes[k].availableSlots)
            && (forall k :: (0 <= k < i && outcomes[k].Accepts?
                             && (forall m :: k < m < i ==> !outcomes[m].Accepts?
                                                           || info.pending[m].locator != info.pending[k].locator)) ==>
                  info.pending[k].locator in after.appointments
                  && after.appointments[info.pending[k].locator] == outcomes[k].signature)
  {
    hide Rejected, Receipts, SlotsAfter;
    StopsAt(outcomes, i);
    var n := Consumed(outcomes);
    var done, seen := info.pending[..n], outcomes[..n];
    hide Consumed, Stopper;
    if forall k :: 0 <= k < i ==> !outcomes[k].Accepts? {
      NoSlots(info.availableSlots, seen);
    }
    forall k | 0 <= k < i && outcomes[k].Accepts? && (forall m :: k < m < i ==> !outcomes[m].Accepts?)
      ensures SlotsAfter(info.availableSlots, seen) == outcomes[k].availableSlots
    {
      LastSlots(info.availableSlots, seen, k);
    }
    forall k | 0 <= k < i && outcomes[k].Accepts?
               && forall m :: k < m < i ==>
                    !outcomes[m].Accepts? || info.pending[m].locator != info.pending[k].locator
      ensures info.pending[k].locator in Receipts(info.appointments, done, seen)
      ensures Receipts(info.appointments, done, seen)[info.pending[k].locator] == outcomes[k].signature
    {
      LastReceipt(info.appointments, done, seen, k);
    }
  }
}
