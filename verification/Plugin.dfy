/** The client side: what the plugin records about its appointments at every tower, and its retries. */
module Plugin {
  import opened Basics

  type TowerId = string

  datatype TowerStatus = REACHABLE | TEMPORARILY_UNREACHABLE | UNREACHABLE | SUBSCRIPTION_ERROR | MISBEHAVING

  /** An appointment with the signature of the user. */
  datatype Signed = Signed(locator: Locator, blob: Blob, signature: string)

  datatype Proof = Proof(appointment: Signed, towerSignature: string)

  datatype TowerInfo = TowerInfo(
    netaddr: string, availableSlots: int, status: TowerStatus, appointments: map<Locator, string>,
    pending: seq<Signed>, invalid: seq<Signed>, proof: Option<Proof>)
  {
    function Summary(): TowerSummary { TowerSummary(netaddr, status, availableSlots, pending, invalid) }
  }

  datatype TowerSummary = TowerSummary(
    netaddr: string, status: TowerStatus, availableSlots: int, pending: seq<Signed>, invalid: seq<Signed>)

  /** How sending one appointment ends; an unexpected response returns nothing and raises `TypeError` at the caller. */
  datatype Outcome =
    | Accepts(signature: string, availableSlots: int)
    | SignsWrong(signature: string)
    | CannotConnect
    | RejectsSubscription
    | RejectsAppointment
    | Unavailable
    | Unexpected

  datatype Action = Add(appointment: Signed) | Drop(appointment: Signed)

  datatype TowerUpdate = TowerUpdate(
    status: Option<TowerStatus>, accepted: Option<(Locator, string, int)>, pending: Option<Action>,
    invalid: Option<Signed>, proof: Option<Proof>)

  const NO_UPDATE := TowerUpdate(None, None, None, None, None)

  /** Removing a pending appointment that is not there raises. */
  function Applied(info: TowerInfo, update: TowerUpdate): Result<TowerInfo> {
    if update.pending.Some? && update.pending.value.Drop? && update.pending.value.appointment !in info.pending then
      Raised(ValueError)
    else
      Ok(info.(
        status := if update.status.Some? then update.status.value else info.status,
        appointments := if update.accepted.Some?
                        then info.appointments[update.accepted.value.0 := update.accepted.value.1]
                        else info.appointments,
        availableSlots := if update.accepted.Some? then update.accepted.value.2 else info.availableSlots,
        pending := match update.pending
                   case None => info.pending
                   case Some(Add(a)) => info.pending + [a]
                   case Some(Drop(a)) => RemoveFirst(info.pending, a),
        invalid := if update.invalid.Some? then info.invalid + [update.invalid.value] else info.invalid,
        proof := if update.proof.Some? then update.proof else info.proof))
  }

  // ---------- A revocation ----------

  /** What the hook does for one tower, and whether it queues a retry. */
  function RevocationUpdate(status: TowerStatus, outcome: Outcome, a: Signed): (TowerUpdate, bool) {
    if status != REACHABLE then (NO_UPDATE.(pending := Some(Add(a))), false)
    else
      match outcome
      case Accepts(signature, slots) => (NO_UPDATE.(accepted := Some((a.locator, signature, slots))), false)
      case SignsWrong(signature) => (NO_UPDATE.(status := Some(MISBEHAVING), proof := Some(Proof(a, signature))), false)
      case CannotConnect => (NO_UPDATE.(status := Some(TEMPORARILY_UNREACHABLE), pending := Some(Add(a))), true)
      case RejectsSubscription => (NO_UPDATE.(status := Some(SUBSCRIPTION_ERROR), pending := Some(Add(a))), false)
      case RejectsAppointment => (NO_UPDATE.(status := Some(REACHABLE), invalid := Some(a)), false)
      case Unavailable => (NO_UPDATE.(status := Some(TEMPORARILY_UNREACHABLE), pending := Some(Add(a))), true)
      case Unexpected => (NO_UPDATE, false)
  }

  /** The record of a tower after the hook has dealt with it. */
  function Revoked(info: TowerInfo, status: TowerStatus, outcome: Outcome, a: Signed): TowerInfo {
    if status == MISBEHAVING then info else Applied(info, RevocationUpdate(status, outcome, a).0).value
  }

  /** What one revocation does at a tower found reachable, by what the tower answers. */
  ghost predicate HookDoes(before: TowerInfo, after: TowerInfo, queued: bool, outcome: Outcome, a: Signed) {
    match outcome
    case Accepts(signature, slots) =>
      !queued && after == before.(
        appointments := before.appointments[a.locator := signature], availableSlots := slots)
    case SignsWrong(signature) =>
      !queued && after == before.(status := MISBEHAVING, proof := Some(Proof(a, signature)))
    case CannotConnect =>
      queued && after == before.(status := TEMPORARILY_UNREACHABLE, pending := before.pending + [a])
    case Unavailable =>
      queued && after == before.(status := TEMPORARILY_UNREACHABLE, pending := before.pending + [a])
    case RejectsSubscription =>
      !queued && after == before.(status := SUBSCRIPTION_ERROR, pending := before.pending + [a])
    case RejectsAppointment =>
      !queued && after == before.(status := REACHABLE, invalid := before.invalid + [a])
    case Unexpected => !queued && after == before
  }

  /**
   A tower found reachable is queued for a retry exactly when it ends up temporarily unreachable. What the hook leaves
   pending there is queued, or can be retried by hand at once. A tower that accepts or rejects only the appointment
   stays reachable, and only an acceptance changes the recorded slots, to those it answered.
   */
  lemma HookMeaning(before: TowerInfo, after: TowerInfo, queued: bool, outcome: Outcome, a: Signed)
    requires before.status == REACHABLE && HookDoes(before, after, queued, outcome, a)
    ensures queued <==> after.status == TEMPORARILY_UNREACHABLE
    ensures after.pending != before.pending <==> after.pending == before.pending + [a]
    ensures after.pending == before.pending + [a] ==>
              queued || (after.status in {UNREACHABLE, SUBSCRIPTION_ERROR} && after.pending != [])
    ensures outcome.Accepts? || outcome.RejectsAppointment? ==> after.status == REACHABLE
    ensures after.availableSlots == if outcome.Accepts? then outcome.availableSlots else before.availableSlots
  {
    assert |before.pending + [a]| == |before.pending| + 1;
  }

  predicate RaisesAt(status: TowerStatus, outcome: Outcome) {
    status == REACHABLE && outcome == Unexpected
  }

  /** The four ways to record an appointment; each leaves the other three places alone. */
  ghost predicate RecordedAsAccepted(before: TowerInfo, after: TowerInfo, a: Signed, receipt: Option<string>) {
    && receipt.Some?
    && after.appointments == before.appointments[a.locator := receipt.value]
    && after.pending == before.pending && after.invalid == before.invalid && after.proof == before.proof
    && after.status == before.status
  }

  ghost predicate RecordedAsPending(before: TowerInfo, after: TowerInfo, a: Signed) {
    && after.pending == before.pending + [a]
    && after.appointments == before.appointments && after.invalid == before.invalid && after.proof == before.proof
  }

  ghost predicate RecordedAsInvalid(before: TowerInfo, after: TowerInfo, a: Signed) {
    && after.invalid == before.invalid + [a]
    && after.appointments == before.appointments && after.pending == before.pending && after.proof == before.proof
  }

  ghost predicate RecordedAsProof(before: TowerInfo, after: TowerInfo, a: Signed, wrong: Option<string>) {
    && wrong.Some? && after.proof == Some(Proof(a, wrong.value)) && after.status == MISBEHAVING
    && after.appointments == before.appointments && after.pending == before.pending && after.invalid == before.invalid
  }

  /** In how many ways `a` is recorded, given the right or the wrong signature the tower sent, if any. */
  ghost function Ways(
    before: TowerInfo, after: TowerInfo, a: Signed, receipt: Option<string>, wrong: Option<string>): nat
  {
    (if RecordedAsAccepted(before, after, a, receipt) then 1 else 0)
    + (if RecordedAsPending(before, after, a) then 1 else 0)
    + (if RecordedAsInvalid(before, after, a) then 1 else 0)
    + (if RecordedAsProof(before, after, a, wrong) then 1 else 0)
  }

  /** The receipt of the tower, when it was asked and accepted. */
  function ReceiptOf(status: TowerStatus, outcome: Outcome): Option<string> {
    if status == REACHABLE && outcome.Accepts? then Some(outcome.signature) else None
  }

  function WrongOf(status: TowerStatus, outcome: Outcome): Option<string> {
    if status == REACHABLE && outcome.SignsWrong? then Some(outcome.signature) else None
  }

  /** The appointment is recorded in exactly one way, unless the tower is reachable and answers unexpectedly. */
  lemma RecordedOnceIff(info: TowerInfo, status: TowerStatus, outcome: Outcome, a: Signed)
    requires status != MISBEHAVING
    ensures var after := Applied(info, RevocationUpdate(status, outcome, a).0);
            && after.Ok?
            && (Ways(info, after.value, a, ReceiptOf(status, outcome), WrongOf(status, outcome)) == 1
                <==> !RaisesAt(status, outcome))
  {
    assert |info.pending + [a]| != |info.pending| && |info.invalid + [a]| != |info.invalid|;
  }

  // ---------- Retrying ----------

  function RetryUpdate(outcome: Outcome, a: Signed): TowerUpdate
    requires outcome != Unexpected
  {
    match outcome
    case Accepts(signature, slots) =>
      NO_UPDATE.(status := Some(REACHABLE), accepted := Some((a.locator, signature, slots)), pending := Some(Drop(a)))
    case SignsWrong(signature) =>
      NO_UPDATE.(status := Some(MISBEHAVING), proof := Some(Proof(a, signature)), pending := Some(Drop(a)))
    case CannotConnect => NO_UPDATE.(status := Some(TEMPORARILY_UNREACHABLE))
    case RejectsSubscription => NO_UPDATE.(status := Some(SUBSCRIPTION_ERROR))
    case RejectsAppointment => NO_UPDATE.(status := Some(REACHABLE), invalid := Some(a), pending := Some(Drop(a)))
    case Unavailable => NO_UPDATE.(status := Some(TEMPORARILY_UNREACHABLE))
  }

  /** The pass goes on to the next appointment. */
  predicate GoesOn(outcome: Outcome) {
    outcome.Accepts? || outcome.RejectsAppointment?
  }

  predicate AllGoOn(outcomes: seq<Outcome>, n: nat)
    requires n <= |outcomes|
  {
    forall k :: 0 <= k < n ==> GoesOn(outcomes[k])
  }

  /** The appointment leaves the pending list. */
  predicate Consumes(outcome: Outcome) {
    GoesOn(outcome) || outcome.SignsWrong?
  }

  /** How many appointments one pass consumes: all up to the first that does not let it go on. */
  function Consumed(outcomes: seq<Outcome>): (n: nat)
    ensures n <= |outcomes|
    ensures forall i :: 0 <= i < n ==> Consumes(outcomes[i])
    ensures forall i :: 0 <= i < n - 1 ==> GoesOn(outcomes[i])
    ensures n < |outcomes| ==> !Consumes(outcomes[n]) || (n > 0 && outcomes[n - 1].SignsWrong?)
  {
    if outcomes == [] || !Consumes(outcomes[0]) then 0
    else if !GoesOn(outcomes[0]) then 1
    else 1 + Consumed(outcomes[1..])
  }

  /** The last outcome a pass sees. */
  function Stopper(outcomes: seq<Outcome>): Option<Outcome> {
    if outcomes == [] then None
    else if GoesOn(outcomes[0]) then Stopper(outcomes[1..])
    else Some(outcomes[0])
  }

  /** The appointments with an outcome of one kind. */
  function Rejected(pending: seq<Signed>, outcomes: seq<Outcome>): seq<Signed>
    requires |pending| == |outcomes|
  {
    if outcomes == [] then []
    else (if outcomes[0].RejectsAppointment? then [pending[0]] else []) + Rejected(pending[1..], outcomes[1..])
  }

  function SlotsAfter(slots: int, outcomes: seq<Outcome>): int
    decreases |outcomes|
  {
    if outcomes == [] then slots
    else SlotsAfter(if outcomes[0].Accepts? then outcomes[0].availableSlots else slots, outcomes[1..])
  }

  function Receipts(
    appointments: map<Locator, string>, pending: seq<Signed>, outcomes: seq<Outcome>): map<Locator, string>
    requires |pending| == |outcomes|
    decreases |outcomes|
  {
    if outcomes == [] then appointments
    else
      Receipts(if outcomes[0].Accepts? then appointments[pending[0].locator := outcomes[0].signature] else appointments,
               pending[1..], outcomes[1..])
  }

  /** The record after a pass that consumed `done` with `outcomes`, without its final status. */
  function AfterPass(info: TowerInfo, done: seq<Signed>, outcomes: seq<Outcome>): TowerInfo
    requires |done| == |outcomes| && |done| <= |info.pending|
  {
    info.(
      pending := info.pending[|done|..],
      invalid := info.invalid + Rejected(done, outcomes),
      appointments := Receipts(info.appointments, done, outcomes),
      availableSlots := SlotsAfter(info.availableSlots, outcomes),
      status := if |done| == 0 then info.status
                else if outcomes[|done| - 1].SignsWrong? then MISBEHAVING else REACHABLE,
      proof := if |done| > 0 && outcomes[|done| - 1].SignsWrong?
               then Some(Proof(done[|done| - 1], outcomes[|done| - 1].signature)) else info.proof)
  }

  lemma PassStarts(info: TowerInfo)
    ensures AfterPass(info, [], []) == info
  {
  }

  lemma {:induction false} PassOneMore(
    info: TowerInfo, done: seq<Signed>, outcomes: seq<Outcome>, a: Signed, o: Outcome)
    requires |done| == |outcomes| && |done| < |info.pending| && info.pending[|done|] == a && Consumes(o)
    requires AllGoOn(outcomes, |outcomes|)
    ensures Applied(AfterPass(info, done, outcomes), RetryUpdate(o, a)) ==
            Ok(AfterPass(info, done + [a], outcomes + [o]))
  {
    var rest := info.pending[|done|..];
    assert rest[0] == a && rest[1..] == info.pending[|done| + 1..];
    RejectedOneMore(done, outcomes, a, o);
    ReceiptsOneMore(info.appointments, done, outcomes, a, o);
    SlotsOneMore(info.availableSlots, outcomes, o);
    assert info.invalid + (Rejected(done, outcomes) + [a]) == info.invalid + Rejected(done, outcomes) + [a];
    assert info.invalid + (Rejected(done, outcomes) + []) == info.invalid + Rejected(done, outcomes);
  }

  /** The same along the pending list itself. */
  lemma PassStep(info: TowerInfo, outcomes: seq<Outcome>, i: nat)
    requires i < |info.pending| == |outcomes| && Consumes(outcomes[i])
    requires AllGoOn(outcomes, i)
    ensures Applied(AfterPass(info, info.pending[..i], outcomes[..i]), RetryUpdate(outcomes[i], info.pending[i])) ==
            Ok(AfterPass(info, info.pending[..i + 1], outcomes[..i + 1]))
  {
    PassOneMore(info, info.pending[..i], outcomes[..i], info.pending[i], outcomes[i]);
    hide AfterPass, Applied;
    assert info.pending[..i + 1] == info.pending[..i] + [info.pending[i]];
    assert outcomes[..i + 1] == outcomes[..i] + [outcomes[i]];
  }

  lemma RejectedHead(done: seq<Signed>, outcomes: seq<Outcome>)
    requires |done| == |outcomes| > 0
    ensures Rejected(done, outcomes) ==
            (if outcomes[0].RejectsAppointment? then [done[0]] else []) + Rejected(done[1..], outcomes[1..])
  {
  }

  lemma {:induction false} RejectedOneMore(done: seq<Signed>, outcomes: seq<Outcome>, a: Signed, o: Outcome)
    requires |done| == |outcomes|
    ensures Rejected(done + [a], outcomes + [o]) == Rejected(done, outcomes) + if o.RejectsAppointment? then [a] else []
  {
    if outcomes == [] {
      assert done + [a] == [a] && outcomes + [o] == [o];
    } else {
      RejectedOneMore(done[1..], outcomes[1..], a, o);
      RejectedHead(done, outcomes);
      RejectedHead(done + [a], outcomes + [o]);
      assert (done + [a])[1..] == done[1..] + [a] && (outcomes + [o])[1..] == outcomes[1..] + [o];
      hide Rejected;
      var rest := Rejected(done[1..], outcomes[1..]);
      assert [done[0]] + (rest + [a]) == [done[0]] + rest + [a] && [done[0]] + (rest + []) == [done[0]] + rest;
    }
  }

  lemma {:induction false} ReceiptsOneMore(
    m: map<Locator, string>, done: seq<Signed>, outcomes: seq<Outcome>, a: Signed, o: Outcome)
    requires |done| == |outcomes|
    ensures Receipts(m, done + [a], outcomes + [o]) ==
            if o.Accepts? then Receipts(m, done, outcomes)[a.locator := o.signature] else Receipts(m, done, outcomes)
    decreases |outcomes|
  {
    if outcomes == [] {
      assert (done + [a])[1..] == [] && (outcomes + [o])[1..] == [];
    } else {
      var m' := if outcomes[0].Accepts? then m[done[0].locator := outcomes[0].signature] else m;
      ReceiptsOneMore(m', done[1..], outcomes[1..], a, o);
      assert (done + [a])[1..] == done[1..] + [a] && (outcomes + [o])[1..] == outcomes[1..] + [o];
    }
  }

  lemma {:induction false} SlotsOneMore(slots: int, outcomes: seq<Outcome>, o: Outcome)
    ensures SlotsAfter(slots, outcomes + [o]) == if o.Accepts? then o.availableSlots else SlotsAfter(slots, outcomes)
    decreases |outcomes|
  {
    if outcomes == [] {
      assert (outcomes + [o])[1..] == [];
    } else {
      SlotsOneMore(if outcomes[0].Accepts? then outcomes[0].availableSlots else slots, outcomes[1..], o);
      assert (outcomes + [o])[1..] == outcomes[1..] + [o];
    }
  }

  lemma {:induction false} ConsumedAllGoOn(outcomes: seq<Outcome>, n: nat)
    requires n <= |outcomes| && AllGoOn(outcomes, n)
    ensures Consumed(outcomes) == n + Consumed(outcomes[n..])
    ensures Stopper(outcomes) == Stopper(outcomes[n..])
  {
    if n == 0 {
      assert outcomes[0..] == outcomes;
    } else {
      ConsumedAllGoOn(outcomes[1..], n - 1);
      assert outcomes[1..][n - 1..] == outcomes[n..];
    }
  }

  /** Where a pass stops: at the end, or at the first outcome that does not let it go on. */
  lemma StopsAt(outcomes: seq<Outcome>, i: nat)
    requires i <= |outcomes| && AllGoOn(outcomes, i)
    ensures i == |outcomes| ==> Consumed(outcomes) == i && Stopper(outcomes) == None
    ensures i < |outcomes| && !GoesOn(outcomes[i]) ==>
              && Stopper(outcomes) == Some(outcomes[i])
              && Consumed(outcomes) == if Consumes(outcomes[i]) then i + 1 else i
  {
    ConsumedAllGoOn(outcomes, i);
    if i < |outcomes| {
      assert outcomes[i..][0] == outcomes[i];
    }
  }

  /** The record after a pass: a prefix of the pending list is consumed, and exactly the rest is left. */
  function PassResult(info: TowerInfo, outcomes: seq<Outcome>): TowerInfo
    requires |outcomes| == |info.pending|
  {
    var n := Consumed(outcomes);
    var after := AfterPass(info, info.pending[..n], outcomes[..n]);
    if Stopper(outcomes) == Some(RejectsSubscription) then after.(status := SUBSCRIPTION_ERROR) else after
  }

  /** What a pass returns: nothing when every appointment was consumed and the tower stayed reachable. */
  function PassStatus(outcomes: seq<Outcome>): Result<Option<TowerStatus>> {
    match Stopper(outcomes)
    case None => Ok(None)
    case Some(o) => StatusOf(o)
  }

  function StatusOf(outcome: Outcome): Result<Option<TowerStatus>> {
    match outcome
    case Accepts(_, _) => Ok(Some(REACHABLE))
    case SignsWrong(_) => Ok(Some(MISBEHAVING))
    case CannotConnect => Ok(Some(TEMPORARILY_UNREACHABLE))
    case RejectsSubscription => Ok(Some(SUBSCRIPTION_ERROR))
    case RejectsAppointment => Ok(Some(REACHABLE))
    case Unavailable => Ok(Some(TEMPORARILY_UNREACHABLE))
    case Unexpected => Raised(TypeError)
  }

  /** One appointment of a pass. */
  function AfterOne(info: TowerInfo, a: Signed, outcome: Outcome): TowerInfo {
    if Consumes(outcome) then
      match Applied(info, RetryUpdate(outcome, a))
      case Ok(updated) => updated
      case Raised(_) => info
    else if outcome.RejectsSubscription? then info.(status := SUBSCRIPTION_ERROR)
    else info
  }

  lemma ReachableGoesOn(outcome: Outcome)
    ensures StatusOf(outcome) == Ok(Some(REACHABLE)) <==> GoesOn(outcome)
  {
  }

  lemma OneMorePassed(info: TowerInfo, outcomes: seq<Outcome>, i: nat)
    requires i < |outcomes| == |info.pending| && AllGoOn(outcomes, i)
    ensures Consumes(outcomes[i]) ==>
              Applied(AfterPass(info, info.pending[..i], outcomes[..i]), RetryUpdate(outcomes[i], info.pending[i])).Ok?
    ensures GoesOn(outcomes[i]) ==>
              AfterOne(AfterPass(info, info.pending[..i], outcomes[..i]), info.pending[i], outcomes[i]) ==
              AfterPass(info, info.pending[..i + 1], outcomes[..i + 1]) && AllGoOn(outcomes, i + 1)
  {
    if Consumes(outcomes[i]) {
      PassStep(info, outcomes, i);
    }
    hide AfterPass, Applied;
  }

  lemma Overwrite<V>(m: map<TowerId, V>, id: TowerId, v: V, w: V)
    ensures m[id := v][id := w] == m[id := w]
  {
  }

  lemma GoesOnWrites(outcome: Outcome)
    ensures GoesOn(outcome) ==> WritesOne(outcome)
  {
  }

  /** A transitory outcome leaves the record alone. */
  lemma NothingWritten(info: TowerInfo, a: Signed, outcome: Outcome)
    ensures !WritesOne(outcome) ==> AfterOne(info, a, outcome) == info
  {
  }

  lemma PassStops(info: TowerInfo, outcomes: seq<Outcome>, i: nat)
    requires i < |outcomes| == |info.pending| && !GoesOn(outcomes[i]) && AllGoOn(outcomes, i)
    ensures PassResult(info, outcomes) ==
            AfterOne(AfterPass(info, info.pending[..i], outcomes[..i]), info.pending[i], outcomes[i])
    ensures PassStatus(outcomes) == StatusOf(outcomes[i])
  {
    StopsAt(outcomes, i);
    if Consumes(outcomes[i]) {
      PassStep(info, outcomes, i);
    }
    hide AfterPass, Applied, Consumed, Stopper;
  }

  /** Whether a pass that stops at `i` has written to the record. */
  lemma WritesAt(outcomes: seq<Outcome>, i: nat)
    requires i <= |outcomes| && AllGoOn(outcomes, i)
    ensures i == |outcomes| ==> (Writes(outcomes) <==> i > 0)
    ensures i < |outcomes| && !GoesOn(outcomes[i]) ==> (Writes(outcomes) <==> i > 0 || WritesOne(outcomes[i]))
  {
    StopsAt(outcomes, i);
  }

  predicate WritesOne(outcome: Outcome) {
    Consumes(outcome) || outcome.RejectsSubscription?
  }

  lemma PassCompletes(info: TowerInfo, outcomes: seq<Outcome>)
    requires |outcomes| == |info.pending|
    ensures AllGoOn(outcomes, |outcomes|) ==>
              && PassResult(info, outcomes) == AfterPass(info, info.pending[..|outcomes|], outcomes[..|outcomes|])
              && PassStatus(outcomes) == Ok(None)
  {
    if !AllGoOn(outcomes, |outcomes|) {
      return;
    }
    StopsAt(outcomes, |outcomes|);
    hide AfterPass, Consumed, Stopper;
  }

  lemma {:induction false} ReceiptsHold(m: map<Locator, string>, done: seq<Signed>, outcomes: seq<Outcome>, i: nat)
    requires |done| == |outcomes| && i < |done| && outcomes[i].Accepts?
    ensures done[i].locator in Receipts(m, done, outcomes)
    decreases |outcomes|
  {
    var m' := if outcomes[0].Accepts? then m[done[0].locator := outcomes[0].signature] else m;
    if i == 0 {
      ReceiptsGrow(m', done[1..], outcomes[1..]);
    } else {
      ReceiptsHold(m', done[1..], outcomes[1..], i - 1);
    }
  }

  lemma {:induction false} ReceiptsGrow(m: map<Locator, string>, done: seq<Signed>, outcomes: seq<Outcome>)
    requires |done| == |outcomes|
    ensures m.Keys <= Receipts(m, done, outcomes).Keys
    decreases |outcomes|
  {
    if outcomes != [] {
      var m' := if outcomes[0].Accepts? then m[done[0].locator := outcomes[0].signature] else m;
      ReceiptsGrow(m', done[1..], outcomes[1..]);
    }
  }

  lemma {:induction false} RejectedHold(done: seq<Signed>, outcomes: seq<Outcome>, i: nat)
    requires |done| == |outcomes| && i < |done| && outcomes[i].RejectsAppointment?
    ensures done[i] in Rejected(done, outcomes)
  {
    if i > 0 {
      RejectedHold(done[1..], outcomes[1..], i - 1);
    }
  }

  /** Where a pass records the i-th pending appointment. */
  ghost predicate Settled(after: TowerInfo, a: Signed, outcome: Outcome) {
    match outcome
    case Accepts(_, _) => a.locator in after.appointments
    case RejectsAppointment => a in after.invalid
    case SignsWrong(signature) => after.status == MISBEHAVING && after.proof == Some(Proof(a, signature))
    case _ => false
  }

  /** A pass consumes a prefix of the pending list in order, records all of it, and leaves exactly the unsent rest. */
  lemma PassLeavesSuffix(info: TowerInfo, outcomes: seq<Outcome>)
    requires |outcomes| == |info.pending|
    ensures var after := PassResult(info, outcomes);
            var n := |info.pending| - |after.pending|;
            && n >= 0 && info.pending == info.pending[..n] + after.pending
            && (forall i :: 0 <= i < n ==> Settled(after, info.pending[i], outcomes[i]))
            && (n == |outcomes| || !Consumes(outcomes[n]) || after.status == MISBEHAVING)
            && info.invalid <= after.invalid && info.appointments.Keys <= after.appointments.Keys
  {
    var n := Consumed(outcomes);
    var done, seen := info.pending[..n], outcomes[..n];
    var after := PassResult(info, outcomes);
    StopperIsNotConsumed(outcomes);
    ReceiptsGrow(info.appointments, done, seen);
    forall i | 0 <= i < n ensures Settled(after, info.pending[i], outcomes[i]) {
      assert done[i] == info.pending[i] && seen[i] == outcomes[i];
      if outcomes[i].Accepts? {
        ReceiptsHold(info.appointments, done, seen, i);
      } else if outcomes[i].RejectsAppointment? {
        RejectedHold(done, seen, i);
      } else {
        assert i == n - 1;
      }
    }
  }

  /** A refused subscription ends a pass without a misbehaviour before it. */
  lemma {:induction false} StopperIsNotConsumed(outcomes: seq<Outcome>)
    ensures Stopper(outcomes) == Some(RejectsSubscription) ==>
              Consumed(outcomes) > 0 ==> GoesOn(outcomes[Consumed(outcomes) - 1])
  {
    if outcomes != [] && GoesOn(outcomes[0]) {
      StopperIsNotConsumed(outcomes[1..]);
    }
  }

  // ---------- One tower, step by step ----------

  /** The record of a tower, and the status memory holds, which may be ahead of it. */
  datatype Kept = Kept(info: TowerInfo, status: TowerStatus)

  datatype Op = Revoke(appointment: Signed, outcome: Outcome) | Retry(outcomes: seq<Outcome>) | RetryByHand | GiveUp

  predicate Fits(k: Kept, op: Op) {
    op.Retry? ==> |op.outcomes| == |k.info.pending|
  }

  /** A pass writes to the record, and so refreshes memory, unless its first outcome is transitory. */
  predicate Writes(outcomes: seq<Outcome>) {
    Consumed(outcomes) > 0 || Stopper(outcomes) == Some(RejectsSubscription)
  }

  function Next(k: Kept, op: Op): Kept
    requires Fits(k, op)
  {
    match op
    case Revoke(a, outcome) =>
      if k.status == MISBEHAVING then k
      else
        var info := Revoked(k.info, k.status, outcome, a);
        Kept(info, info.status)
    case Retry(outcomes) =>
      var info := PassResult(k.info, outcomes);
      Kept(info, if Writes(outcomes) then info.status else k.status)
    case RetryByHand =>
      if k.status in {UNREACHABLE, SUBSCRIPTION_ERROR} && k.info.pending != []
      then k.(status := TEMPORARILY_UNREACHABLE)
      else k
    case GiveUp => Kept(k.info.(status := UNREACHABLE), UNREACHABLE)
  }

  /** The body of `update_tower_state`, field by field. */
  method ApplyUpdate(record: TowerInfo, update: TowerUpdate) returns (r: Result<TowerInfo>)
    ensures r == Applied(record, update)
  {
    var info := record;
    if update.status.Some? {
      info := info.(status := update.status.value);
    }
    if update.accepted.Some? {
      var (locator, signature, slots) := update.accepted.value;
      info := info.(appointments := info.appointments[locator := signature], availableSlots := slots);
    }
    match update.pending {
      case None =>
      case Some(Add(a)) => info := info.(pending := info.pending + [a]);
      case Some(Drop(a)) =>
        if a !in info.pending {
          return Raised(ValueError);
        }
        info := info.(pending := RemoveFirst(info.pending, a));
    }
    if update.invalid.Some? {
      info := info.(invalid := info.invalid + [update.invalid.value]);
    }
    if update.proof.Some? {
      info := info.(proof := update.proof);
    }
    r := Ok(info);
  }

  class WTClient {
    var towers: map<TowerId, TowerSummary>
    var db: map<TowerId, TowerInfo>
    /** `temp_unreachable_towers` of the Retrier. */
    var retryQueue: seq<TowerId>

    /** Memory summarises the database; only the status may be ahead of it. */
    ghost predicate Valid()
      reads this
    {
      towers.Keys == db.Keys && forall id <- db :: towers[id].(status := db[id].status) == db[id].Summary()
    }

    ghost function Tower(id: TowerId): Kept
      requires Valid() && id in db
      reads this
    {
      Kept(db[id], towers[id].status)
    }

    constructor (db: map<TowerId, TowerInfo>)
      ensures Valid() && this.db == db && retryQueue == []
      ensures forall id <- db :: towers[id] == db[id].Summary()
    {
      this.db := db;
      towers := map id | id in db :: db[id].Summary();
      retryQueue := [];
    }

    method UpdateTowerState(id: TowerId, update: TowerUpdate) returns (r: Result<()>)
      requires Valid() && id in db
      modifies this
      ensures Valid() && retryQueue == old(retryQueue)
      ensures r == (if Applied(old(db)[id], update).Ok? then Ok(()) else Raised(ValueError))
      ensures db == if r == Ok(()) then old(db)[id := Applied(old(db)[id], update).value] else old(db)
      ensures towers == if r == Ok(()) then old(towers)[id := db[id].Summary()] else old(towers)
      ensures r == Ok(()) ==>
                var info := db[id];
                towers[id] == TowerSummary(info.netaddr, info.status, info.availableSlots, info.pending, info.invalid)
    {
      hide Applied;
      var updated := ApplyUpdate(db[id], update);
      if updated.Raised? {
        return Raised(ValueError);
      }
      towers := towers[id := updated.value.Summary()];
      db := db[id := updated.value];
      r := Ok(());
    }

    /** One iteration of the hook; the update also runs when the response was unexpected. */
    method RevokeAt(id: TowerId, outcomes: TowerId -> Outcome, a: Signed) returns (r: Result<()>)
      requires Valid() && id in db
      modifies this
      ensures Valid()
      ensures db == old(db)[id := Revoked(old(db)[id], old(towers)[id].status, outcomes(id), a)]
      ensures towers == old(towers)[id := towers[id]]
      ensures Tower(id) == Next(old(Tower(id)), Revoke(a, outcomes(id)))
      ensures r == if RaisesAt(old(towers)[id].status, outcomes(id)) then Raised(TypeError) else Ok(())
      ensures retryQueue == old(retryQueue) +
              if old(towers)[id].status == REACHABLE && (outcomes(id).CannotConnect? || outcomes(id).Unavailable?)
              then [id] else []
      ensures old(towers)[id].status == REACHABLE ==>
                && HookDoes(old(db)[id], db[id], |retryQueue| > |old(retryQueue)|, outcomes(id), a)
                && towers[id].status == db[id].status && towers[id].pending == db[id].pending
      ensures old(towers)[id].status !in {REACHABLE, MISBEHAVING} ==>
                db[id] == old(db)[id].(pending := old(db)[id].pending + [a])
      ensures old(towers)[id].status == MISBEHAVING ==> db[id] == old(db)[id] && towers[id] == old(towers)[id]
    {
      var status := towers[id].status;
      if status == MISBEHAVING {
        return Ok(());
      }
      var (update, retry) := RevocationUpdate(status, outcomes(id), a);
      var updated := UpdateTowerState(id, update);
      if retry {
        retryQueue := retryQueue + [id];
      }
      r := if status == REACHABLE && outcomes(id) == Unexpected then Raised(TypeError) else Ok(());
    }

    /** The hook has dealt with the towers in `done`. */
    ghost predicate HookedAll(
      done: set<TowerId>, outcomes: TowerId -> Outcome, a: Signed,
      db0: map<TowerId, TowerInfo>, towers0: map<TowerId, TowerSummary>)
      requires Valid()
      reads this
    {
      && db.Keys == db0.Keys == towers0.Keys
      && (forall id <- db ::
            Tower(id) == if id in done then Next(Kept(db0[id], towers0[id].status), Revoke(a, outcomes(id)))
                         else Kept(db0[id], towers0[id].status))
      && (forall id <- towers :: id in towers0 && (id !in done ==> towers[id] == towers0[id]))
    }

    /** The towers queued for a retry since `queue0`, each once, and what the hook did to those found reachable. */
    ghost predicate Queued(
      done: set<TowerId>, outcomes: TowerId -> Outcome, a: Signed,
      db0: map<TowerId, TowerInfo>, towers0: map<TowerId, TowerSummary>, queue0: seq<TowerId>)
      requires Valid() && db.Keys == db0.Keys == towers0.Keys && done <= db.Keys
      reads this
    {
      && queue0 <= retryQueue && NoDup(retryQueue[|queue0|..])
      && (forall id <- retryQueue[|queue0|..] :: id in done && towers0[id].status == REACHABLE)
      && (forall id <- done :: towers0[id].status == REACHABLE ==>
            HookDoes(db0[id], db[id], id in retryQueue[|queue0|..], outcomes(id), a)
            && towers[id].status == db[id].status && towers[id].pending == db[id].pending)
    }

    lemma QueuedOneMore<T(!new)>(queue0: seq<T>, before: seq<T>, more: seq<T>)
      requires queue0 <= before
      ensures queue0 <= before + more && (before + more)[|queue0|..] == before[|queue0|..] + more
    {
    }

    method RevokeNext(
      id: TowerId, outcomes: TowerId -> Outcome, a: Signed, ghost done: set<TowerId>,
      ghost db0: map<TowerId, TowerInfo>, ghost towers0: map<TowerId, TowerSummary>)
      returns (r: Result<()>)
      requires Valid() && HookedAll(done, outcomes, a, db0, towers0) && id in db && id !in done
      modifies this
      ensures Valid() && HookedAll(done + {id}, outcomes, a, db0, towers0)
      ensures id in towers0 && r == if RaisesAt(towers0[id].status, outcomes(id)) then Raised(TypeError) else Ok(())
      ensures db == old(db)[id := db[id]] && towers == old(towers)[id := towers[id]]
      ensures id in old(db) && id in old(towers) && old(towers)[id] == towers0[id]
      ensures retryQueue == old(retryQueue) || (retryQueue == old(retryQueue) + [id] && towers0[id].status == REACHABLE)
      ensures towers0[id].status == REACHABLE ==>
                && HookDoes(old(db)[id], db[id], |retryQueue| > |old(retryQueue)|, outcomes(id), a)
                && towers[id].status == db[id].status && towers[id].pending == db[id].pending
    {
      hide Revoked, RaisesAt, Next, HookDoes;
      r := RevokeAt(id, outcomes, a);
    }

    method RevokeAndQueue(
      id: TowerId, outcomes: TowerId -> Outcome, a: Signed, ghost done: set<TowerId>,
      ghost db0: map<TowerId, TowerInfo>, ghost towers0: map<TowerId, TowerSummary>, ghost queue0: seq<TowerId>)
      returns (r: Result<()>)
      requires Valid() && HookedAll(done, outcomes, a, db0, towers0) && id in db && id !in done && done <= db.Keys
      requires Queued(done, outcomes, a, db0, towers0, queue0) && db[id] == db0[id]
      modifies this
      ensures Valid() && HookedAll(done + {id}, outcomes, a, db0, towers0) && db.Keys == db0.Keys == towers0.Keys
      ensures done + {id} <= db.Keys && Queued(done + {id}, outcomes, a, db0, towers0, queue0)
      ensures r == if RaisesAt(towers0[id].status, outcomes(id)) then Raised(TypeError) else Ok(())
      ensures db == old(db)[id := db[id]]
    {
      hide RaisesAt, HookDoes, HookedAll, Valid;
      ghost var before := retryQueue;
      HookedKeys(done, outcomes, a, db0, towers0);
      r := RevokeNext(id, outcomes, a, done, db0, towers0);
      HookedKeys(done + {id}, outcomes, a, db0, towers0);
      QueuedOneMore(queue0, before, if retryQueue == before then [] else [id]);
      assert id !in before[|queue0|..];
      NoDupAppend(before[|queue0|..], id);
    }

    lemma HookedKeys(
      done: set<TowerId>, outcomes: TowerId -> Outcome, a: Signed,
      db0: map<TowerId, TowerInfo>, towers0: map<TowerId, TowerSummary>)
      requires Valid() && HookedAll(done, outcomes, a, db0, towers0)
      ensures db.Keys == db0.Keys == towers0.Keys == towers.Keys
    {
    }

    /** The hook: every tower in turn, until one raises. */
    method OnCommitmentRevocation(outcomes: TowerId -> Outcome, a: Signed)
      returns (r: Result<()>, ghost done: set<TowerId>)
      requires Valid()
      modifies this
      ensures Valid() && done <= old(db).Keys && db.Keys == old(db).Keys
      ensures forall id <- old(db) :: Tower(id) == if id in done then Next(old(Tower(id)), Revoke(a, outcomes(id)))
                                                   else old(Tower(id))
      ensures Queued(done, outcomes, a, old(db), old(towers), old(retryQueue))
      ensures r == Ok(()) ==> done == old(db).Keys
      ensures r == Ok(()) <==> forall id <- old(db) :: !RaisesAt(old(towers)[id].status, outcomes(id))
    {
      hide RaisesAt, Next, HookDoes, Queued;
      ghost var db0, towers0, queue0 := db, towers, retryQueue;
      done := {};
      NothingQueued(outcomes, a);
      var pending := towers.Keys;
      while pending != {}
        invariant Valid() && HookedAll(done, outcomes, a, db0, towers0)
        invariant pending <= db0.Keys && done == db0.Keys - pending
        invariant Queued(done, outcomes, a, db0, towers0, queue0)
        invariant forall id <- pending :: db[id] == db0[id]
        invariant forall id <- done :: !RaisesAt(towers0[id].status, outcomes(id))
        decreases pending
      {
        var id :| id in pending;
        r := RevokeAndQueue(id, outcomes, a, done, db0, towers0, queue0);
        pending := pending - {id};
        done := done + {id};
        if r == Raised(TypeError) {
          return;
        }
      }
      r := Ok(());
    }

    lemma NothingQueued(outcomes: TowerId -> Outcome, a: Signed)
      requires Valid()
      ensures Queued({}, outcomes, a, db, towers, retryQueue)
    {
    }

    /** One iteration of the retry loop, and the status it ends with. */
    method RetryOne(id: TowerId, a: Signed, outcome: Outcome) returns (r: Result<Option<TowerStatus>>)
      requires Valid() && id in db
      requires Consumes(outcome) ==> Applied(db[id], RetryUpdate(outcome, a)).Ok?
      modifies this
      ensures Valid() && retryQueue == old(retryQueue)
      ensures db == old(db)[id := AfterOne(old(db)[id], a, outcome)]
      ensures towers == old(towers)[id := if WritesOne(outcome) then db[id].Summary() else old(towers)[id]]
      ensures r == StatusOf(outcome)
    {
      assert db[id := db[id]] == db && towers[id := towers[id]] == towers;
      if outcome == Unexpected {
        return Raised(TypeError);
      }
      var update := RetryUpdate(outcome, a);
      if update.status != Some(TEMPORARILY_UNREACHABLE) {
        var updated := UpdateTowerState(id, update);
      }
      r := Ok(update.status);
    }

    /** A pass over `info` has consumed the first `i` pending appointments. */
    ghost predicate Passing(
      id: TowerId, info: TowerInfo, outcomes: seq<Outcome>, i: nat,
      db0: map<TowerId, TowerInfo>, towers0: map<TowerId, TowerSummary>)
      reads this
    {
      && i <= |outcomes| == |info.pending| && AllGoOn(outcomes, i) && id in towers0
      && db == db0[id := AfterPass(info, info.pending[..i], outcomes[..i])]
      && towers == towers0[id := if i > 0 then db[id].Summary() else towers0[id]]
    }

    /** The pass has ended. */
    ghost predicate Passed(
      id: TowerId, info: TowerInfo, outcomes: seq<Outcome>,
      db0: map<TowerId, TowerInfo>, towers0: map<TowerId, TowerSummary>)
      reads this
    {
      && |outcomes| == |info.pending| && id in towers0
      && db == db0[id := PassResult(info, outcomes)]
      && towers == towers0[id := if Writes(outcomes) then db[id].Summary() else towers0[id]]
    }

    method PassNext(
      id: TowerId, a: Signed, outcome: Outcome, ghost info: TowerInfo, ghost outcomes: seq<Outcome>, ghost i: nat,
      ghost db0: map<TowerId, TowerInfo>, ghost towers0: map<TowerId, TowerSummary>)
      returns (r: Result<Option<TowerStatus>>)
      requires Valid() && i < |outcomes| && Passing(id, info, outcomes, i, db0, towers0)
      requires a == info.pending[i] && outcome == outcomes[i]
      modifies this
      ensures Valid() && retryQueue == old(retryQueue)
      ensures r == Ok(Some(REACHABLE)) ==> Passing(id, info, outcomes, i + 1, db0, towers0)
      ensures r != Ok(Some(REACHABLE)) ==> Passed(id, info, outcomes, db0, towers0) && r == PassStatus(outcomes)
    {
      hide AfterPass, Applied, PassResult, PassStatus, StatusOf, GoesOn, Consumes, AfterOne, AllGoOn, Writes, WritesOne;
      ReachableGoesOn(outcome);
      OneMorePassed(info, outcomes, i);
      GoesOnWrites(outcome);
      ghost var info1, summary1 := db[id], towers[id];
      r := RetryOne(id, a, outcome);
      Overwrite(db0, id, info1, db[id]);
      Overwrite(towers0, id, summary1, towers[id]);
      if r != Ok(Some(REACHABLE)) {
        PassStops(info, outcomes, i);
        WritesAt(outcomes, i);
        NothingWritten(AfterPass(info, info.pending[..i], outcomes[..i]), a, outcome);
      }
    }

    /** One sequential pass over the pending appointments; `outcomes[i]` is what sending the i-th one leads to. */
    method DoRetry(id: TowerId, outcomes: seq<Outcome>) returns (r: Result<Option<TowerStatus>>)
      requires Valid() && id in db && |outcomes| == |db[id].pending|
      modifies this
      ensures Valid() && retryQueue == old(retryQueue)
      ensures db == old(db)[id := PassResult(old(db)[id], outcomes)] && towers == old(towers)[id := towers[id]]
      ensures Tower(id) == Next(old(Tower(id)), Retry(outcomes))
      ensures r == PassStatus(outcomes)
    {
      var snapshot := towers[id].pending;
      ghost var info, db0, towers0 := db[id], db, towers;
      PassStarts(info);
      PassCompletes(info, outcomes);
      if AllGoOn(outcomes, |outcomes|) {
        WritesAt(outcomes, |outcomes|);
      }
      hide PassResult, PassStatus, Writes;
      for i := 0 to |snapshot|
        invariant Valid() && retryQueue == old(retryQueue) && Passing(id, info, outcomes, i, db0, towers0)
      {
        r := PassNext(id, snapshot[i], outcomes[i], info, outcomes, i, db0, towers0);
        if r != Ok(Some(REACHABLE)) {
          return;
        }
      }
      r := Ok(None);
    }

    /** Called when the retries are used up. */
    method OnGiveup(id: TowerId)
      requires Valid() && id in db
      modifies this
      ensures Valid() && retryQueue == old(retryQueue)
      ensures id in db && db == old(db)[id := db[id]] && towers == old(towers)[id := towers[id]]
      ensures Tower(id) == Next(old(Tower(id)), GiveUp)
      ensures db[id] == old(db)[id].(status := UNREACHABLE) && towers[id].status == UNREACHABLE
    {
      var updated := UpdateTowerState(id, NO_UPDATE.(status := Some(UNREACHABLE)));
    }

    /** The manual retry; the new status is written to memory only. */
    method RetryTower(id: TowerId) returns (r: Result<bool>)
      requires Valid()
      modifies this
      ensures Valid() && db == old(db)
      ensures r.Raised? <==> id !in old(towers)
      ensures r.Raised? ==> r == Raised(AttributeError)
      ensures r.Ok? ==>
                (r.value <==>
                 old(towers)[id].status in {UNREACHABLE, SUBSCRIPTION_ERROR} && old(towers)[id].pending != [])
      ensures id in db ==> Tower(id) == Next(old(Tower(id)), RetryByHand)
      ensures if r == Ok(true) then
                && towers == old(towers)[id := old(towers)[id].(status := TEMPORARILY_UNREACHABLE)]
                && retryQueue == old(retryQueue) + [id]
              else towers == old(towers) && retryQueue == old(retryQueue)
    {
      if id !in towers {
        return Raised(AttributeError);
      }
      var tower := towers[id];
      if tower.status !in {UNREACHABLE, SUBSCRIPTION_ERROR} || |tower.pending| == 0 {
        return Ok(false);
      }
      towers := towers[id := tower.(status := TEMPORARILY_UNREACHABLE)];
      retryQueue := retryQueue + [id];
      r := Ok(true);
    }
  }
}
