/**
 The retry loop of a batch proposal. What the L1 node answers to each attempt is a script; the
 loop fills, checks the fees, sends, waits for a block, and raises the fees in between.
 */
module Retries {
  import opened Wrappers
  import opened Fees

  const U128_MAX: nat := 0xffff_ffff_ffff_ffff_ffff_ffff_ffff_ffff
  const MAX_FEES: nat := 125_000_000_000_000_000
  const MIN_GAS_LIMIT: nat := 5_000_000
  const BYTES_PER_BLOB: nat := 131072

  // More than the binary logarithm of MAX_FEES.
  const MAX_SENDS: nat := 57

  datatype Failure = BlobGasTooLow | BaseFeeTooLow(newBaseFee: Option<nat>) | Fatal

  datatype Inclusion = Included | NotIncluded | LookupFailed

  /** How the node and the clock respond to one attempt. */
  datatype Attempt = Attempt(
    fill: Option<Failure>,       // why filling in the transaction failed, if it did
    nonce: nat,                  // the nonce and the gas limit filled in when none is given
    estimatedGas: nat,
    send: Option<Failure>,       // why sending failed, if it did
    inclusion: Inclusion,        // what the next block shows
    pastDeadline: bool,
    freshHints: Option<Hints>)   // the answer if the hints are estimated anew

  datatype Outcome = Landed | FeesTooHigh(total: nat) | Failed | DeadlineReached | StillTrying

  datatype State = State(fees: Hints, nonce: Option<nat>, gasLimit: Option<nat>,
                         attempts: nat, sent: nat, refreshes: nat)

  function Saturated(n: nat): nat {
    if n <= U128_MAX then n else U128_MAX
  }

  /** The most a transaction can cost: its gas at the max fee, and its blobs at the blob fee. */
  function MaxBatchFee(fees: Hints, gasLimit: nat, blobs: nat): nat {
    var blobFees := Saturated(fees.blobFee * Saturated(blobs * BYTES_PER_BLOB));
    var executionFees := Saturated(fees.maxFee * gasLimit);
    Saturated(executionFees + blobFees)
  }

  /** Despite the saturations on the way it is the exact total, cut off at the u128 bound. */
  lemma {:induction false} MaxBatchFeeIsExact(fees: Hints, gasLimit: nat, blobs: nat)
    ensures MaxBatchFee(fees, gasLimit, blobs) ==
            Saturated(fees.maxFee * gasLimit + fees.blobFee * (blobs * BYTES_PER_BLOB))
  {
    var used := blobs * BYTES_PER_BLOB;
    if used > U128_MAX {
      if fees.blobFee == 0 {
        assert fees.blobFee * used == 0 == fees.blobFee * U128_MAX;
      } else {
        AtLeastOnce(fees.blobFee, used);
        AtLeastOnce(fees.blobFee, U128_MAX);
      }
    }
  }

  lemma {:induction false} AtLeastOnce(a: nat, b: nat)
    requires a > 0
    ensures a * b >= b
  {}

  datatype Step = Continue(state: State) | Stop(state: State, outcome: Outcome)

  // Hints estimated anew replace the old ones.
  function Refreshed(s: State, a: Attempt): Step {
    match a.freshHints
    case None => Stop(s, Failed)
    case Some(hints) => Continue(s.(fees := hints, refreshes := s.refreshes + 1))
  }

  function OnFailure(s: State, a: Attempt, failure: Failure): Step
    requires s.fees.Valid()
  {
    match failure
    case BlobGasTooLow => Continue(s.(fees := s.fees.WithNextBlockIncrease()))
    case BaseFeeTooLow(None) => Refreshed(s, a)
    case BaseFeeTooLow(Some(newBaseFee)) =>
      if s.fees.Bumps(newBaseFee) then Continue(s.(fees := s.fees.BumpedTo(newBaseFee)))
      else Refreshed(s, a)
    case Fatal => Stop(s, Failed)
  }

  function OnSent(s: State, a: Attempt, gas: nat): Step {
    var gasLimit := if 2 * gas < MIN_GAS_LIMIT then 2 * gas else MIN_GAS_LIMIT;
    var t := s.(sent := s.sent + 1,
                nonce := Some(s.nonce.GetOr(a.nonce)),
                gasLimit := Some(s.gasLimit.GetOr(gasLimit)));
    if a.inclusion.LookupFailed? then Stop(t, Failed)
    else if a.inclusion.Included? then Stop(t, Landed)
    else if a.pastDeadline then Stop(t, DeadlineReached)
    else Continue(t.(fees := t.fees.Doubled()))
  }

  /** One round of the loop. */
  function Tried(before: State, a: Attempt, blobs: nat): Step
    requires before.fees.Valid()
  {
    var s := before.(attempts := before.attempts + 1);
    if a.fill.Some? then OnFailure(s, a, a.fill.value)
    else
      var gas := s.gasLimit.GetOr(a.estimatedGas);
      var total := MaxBatchFee(s.fees, gas, blobs);
      if total > MAX_FEES then Stop(s, FeesTooHigh(total))
      else if a.send.Some? then OnFailure(s, a, a.send.value)
      else OnSent(s, a, gas)
  }

  /** What the loop makes of a whole script. */
  function Run(s: State, script: seq<Attempt>, blobs: nat): (State, Outcome)
    requires s.fees.Valid() && ScriptValid(script)
    decreases |script|
  {
    if script == [] then (s, StillTrying)
    else
      assert script[0] in script;
      match Tried(s, script[0], blobs)
      case Stop(t, outcome) => (t, outcome)
      case Continue(t) => Run(t, script[1..], blobs)
  }

  // The node's estimates: a priority fee within the max fee.
  predicate ScriptValid(script: seq<Attempt>) {
    forall a :: a in script ==> a.freshHints.Some? ==> a.freshHints.value.Valid()
  }

  // The node never estimates a zero fee or zero gas.
  predicate ScriptPositive(script: seq<Attempt>) {
    forall a :: a in script ==>
      a.estimatedGas > 0 && (a.freshHints.Some? ==> a.freshHints.value.maxFee > 0)
  }

  function Start(fees: Hints): State {
    State(fees, None, None, 0, 0, 0)
  }

  lemma {:induction false} RaisesStayValid(h: Hints)
    requires h.Valid()
    ensures h.WithNextBlockIncrease().Valid() && h.Doubled().Valid() && forall n :: h.BumpedTo(n).Valid()
  {}

  /** Raises the hints in place after a failure, or starts over with hints estimated anew. */
  method Recover(fees: FeesHints, a: Attempt, failure: Failure) returns (r: Option<FeesHints>, ghost refreshed: nat)
    requires fees.Value().Valid() && (a.freshHints.Some? ==> a.freshHints.value.Valid())
    modifies fees
    ensures r.Some? ==> (r.value == fees || fresh(r.value)) && r.value.Value().Valid()
    ensures forall s: State :: s.fees == old(fees.Value()) ==>
              if r.None? then OnFailure(s, a, failure).Stop? && OnFailure(s, a, failure).outcome == Failed
                              && OnFailure(s, a, failure).state == s
              else OnFailure(s, a, failure) == Continue(s.(fees := r.value.Value(), refreshes := s.refreshes + refreshed))
  {
    hide Hints.WithNextBlockIncrease, Hints.BumpedTo, Hints.Bumps;
    RaisesStayValid(fees.Value());
    refreshed := 0;
    if failure.BlobGasTooLow? {
      fees.NextBlockIncrease();
      return Some(fees), refreshed;
    }
    if failure.Fatal? {
      return None, refreshed;
    }
    if failure.newBaseFee.Some? {
      var bumped := fees.BumpBaseFee(failure.newBaseFee.value);
      if bumped {
        return Some(fees), refreshed;
      }
    }
    if a.freshHints.None? {
      return None, refreshed;
    }
    refreshed := 1;
    var renewed := new FeesHints(a.freshHints.value);
    r := Some(renewed);
  }

  /** The loop as the program runs it, raising its fee hints in place. */
  method ProposeBatchWithRetries(script: seq<Attempt>, blobs: nat, initial: Hints, pastDeadline: bool, headFound: bool)
    returns (outcome: Outcome, attempts: nat, sent: nat)
    requires initial.Valid() && ScriptValid(script)
    ensures pastDeadline ==> outcome == DeadlineReached && attempts == 0 && sent == 0
    ensures !pastDeadline && !headFound ==> outcome == Failed && attempts == 0 && sent == 0
    ensures !pastDeadline && headFound ==>
              var (s, o) := Run(Start(initial), script, blobs);
              outcome == o && attempts == s.attempts && sent == s.sent
  {
    hide MaxBatchFee, OnFailure, Hints.Doubled, Run;
    attempts, sent := 0, 0;
    if pastDeadline {
      return DeadlineReached, attempts, sent;
    }
    if !headFound {
      return Failed, attempts, sent;
    }
    var fees := new FeesHints(initial);
    var nonce, gasLimit: Option<nat> := None, None;
    ghost var refreshes := 0;
    var i := 0;
    while i < |script|
      invariant 0 <= i <= |script| && fresh(fees) && fees.Value().Valid()
      invariant ScriptValid(script[i..])
      invariant Run(Start(initial), script, blobs) ==
                Run(State(fees.Value(), nonce, gasLimit, attempts, sent, refreshes), script[i..], blobs)
    {
      var a := script[i];
      RunStep(State(fees.Value(), nonce, gasLimit, attempts, sent, refreshes), script, i, blobs);
      i := i + 1;
      attempts := attempts + 1;
      RaisesStayValid(fees.Value());
      var failure := a.fill;
      if failure.None? {
        var gas := gasLimit.GetOr(a.estimatedGas);
        var total := MaxBatchFee(fees.Value(), gas, blobs);
        if total > MAX_FEES {
          return FeesTooHigh(total), attempts, sent;
        }
        failure := a.send;
        if failure.None? {
          sent := sent + 1;
          if nonce.None? {
            nonce := Some(a.nonce);
          }
          if gasLimit.None? {
            gasLimit := Some(if 2 * gas < MIN_GAS_LIMIT then 2 * gas else MIN_GAS_LIMIT);
          }
          if a.inclusion.LookupFailed? {
            return Failed, attempts, sent;
          }
          if a.inclusion.Included? {
            return Landed, attempts, sent;
          }
          if a.pastDeadline {
            return DeadlineReached, attempts, sent;
          }
          fees.Double();
        }
      }
      if failure.Some? {
        var recovered;
        ghost var refreshed;
        recovered, refreshed := Recover(fees, a, failure.value);
        if recovered.None? {
          return Failed, attempts, sent;
        }
        fees := recovered.value;
        refreshes := refreshes + refreshed;
      }
    }
    assert script[i..] == [];
    RunOver(State(fees.Value(), nonce, gasLimit, attempts, sent, refreshes), blobs);
    return StillTrying, attempts, sent;
  }

  lemma {:induction false} RunStep(s: State, script: seq<Attempt>, i: nat, blobs: nat)
    requires s.fees.Valid() && i < |script| && ScriptValid(script[i..])
    ensures ScriptValid(script[i + 1..]) && (script[i].freshHints.Some? ==> script[i].freshHints.value.Valid())
    ensures Run(s, script[i..], blobs) ==
            match Tried(s, script[i], blobs)
            case Stop(t, outcome) => (t, outcome)
            case Continue(t) => Run(t, script[i + 1..], blobs)
  {
    hide MaxBatchFee, OnFailure, OnSent;
    assert script[i] in script[i..];
    assert script[i..][1..] == script[i + 1..];
    assert forall a :: a in script[i + 1..] ==> a in script[i..];
  }

  lemma {:induction false} RunOver(s: State, blobs: nat)
    requires s.fees.Valid()
    ensures Run(s, [], blobs) == (s, StillTrying)
  {}

  // ---------- how many transactions a run can send ----------

  function Pow2(n: nat): (p: nat)
    ensures p >= 1
  {
    if n == 0 then 1 else 2 * Pow2(n - 1)
  }

  lemma {:induction false} Pow2Sum(a: nat, b: nat)
    ensures Pow2(a + b) == Pow2(a) * Pow2(b)
  {
    if a > 0 {
      Pow2Sum(a - 1, b);
    }
  }

  lemma {:induction false} MaxFeesBelowPow2()
    ensures MAX_FEES < Pow2(MAX_SENDS)
  {
    Pow2Of7();
    hide Pow2;
    Pow2Sum(7, 7);
    Pow2Sum(14, 14);
    Pow2Sum(28, 28);
    assert Pow2(56) == 0x100_0000_0000_0000;
    Pow2Step(56);
  }

  lemma {:induction false} Pow2Of7()
    ensures Pow2(7) == 128
  {
    assert Pow2(4) == 16;
  }

  lemma {:induction false} Pow2Step(n: nat)
    ensures Pow2(n + 1) == 2 * Pow2(n)
  {}

  // `k` transactions were sent since the hints were last estimated.
  ghost predicate Inv(s: State, k: nat) {
    && s.fees.Valid() && k <= MAX_SENDS
    && s.sent <= MAX_SENDS * s.refreshes + k
    && s.fees.maxFee >= Pow2(k)
    && (s.gasLimit.Some? ==> s.gasLimit.value > 0)
  }

  lemma {:induction false} ProductAtLeast(a: nat, b: nat)
    requires b > 0
    ensures a * b >= a
  {}

  lemma {:induction false} AffordableFees(fees: Hints, gasLimit: nat, blobs: nat)
    requires gasLimit > 0 && MaxBatchFee(fees, gasLimit, blobs) <= MAX_FEES
    ensures fees.maxFee <= MAX_FEES
    ensures blobs > 0 ==> fees.blobFee <= MAX_FEES
  {
    ProductAtLeast(fees.maxFee, gasLimit);
    if blobs > 0 {
      ProductAtLeast(fees.blobFee, Saturated(blobs * BYTES_PER_BLOB));
    }
  }

  lemma {:induction false} SentKeepsInv(s: State, a: Attempt, gas: nat, k: nat)
    requires Inv(s, k) && k < MAX_SENDS && gas > 0
    ensures var step := OnSent(s, a, gas);
            && (step.Continue? ==> Inv(step.state, k + 1))
            && step.state.sent == s.sent + 1 && step.state.refreshes == s.refreshes
  {}

  lemma {:induction false} FailureKeepsInv(s: State, a: Attempt, failure: Failure, k: nat) returns (next: nat)
    requires Inv(s, k) && (a.freshHints.Some? ==> a.freshHints.value.Valid() && a.freshHints.value.maxFee > 0)
    ensures var step := OnFailure(s, a, failure);
            && (step.Continue? ==> Inv(step.state, next))
            && step.state.sent == s.sent && step.state.refreshes >= s.refreshes
  {
    hide Hints.BumpedTo, Hints.Bumps, Hints.WithNextBlockIncrease;
    RaisesStayValid(s.fees);
    RaisesKeepFees(s.fees, a);
    next := if OnFailure(s, a, failure).state.refreshes > s.refreshes then 0 else k;
  }

  lemma {:induction false} TriedKeepsInv(s: State, a: Attempt, blobs: nat, k: nat) returns (next: nat)
    requires Inv(s, k) && a.estimatedGas > 0
    requires a.freshHints.Some? ==> a.freshHints.value.Valid() && a.freshHints.value.maxFee > 0
    ensures Tried(s, a, blobs).Continue? ==> Inv(Tried(s, a, blobs).state, next)
    ensures Tried(s, a, blobs).state.sent <= MAX_SENDS * (Tried(s, a, blobs).state.refreshes + 1)
  {
    hide MaxBatchFee, OnSent, OnFailure;
    var t := s.(attempts := s.attempts + 1);
    var gas := s.gasLimit.GetOr(a.estimatedGas);
    next := k;
    if a.fill.Some? {
      next := FailureKeepsInv(t, a, a.fill.value, k);
    } else if MaxBatchFee(s.fees, gas, blobs) <= MAX_FEES {
      if a.send.Some? {
        next := FailureKeepsInv(t, a, a.send.value, k);
      } else {
        AffordableFees(s.fees, gas, blobs);
        MaxFeesBelowPow2();
        assert k != MAX_SENDS;
        SentKeepsInv(t, a, gas, k);
        next := k + 1;
      }
    }
  }

  lemma {:induction false} RaisesKeepFees(fees: Hints, a: Attempt)
    requires fees.Valid()
    ensures fees.maxFee <= fees.WithNextBlockIncrease().maxFee
    ensures forall n :: fees.maxFee <= fees.BumpedTo(n).maxFee && fees.BumpedTo(n).Valid()
  {
    IncreasedBySum(fees.BaseFee());
    forall n ensures fees.maxFee <= fees.BumpedTo(n).maxFee && fees.BumpedTo(n).Valid() {
      BumpCovers(fees, n);
    }
  }

  /**
   However the node answers, the loop sends at most 57 transactions for each time it starts from
   estimated hints: after 56 doublings the fee cap stops it.
   */
  lemma {:induction false} SendsBounded(s: State, script: seq<Attempt>, blobs: nat, k: nat)
    requires Inv(s, k) && ScriptValid(script) && ScriptPositive(script)
    ensures var t := Run(s, script, blobs).0; t.sent <= MAX_SENDS * (t.refreshes + 1)
    decreases |script|
  {
    if script != [] {
      assert script[0] in script;
      var next := TriedKeepsInv(s, script[0], blobs, k);
      var step := Tried(s, script[0], blobs);
      if step.Continue? {
        assert forall a :: a in script[1..] ==> a in script;
        SendsBounded(step.state, script[1..], blobs, next);
      }
    }
  }

  /** Never mined and never re-estimated, a proposal gives up after at most 57 transactions. */
  lemma {:induction false} AcceptedRunSendsAtMost57(initial: Hints, script: seq<Attempt>, blobs: nat)
    requires initial.Valid() && initial.maxFee > 0
    requires ScriptPositive(script)
    requires forall a :: a in script ==> a.fill.None? && a.send.None? && a.inclusion.NotIncluded? && !a.pastDeadline
    requires forall a :: a in script ==> a.freshHints.None?
    ensures Run(Start(initial), script, blobs).0.sent <= MAX_SENDS
    ensures |script| > MAX_SENDS ==> Run(Start(initial), script, blobs).1.FeesTooHigh?
  {
    SendsBounded(Start(initial), script, blobs, 0);
    AcceptedRun(Start(initial), script, blobs);
  }

  lemma {:induction false} AcceptedRun(s: State, script: seq<Attempt>, blobs: nat)
    requires s.fees.Valid() && ScriptValid(script)
    requires forall a :: a in script ==> a.fill.None? && a.send.None? && a.inclusion.NotIncluded? && !a.pastDeadline
    ensures var (t, outcome) := Run(s, script, blobs);
            && t.refreshes == s.refreshes
            && (outcome.FeesTooHigh? || (outcome.StillTrying? && t.sent == s.sent + |script|))
    decreases |script|
  {
    hide MaxBatchFee;
    if script != [] {
      assert script[0] in script;
      var step := Tried(s, script[0], blobs);
      if step.Continue? {
        assert forall a :: a in script[1..] ==> a in script;
        AcceptedRun(step.state, script[1..], blobs);
      }
    }
  }

  /** When the loop doubles the hints of a blob transaction, they are far from the u128 bound. */
  lemma {:induction false} DoublingDoesNotOverflow(s: State, a: Attempt, blobs: nat)
    requires s.fees.Valid() && blobs > 0 && s.gasLimit.GetOr(a.estimatedGas) > 0
    requires Tried(s, a, blobs).Continue? && Tried(s, a, blobs).state.sent > s.sent
    ensures var d := Tried(s, a, blobs).state.fees;
            && d == s.fees.Doubled()
            && d.maxPriorityFee <= d.maxFee <= 2 * MAX_FEES < U128_MAX && d.blobFee <= 2 * MAX_FEES
  {
    hide MaxBatchFee;
    AffordableFees(s.fees, s.gasLimit.GetOr(a.estimatedGas), blobs);
  }

  // ---------- the gas limit of retries ----------

  /**
   The gas limit for retries is twice the estimate, cut off at MIN_GAS_LIMIT. It is at least the
   estimate if and only if the estimate is at most MIN_GAS_LIMIT.
   */
  lemma {:induction false} RetryGasLimitIff(s: State, a: Attempt, blobs: nat)
    requires s.fees.Valid() && s.gasLimit.None? && Tried(s, a, blobs).state.sent > s.sent
    ensures var r := Tried(s, a, blobs).state.gasLimit;
            r.Some? && (r.value >= a.estimatedGas <==> a.estimatedGas <= MIN_GAS_LIMIT)
  {
    hide MaxBatchFee;
  }

  /** A gas limit once set stays for the rest of the run. */
  lemma {:induction false} GasLimitStays(s: State, script: seq<Attempt>, blobs: nat)
    requires s.fees.Valid() && ScriptValid(script) && s.gasLimit.Some?
    ensures Run(s, script, blobs).0.gasLimit == s.gasLimit
    decreases |script|
  {
    hide MaxBatchFee;
    if script != [] {
      assert script[0] in script;
      var step := Tried(s, script[0], blobs);
      if step.Continue? {
        assert forall a :: a in script[1..] ==> a in script;
        GasLimitStays(step.state, script[1..], blobs);
      }
    }
  }

  /** An estimate of six million gas is sent first with that limit, then with five million. */
  lemma {:induction false} RetryGasTooLow(nonce: nat)
    ensures var a := Attempt(None, nonce, 6_000_000, None, NotIncluded, false, None);
            var r := Tried(Start(Hints(1, 2, 1)), a, 1);
            r.Continue? && r.state.gasLimit == Some(5_000_000)
  {}

  // ---------- how many attempts a run can make ----------

  // More than the raises by an eighth it takes from 1 to MAX_FEES.
  const MAX_RAISES: nat := 6 * MAX_SENDS

  function Grown(k: nat): (fee: nat)
    ensures fee >= 1
  {
    if k == 0 then 1 else Increased(Grown(k - 1))
  }

  lemma {:induction false} RaiseAtLeast(fee: nat, other: nat)
    requires fee <= other
    ensures 9 * fee <= 8 * Increased(fee) && fee < Increased(fee) <= Increased(other)
    ensures fee >= 1 ==> Increased(fee) <= 2 * fee
  {
    IncreasedBySum(fee);
    IncreasedBySum(other);
  }

  lemma {:induction false} SixRaisesDouble(k: nat)
    ensures Grown(k + 6) >= 2 * Grown(k)
  {
    hide Increased;
    RaiseAtLeast(Grown(k), Grown(k));
    RaiseAtLeast(Grown(k + 1), Grown(k + 1));
    RaiseAtLeast(Grown(k + 2), Grown(k + 2));
    RaiseAtLeast(Grown(k + 3), Grown(k + 3));
    RaiseAtLeast(Grown(k + 4), Grown(k + 4));
    RaiseAtLeast(Grown(k + 5), Grown(k + 5));
  }

  lemma {:induction false} GrownAtLeastPow2(j: nat)
    ensures Grown(6 * j) >= Pow2(j)
  {
    hide Increased;
    if j > 0 {
      GrownAtLeastPow2(j - 1);
      SixRaisesDouble(6 * (j - 1));
    }
  }

  // The node estimates some gas, and fresh hints were raised once.
  predicate Sane(a: Attempt) {
    a.estimatedGas > 0 && (a.freshHints.Some? ==> a.freshHints.value.Valid() && a.freshHints.value.BaseFee() >= 1)
  }

  // The hints are raised to a base fee that the node names, rather than estimated anew.
  predicate Bumped(fees: Hints, failure: Failure) {
    failure.BaseFeeTooLow? && failure.newBaseFee.Some? && fees.Bumps(failure.newBaseFee.value)
  }

  // The attempt fails and raises the hints in a way that the fee cap does not end: filling fails, before
  // the cap is checked, or the hints are raised just to the base fee the node names.
  predicate IsIdle(fees: Hints, a: Attempt) {
    if a.fill.Some? then a.fill.value.BlobGasTooLow? || Bumped(fees, a.fill.value)
    else a.send.Some? && Bumped(fees, a.send.value)
  }

  // How many idle attempts a run makes.
  function IdleCount(s: State, script: seq<Attempt>, blobs: nat): nat
    requires s.fees.Valid() && ScriptValid(script)
    decreases |script|
  {
    if script == [] then 0
    else
      assert script[0] in script;
      (if IsIdle(s.fees, script[0]) then 1 else 0) +
      match Tried(s, script[0], blobs)
      case Stop(_, _) => 0
      case Continue(t) => IdleCount(t, script[1..], blobs)
  }

  // Apart from `idle` ones, `k` attempts were made since the hints were last estimated.
  ghost predicate AttemptsInv(s: State, k: nat, idle: nat) {
    && s.fees.Valid() && k <= MAX_RAISES && s.fees.BaseFee() >= Grown(k)
    && s.attempts <= (MAX_RAISES + 1) * s.refreshes + k + idle
    && (s.gasLimit.Some? ==> s.gasLimit.value > 0)
  }

  lemma {:induction false} DoubledBaseFee(h: Hints)
    requires h.Valid()
    ensures h.Doubled().Valid() && h.Doubled().BaseFee() == 2 * h.BaseFee()
    ensures h.WithNextBlockIncrease().Valid() && h.WithNextBlockIncrease().BaseFee() == Increased(h.BaseFee())
  {}

  // One more attempt with raised hints.
  lemma {:induction false} RaisedOnce(s: State, t: State, k: nat, idle: nat)
    requires AttemptsInv(s, k, idle) && k < MAX_RAISES && t.fees.Valid()
    requires t.fees.BaseFee() >= Increased(s.fees.BaseFee())
    requires t.attempts == s.attempts + 1 && t.refreshes == s.refreshes && (t.gasLimit.Some? ==> t.gasLimit.value > 0)
    ensures AttemptsInv(t, k + 1, idle)
  {
    RaiseAtLeast(Grown(k), s.fees.BaseFee());
    hide Increased;
  }

  // Within the fee cap, few attempts were made so far.
  lemma {:induction false} FewAttempts(s: State, gas: nat, blobs: nat, k: nat, idle: nat)
    requires AttemptsInv(s, k, idle) && gas > 0 && MaxBatchFee(s.fees, gas, blobs) <= MAX_FEES
    ensures k < MAX_RAISES
  {
    hide MaxBatchFee, Increased, Pow2, Grown;
    AffordableFees(s.fees, gas, blobs);
    GrownAtLeastPow2(MAX_SENDS);
    MaxFeesBelowPow2();
    assert k != MAX_RAISES;
  }

  // An idle attempt lowers nothing.
  lemma {:induction false} IdleKeeps(s: State, a: Attempt, blobs: nat, k: nat, idle: nat)
    requires AttemptsInv(s, k, idle) && IsIdle(s.fees, a) && Tried(s, a, blobs).Continue?
    ensures AttemptsInv(Tried(s, a, blobs).state, k, idle + 1)
  {
    hide Increased, MaxBatchFee, Hints.WithNextBlockIncrease, Hints.BumpedTo, Hints.Bumps;
    DoubledBaseFee(s.fees);
    RaiseAtLeast(s.fees.BaseFee(), s.fees.BaseFee());
    var failure := if a.fill.Some? then a.fill.value else a.send.value;
    if Bumped(s.fees, failure) {
      BumpCovers(s.fees, failure.newBaseFee.value);
    }
  }

  // Estimating the hints anew starts the count again.
  lemma {:induction false} RefreshKeeps(s: State, a: Attempt, blobs: nat, k: nat, idle: nat)
    requires AttemptsInv(s, k, idle) && Sane(a) && Tried(s, a, blobs).Continue?
    requires Tried(s, a, blobs).state.refreshes > s.refreshes
    ensures AttemptsInv(Tried(s, a, blobs).state, 0, idle)
  {
    hide MaxBatchFee, Increased;
  }

  // Any other attempt raises the fees, once it is within the cap, or ends the run.
  lemma {:induction false} RaisingKeeps(s: State, a: Attempt, blobs: nat, k: nat, idle: nat)
    requires AttemptsInv(s, k, idle) && Sane(a) && !IsIdle(s.fees, a) && Tried(s, a, blobs).Continue?
    requires Tried(s, a, blobs).state.refreshes == s.refreshes
    ensures AttemptsInv(Tried(s, a, blobs).state, k + 1, idle)
  {
    hide MaxBatchFee, Increased, Grown, Hints.Doubled, Hints.WithNextBlockIncrease;
    var step := Tried(s, a, blobs);
    FewAttempts(s, s.gasLimit.GetOr(a.estimatedGas), blobs, k, idle);
    DoubledBaseFee(s.fees);
    BaseFeePositive(s, k, idle);
    RaiseAtLeast(s.fees.BaseFee(), s.fees.BaseFee());
    RaisedOnce(s, step.state, k, idle);
  }

  lemma {:induction false} TriedKeepsAttempts(s: State, a: Attempt, blobs: nat, k: nat, idle: nat) returns (next: nat)
    requires AttemptsInv(s, k, idle) && Sane(a)
    ensures Tried(s, a, blobs).Continue? ==>
              AttemptsInv(Tried(s, a, blobs).state, next, idle + if IsIdle(s.fees, a) then 1 else 0)
    ensures Tried(s, a, blobs).state.attempts == s.attempts + 1 && Tried(s, a, blobs).state.refreshes >= s.refreshes
  {
    hide MaxBatchFee, Increased, Grown, AttemptsInv, Sane;
    AttemptsValid(s, k, idle);
    TriedOnce(s, a, blobs);
    hide Tried, OnFailure;
    next := k + 1;
    if Tried(s, a, blobs).Continue? {
      if IsIdle(s.fees, a) {
        IdleKeeps(s, a, blobs, k, idle);
        next := k;
      } else if Tried(s, a, blobs).state.refreshes > s.refreshes {
        RefreshKeeps(s, a, blobs, k, idle);
        next := 0;
      } else {
        RaisingKeeps(s, a, blobs, k, idle);
      }
    }
  }

  lemma {:induction false} AttemptsValid(s: State, k: nat, idle: nat)
    requires AttemptsInv(s, k, idle)
    ensures s.fees.Valid() && k <= MAX_RAISES && s.attempts <= (MAX_RAISES + 1) * s.refreshes + k + idle
  {}

  lemma {:induction false} TriedOnce(s: State, a: Attempt, blobs: nat)
    requires s.fees.Valid()
    ensures Tried(s, a, blobs).state.attempts == s.attempts + 1 && Tried(s, a, blobs).state.refreshes >= s.refreshes
    ensures Tried(s, a, blobs).Stop? ==> Tried(s, a, blobs).outcome != StillTrying
  {
    hide MaxBatchFee;
  }

  lemma {:induction false} BaseFeePositive(s: State, k: nat, idle: nat)
    requires AttemptsInv(s, k, idle)
    ensures s.fees.BaseFee() >= 1
  {}

  /**
   However the node answers, at most 343 attempts are made for each time the hints are estimated,
   not counting idle ones.
   */
  lemma {:induction false} AttemptsBounded(s: State, script: seq<Attempt>, blobs: nat, k: nat, idle: nat)
    requires AttemptsInv(s, k, idle) && ScriptValid(script) && forall a :: a in script ==> Sane(a)
    ensures var t := Run(s, script, blobs).0;
            t.attempts <= (MAX_RAISES + 1) * (t.refreshes + 1) + idle + IdleCount(s, script, blobs)
    decreases |script|
  {
    AttemptsValid(s, k, idle);
    hide Sane, Tried, Grown, IsIdle, AttemptsInv;
    if script != [] {
      assert script[0] in script;
      var next := TriedKeepsAttempts(s, script[0], blobs, k, idle);
      var step := Tried(s, script[0], blobs);
      if step.Continue? {
        assert forall a :: a in script[1..] ==> a in script;
        var more := if IsIdle(s.fees, script[0]) then idle + 1 else idle;
        AttemptsValid(step.state, next, more);
        AttemptsBounded(step.state, script[1..], blobs, next, more);
      }
    }
  }

  /** The same for a proposal from the start; hints from an estimate leave a base fee of at least one. */
  lemma {:induction false} ProposalAttempts(initial: Hints, script: seq<Attempt>, blobs: nat)
    requires initial.Valid() && initial.BaseFee() >= 1
    requires ScriptValid(script) && forall a :: a in script ==> Sane(a)
    ensures var t := Run(Start(initial), script, blobs).0;
            t.attempts <= (MAX_RAISES + 1) * (t.refreshes + 1) + IdleCount(Start(initial), script, blobs)
  {
    AttemptsBounded(Start(initial), script, blobs, 0, 0);
  }

  // ---------- which attempts can go on for ever ----------

  function Repeated(a: Attempt, n: nat): (r: seq<Attempt>)
    ensures |r| == n && forall x :: x in r ==> x == a
  {
    seq(n, _ => a)
  }

  // The attempt fails, and as long as it keeps failing in this way nothing ends it: filling fails because
  // of the blob fee or of a base fee not below the hints', or sending fails because of such a base
  // fee that the fee cap allows.
  predicate Endless(s: State, a: Attempt, blobs: nat) {
    && IsIdle(s.fees, a)
    && (a.fill.None? ==>
          var gas := s.gasLimit.GetOr(a.estimatedGas);
          && MaxBatchFee(s.fees, gas, blobs) <= MAX_FEES
          && MaxBatchFee(s.fees.BumpedTo(a.send.value.newBaseFee.value), gas, blobs) <= MAX_FEES)
  }

  // The run goes on through all these attempts, on the hints it has.
  predicate GoesOn(s: State, a: Attempt, blobs: nat, n: nat)
    requires s.fees.Valid() && (a.freshHints.Some? ==> a.freshHints.value.Valid())
  {
    var (t, outcome) := Run(s, Repeated(a, n), blobs);
    outcome == StillTrying && t.refreshes == s.refreshes
  }

  lemma {:induction false} BumpedTwice(h: Hints, baseFee: nat)
    requires h.Valid() && h.Bumps(baseFee)
    ensures var b := h.BumpedTo(baseFee); b.Valid() && b.Bumps(baseFee) && b.BumpedTo(baseFee) == b
  {}

  lemma {:induction false} EndlessStep(s: State, a: Attempt, blobs: nat)
    requires s.fees.Valid() && Endless(s, a, blobs)
    ensures var step := Tried(s, a, blobs);
            && step.Continue? && Endless(step.state, a, blobs) && step.state.fees.Valid()
            && step.state.attempts == s.attempts + 1 && step.state.refreshes == s.refreshes && step.state.sent == s.sent
  {
    hide MaxBatchFee, Increased, Hints.BumpedTo, Hints.Bumps, Hints.WithNextBlockIncrease;
    RaisesStayValid(s.fees);
    var failure := if a.fill.Some? then a.fill.value else a.send.value;
    if Bumped(s.fees, failure) {
      BumpedTwice(s.fees, failure.newBaseFee.value);
    }
  }

  lemma {:induction false} RepeatedStep(s: State, a: Attempt, blobs: nat, n: nat)
    requires n > 0 && s.fees.Valid() && (a.freshHints.Some? ==> a.freshHints.value.Valid())
    ensures Run(s, Repeated(a, n), blobs) ==
            match Tried(s, a, blobs)
            case Stop(t, outcome) => (t, outcome)
            case Continue(t) => Run(t, Repeated(a, n - 1), blobs)
    ensures IdleCount(s, Repeated(a, n), blobs) ==
            (if IsIdle(s.fees, a) then 1 else 0) +
            match Tried(s, a, blobs)
            case Stop(_, _) => 0
            case Continue(t) => IdleCount(t, Repeated(a, n - 1), blobs)
  {
    hide Tried, IsIdle;
    assert Repeated(a, n)[0] == a && Repeated(a, n)[1..] == Repeated(a, n - 1);
  }

  /**
   Endless attempts have no bound: the loop reaches neither the fee cap nor the deadline, estimates
   nothing anew and sends nothing.
   */
  lemma {:induction false} AttemptsUnbounded(s: State, a: Attempt, blobs: nat, n: nat)
    requires s.fees.Valid() && (a.freshHints.Some? ==> a.freshHints.value.Valid()) && Endless(s, a, blobs)
    ensures var (t, outcome) := Run(s, Repeated(a, n), blobs);
            outcome == StillTrying && t.attempts == s.attempts + n && t.sent == s.sent && t.refreshes == s.refreshes
    decreases n
  {
    hide Tried, Endless;
    if n > 0 {
      RepeatedStep(s, a, blobs, n);
      EndlessStep(s, a, blobs);
      AttemptsUnbounded(Tried(s, a, blobs).state, a, blobs, n - 1);
    }
  }

  // Attempts of this kind are idle for no hints.
  predicate NeverIdle(a: Attempt) {
    a.fill.None? && (a.send.None? || a.send.value.BlobGasTooLow?)
  }

  lemma {:induction false} NoneIdle(s: State, a: Attempt, blobs: nat, n: nat)
    requires s.fees.Valid() && (a.freshHints.Some? ==> a.freshHints.value.Valid()) && NeverIdle(a)
    ensures IdleCount(s, Repeated(a, n), blobs) == 0
    ensures Run(s, Repeated(a, n), blobs).1 == StillTrying ==> Run(s, Repeated(a, n), blobs).0.attempts == s.attempts + n
    decreases n
  {
    hide Tried;
    if n > 0 {
      RepeatedStep(s, a, blobs, n);
      TriedOnce(s, a, blobs);
      var step := Tried(s, a, blobs);
      if step.Continue? {
        TriedValid(s, a, blobs);
        NoneIdle(step.state, a, blobs, n - 1);
      }
    }
  }

  lemma {:induction false} TriedValid(s: State, a: Attempt, blobs: nat)
    requires s.fees.Valid() && (a.freshHints.Some? ==> a.freshHints.value.Valid())
    ensures Tried(s, a, blobs).Continue? ==> Tried(s, a, blobs).state.fees.Valid()
  {
    hide MaxBatchFee, Hints.BumpedTo, Hints.WithNextBlockIncrease, Hints.Bumps;
    RaisesStayValid(s.fees);
  }

  // Two attempts that go on are endless, unless they are of the kind that raises the fees to the cap.
  lemma {:induction false} TwoAttempts(s: State, a: Attempt, blobs: nat)
    requires s.fees.Valid() && (a.freshHints.Some? ==> a.freshHints.value.Valid()) && !NeverIdle(a)
    requires var one := Tried(s, a, blobs);
             && one.Continue? && one.state.refreshes == s.refreshes && one.state.fees.Valid()
             && Tried(one.state, a, blobs).Continue?
    ensures Endless(s, a, blobs)
  {
    hide MaxBatchFee, Increased, Hints.BumpedTo, Hints.Bumps, Hints.WithNextBlockIncrease, Hints.Doubled;
  }

  lemma {:induction false} GoesOnTwice(s: State, a: Attempt, blobs: nat)
    requires s.fees.Valid() && (a.freshHints.Some? ==> a.freshHints.value.Valid())
    requires GoesOn(s, a, blobs, 1) && GoesOn(s, a, blobs, 2)
    ensures var one := Tried(s, a, blobs);
            && one.Continue? && one.state.refreshes == s.refreshes && one.state.fees.Valid()
            && Tried(one.state, a, blobs).Continue?
  {
    hide Tried;
    assert Repeated(a, 0) == [];
    TriedOnce(s, a, blobs);
    TriedValid(s, a, blobs);
    RepeatedStep(s, a, blobs, 1);
    RepeatedStep(s, a, blobs, 2);
    var one := Tried(s, a, blobs);
    if one.Continue? {
      RepeatedStep(one.state, a, blobs, 1);
      TriedOnce(one.state, a, blobs);
    }
  }

  /**
   Which answers keep a proposal going for ever: repeated, an attempt goes on without bound and without
   the hints being estimated anew if and only if it is endless.
   */
  lemma {:induction false} EndlessIff(initial: Hints, a: Attempt, blobs: nat)
    requires initial.Valid() && initial.BaseFee() >= 1 && Sane(a)
    ensures (forall n: nat :: GoesOn(Start(initial), a, blobs, n)) <==> Endless(Start(initial), a, blobs)
  {
    hide Tried, Endless, Sane, IsIdle, MaxBatchFee;
    var s := Start(initial);
    SaneValid(a);
    if Endless(s, a, blobs) {
      forall n: nat ensures GoesOn(s, a, blobs, n) {
        AttemptsUnbounded(s, a, blobs, n);
      }
    }
    if forall n: nat :: GoesOn(s, a, blobs, n) {
      assert GoesOn(s, a, blobs, 1) && GoesOn(s, a, blobs, 2) && GoesOn(s, a, blobs, MAX_RAISES + 2);
      GoesOnTwice(s, a, blobs);
      if !NeverIdle(a) {
        TwoAttempts(s, a, blobs);
      } else {
        NoneIdle(s, a, blobs, MAX_RAISES + 2);
        ProposalAttempts(initial, Repeated(a, MAX_RAISES + 2), blobs);
        assert false;
      }
    }
  }

  lemma {:induction false} SaneValid(a: Attempt)
    requires Sane(a)
    ensures a.freshHints.Some? ==> a.freshHints.value.Valid()
  {}
}
