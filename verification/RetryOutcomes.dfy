/** How a proposal ends, told from the answers to its attempts, and what its hints are when it tries again. */
module RetryOutcomes {
  import opened Integers
  import opened Wrappers
  import opened Fees
  import opened Retries

  // ---------- runs in parts ----------

  lemma {:induction false} RunValid(s: State, script: seq<Attempt>, blobs: nat)
    requires s.fees.Valid() && ScriptValid(script)
    ensures Run(s, script, blobs).1.StillTrying? ==> Run(s, script, blobs).0.fees.Valid()
    decreases |script|
  {
    hide Tried;
    if script != [] {
      assert script[0] in script;
      TriedValid(s, script[0], blobs);
      TriedOnce(s, script[0], blobs);
      var step := Tried(s, script[0], blobs);
      if step.Continue? {
        RunValid(step.state, script[1..], blobs);
      }
    }
  }

  /** A run that is still trying goes on with the attempts that follow; any other has ended. */
  lemma {:induction false} RunConcat(s: State, a: seq<Attempt>, b: seq<Attempt>, blobs: nat)
    requires s.fees.Valid() && ScriptValid(a) && ScriptValid(b)
    ensures ScriptValid(a + b)
    ensures var (t, outcome) := Run(s, a, blobs);
            && (outcome.StillTrying? ==> t.fees.Valid() && Run(s, a + b, blobs) == Run(t, b, blobs))
            && (!outcome.StillTrying? ==> Run(s, a + b, blobs) == (t, outcome))
    decreases |a|
  {
    hide Tried;
    if a == [] {
      assert a + b == b;
    } else {
      assert (a + b)[0] == a[0] && (a + b)[1..] == a[1..] + b && a[0] in a;
      TriedValid(s, a[0], blobs);
      TriedOnce(s, a[0], blobs);
      var step := Tried(s, a[0], blobs);
      if step.Continue? {
        RunConcat(step.state, a[1..], b, blobs);
      }
    }
  }

  lemma {:induction false} PartsValid(script: seq<Attempt>, k: nat)
    requires k <= |script| && ScriptValid(script)
    ensures ScriptValid(script[..k]) && ScriptValid(script[k..])
    ensures k < |script| ==> (script[k].freshHints.Some? ==> script[k].freshHints.value.Valid())
  {
    assert forall a :: a in script[..k] ==> a in script;
    assert forall a :: a in script[k..] ==> a in script;
    assert k < |script| ==> script[k] in script;
  }

  lemma {:induction false} OneAttempt(s: State, a: Attempt, blobs: nat)
    requires s.fees.Valid() && (a.freshHints.Some? ==> a.freshHints.value.Valid())
    ensures Run(s, [a], blobs) ==
            match Tried(s, a, blobs)
            case Stop(t, outcome) => (t, outcome)
            case Continue(t) => (t, StillTrying)
  {
    hide Tried;
    TriedValid(s, a, blobs);
    assert [a][1..] == [];
  }

  // The run up to an attempt, and that attempt.
  lemma {:induction false} NextAttempt(s: State, script: seq<Attempt>, blobs: nat, k: nat)
    requires s.fees.Valid() && ScriptValid(script) && k < |script|
    ensures ScriptValid(script[..k]) && ScriptValid(script[..k + 1])
    ensures var (t, outcome) := Run(s, script[..k], blobs);
            outcome.StillTrying? ==>
              && t.fees.Valid()
              && Run(s, script[..k + 1], blobs) ==
                 match Tried(t, script[k], blobs)
                 case Stop(u, end) => (u, end)
                 case Continue(u) => (u, StillTrying)
  {
    hide Tried, Run, ScriptValid;
    PartsValid(script, k);
    PartsValid(script, k + 1);
    assert script[..k + 1] == script[..k] + [script[k]];
    OneValid(script[k]);
    RunConcat(s, script[..k], [script[k]], blobs);
    var (t, outcome) := Run(s, script[..k], blobs);
    if outcome.StillTrying? {
      OneAttempt(t, script[k], blobs);
    }
  }

  lemma {:induction false} OneValid(a: Attempt)
    requires a.freshHints.Some? ==> a.freshHints.value.Valid()
    ensures ScriptValid([a])
  {}

  // ---------- how a run ends ----------

  // The fees of a transaction with these hints.
  function TotalFees(s: State, a: Attempt, blobs: nat): nat {
    Saturated(s.fees.maxFee * s.gasLimit.GetOr(a.estimatedGas) + s.fees.blobFee * (blobs * BYTES_PER_BLOB))
  }

  // The transaction is filled in, within the fee cap, and accepted by the node.
  predicate IsSent(s: State, a: Attempt, blobs: nat) {
    a.fill.None? && TotalFees(s, a, blobs) <= MAX_FEES && a.send.None?
  }

  // Nothing can be done about the failure: it is not about fees, or new hints are needed and there are none.
  predicate Unrecoverable(s: State, a: Attempt, blobs: nat) {
    && (a.fill.Some? || (TotalFees(s, a, blobs) <= MAX_FEES && a.send.Some?))
    && var failure := if a.fill.Some? then a.fill.value else a.send.value;
       || failure.Fatal?
       || (failure.BaseFeeTooLow? && a.freshHints.None?
           && (failure.newBaseFee.None? || failure.newBaseFee.value + s.fees.maxPriorityFee < s.fees.maxFee))
  }

  // How the attempt ends the run, if it does.
  ghost predicate Ends(s: State, a: Attempt, blobs: nat, outcome: Outcome) {
    match outcome
    case Landed => IsSent(s, a, blobs) && a.inclusion.Included?
    case DeadlineReached => IsSent(s, a, blobs) && a.inclusion.NotIncluded? && a.pastDeadline
    case FeesTooHigh(total) => a.fill.None? && total == TotalFees(s, a, blobs) > MAX_FEES
    case Failed => (IsSent(s, a, blobs) && a.inclusion.LookupFailed?) || Unrecoverable(s, a, blobs)
    case StillTrying => false
  }

  lemma {:induction false} TriedEnds(s: State, a: Attempt, blobs: nat)
    requires s.fees.Valid()
    ensures Tried(s, a, blobs).Stop? ==> Ends(s, a, blobs, Tried(s, a, blobs).outcome)
    ensures Tried(s, a, blobs).Continue? ==> forall outcome :: !Ends(s, a, blobs, outcome)
    ensures Tried(s, a, blobs).state.sent == s.sent + if IsSent(s, a, blobs) then 1 else 0
  {
    MaxBatchFeeIsExact(s.fees, s.gasLimit.GetOr(a.estimatedGas), blobs);
    hide MaxBatchFee, Increased, Saturated, Hints.BumpedTo, Hints.Doubled, Hints.WithNextBlockIncrease;
  }

  lemma {:induction false} EndsOnce(s: State, a: Attempt, blobs: nat, x: Outcome, y: Outcome)
    requires Ends(s, a, blobs, x) && Ends(s, a, blobs, y)
    ensures x == y
  {
    hide TotalFees;
  }

  // The run is still trying up to attempt `k`, which ends it.
  ghost predicate EndsAt(s: State, script: seq<Attempt>, blobs: nat, k: nat, outcome: Outcome)
    requires s.fees.Valid() && ScriptValid(script) && k < |script|
  {
    PartsValid(script, k);
    && Run(s, script[..k], blobs).1.StillTrying?
    && Ends(Run(s, script[..k], blobs).0, script[k], blobs, outcome)
  }

  lemma {:induction false} EndFound(s: State, script: seq<Attempt>, blobs: nat) returns (k: nat)
    requires s.fees.Valid() && ScriptValid(script) && !Run(s, script, blobs).1.StillTrying?
    ensures k < |script| && EndsAt(s, script, blobs, k, Run(s, script, blobs).1)
    decreases |script|
  {
    hide Tried, Ends, Run, ScriptValid;
    NothingTried(s, blobs);
    assert script != [];
    var n := |script| - 1;
    PartsValid(script, n);
    NextAttempt(s, script, blobs, n);
    assert script[..n + 1] == script;
    if Run(s, script[..n], blobs).1.StillTrying? {
      k := n;
      TriedEnds(Run(s, script[..n], blobs).0, script[n], blobs);
    } else {
      assert script == script[..n] + script[n..];
      RunConcat(s, script[..n], script[n..], blobs);
      k := EndFound(s, script[..n], blobs);
      assert script[..n][..k] == script[..k];
    }
  }

  lemma {:induction false} NothingTried(s: State, blobs: nat)
    requires s.fees.Valid()
    ensures ScriptValid([]) && Run(s, [], blobs) == (s, StillTrying)
  {}

  /**
   A run ends with an outcome if and only if it reaches an attempt that ends it so. It lands exactly when a transaction is
   sent and included, past the deadline or not; it gives up at the deadline exactly when one is sent and not included
   and the deadline has passed; at the fee cap exactly when a transaction is filled in that costs more; and fails exactly
   when the chain cannot be looked up or the failure cannot be recovered from.
   */
  lemma {:induction false} OutcomeIff(s: State, script: seq<Attempt>, blobs: nat, outcome: Outcome)
    requires s.fees.Valid() && ScriptValid(script) && outcome != StillTrying
    ensures Run(s, script, blobs).1 == outcome <==> exists k: nat :: k < |script| && EndsAt(s, script, blobs, k, outcome)
  {
    hide Tried, Ends, Run, ScriptValid;
    if Run(s, script, blobs).1 == outcome {
      var k := EndFound(s, script, blobs);
    }
    if k: nat :| k < |script| && EndsAt(s, script, blobs, k, outcome) {
      NextAttempt(s, script, blobs, k);
      var t := Run(s, script[..k], blobs).0;
      TriedEnds(t, script[k], blobs);
      EndsOnce(t, script[k], blobs, Tried(t, script[k], blobs).outcome, outcome);
      TriedOnce(t, script[k], blobs);
      PartsValid(script, k + 1);
      assert script == script[..k + 1] + script[k + 1..];
      RunConcat(s, script[..k + 1], script[k + 1..], blobs);
    }
  }

  // ---------- attempts that are sent, one after the other ----------

  // The hints of attempt `n` when all attempts before it were sent.
  function HintsAt(initial: Hints, n: nat): Hints {
    Hints(Pow2(n) * initial.maxPriorityFee, Pow2(n) * initial.maxFee, Pow2(n) * initial.blobFee)
  }

  // Its gas limit: estimated for the first one, and fixed by that for all others.
  function GasAt(script: seq<Attempt>, n: nat): nat
    requires n < |script|
  {
    if n == 0 then script[0].estimatedGas else Min(2 * script[0].estimatedGas, MIN_GAS_LIMIT)
  }

  predicate SentAt(initial: Hints, script: seq<Attempt>, blobs: nat, n: nat)
    requires n < |script|
  {
    && script[n].fill.None? && script[n].send.None?
    && HintsAt(initial, n).maxFee * GasAt(script, n) + HintsAt(initial, n).blobFee * (blobs * BYTES_PER_BLOB) <= MAX_FEES
  }

  // The first `n` attempts are sent, and none is included or past the deadline.
  predicate UnminedBefore(initial: Hints, script: seq<Attempt>, blobs: nat, n: nat)
    requires n <= |script|
  {
    forall i :: 0 <= i < n ==>
      SentAt(initial, script, blobs, i) && script[i].inclusion.NotIncluded? && !script[i].pastDeadline
  }

  // The state of such a run: the same nonce and gas limit throughout, and doubled hints.
  function UnminedState(initial: Hints, script: seq<Attempt>, n: nat): State
    requires n <= |script|
  {
    if n == 0 then Start(initial)
    else State(HintsAt(initial, n), Some(script[0].nonce), Some(Min(2 * script[0].estimatedGas, MIN_GAS_LIMIT)), n, n, 0)
  }

  lemma {:induction false} SentStep(initial: Hints, script: seq<Attempt>, blobs: nat, n: nat)
    requires initial.Valid() && n < |script| && SentAt(initial, script, blobs, n)
    ensures var s, a := UnminedState(initial, script, n), script[n];
            && s.fees == HintsAt(initial, n) && s.fees.Valid()
            && Tried(s, a, blobs).state.sent == n + 1
            && (a.inclusion.NotIncluded? && !a.pastDeadline ==>
                  Tried(s, a, blobs) == Continue(UnminedState(initial, script, n + 1)))
            && (a.inclusion.NotIncluded? && a.pastDeadline ==> Ends(s, a, blobs, DeadlineReached))
            && (a.inclusion.Included? ==> Ends(s, a, blobs, Landed))
            && (a.inclusion.LookupFailed? ==> Ends(s, a, blobs, Failed))
  {
    HintsDouble(initial, n);
    var s, a := UnminedState(initial, script, n), script[n];
    MaxBatchFeeIsExact(s.fees, s.gasLimit.GetOr(a.estimatedGas), blobs);
    hide MaxBatchFee, HintsAt, Hints.Doubled;
  }

  lemma {:induction false} HintsDouble(initial: Hints, n: nat)
    requires initial.Valid()
    ensures HintsAt(initial, 0) == initial && HintsAt(initial, n).Valid()
    ensures HintsAt(initial, n + 1) == HintsAt(initial, n).Doubled()
  {
    assert Pow2(0) == 1;
    Pow2Step(n);
    hide Pow2;
    Twice(Pow2(n), initial.maxPriorityFee);
    Twice(Pow2(n), initial.maxFee);
    Twice(Pow2(n), initial.blobFee);
    Ordered(Pow2(n), initial.maxPriorityFee, initial.maxFee);
  }

  lemma {:induction false} Twice(p: nat, fee: nat)
    ensures 2 * p * fee == 2 * (p * fee)
  {}

  lemma {:induction false} Ordered(p: nat, a: nat, b: nat)
    requires a <= b
    ensures p * a <= p * b
  {}

  lemma {:induction false} UnminedRun(initial: Hints, script: seq<Attempt>, blobs: nat, n: nat)
    requires initial.Valid() && ScriptValid(script) && n <= |script| && UnminedBefore(initial, script, blobs, n)
    ensures ScriptValid(script[..n])
    ensures Run(Start(initial), script[..n], blobs) == (UnminedState(initial, script, n), StillTrying)
    decreases n
  {
    hide Tried, Ends, SentAt, Run, ScriptValid;
    PartsValid(script, n);
    if n == 0 {
      NothingTried(Start(initial), blobs);
      assert script[..0] == [];
    } else {
      UnminedRun(initial, script, blobs, n - 1);
      NextAttempt(Start(initial), script, blobs, n - 1);
      SentStep(initial, script, blobs, n - 1);
    }
  }

  /**
   From the answers alone: when `n` attempts were sent and not mined, and the next one is sent, the proposal has landed
   with `n + 1` transactions sent if that one is included, whether or not the deadline has passed; if not, it has given
   up exactly when the deadline has passed, and goes on with twice the hints otherwise.
   */
  lemma {:induction false} SentOutcome(initial: Hints, script: seq<Attempt>, blobs: nat, n: nat)
    requires initial.Valid() && ScriptValid(script) && n < |script|
    requires UnminedBefore(initial, script, blobs, n) && SentAt(initial, script, blobs, n)
    ensures ScriptValid(script[..n + 1])
    ensures var (t, outcome) := Run(Start(initial), script[..n + 1], blobs);
            var a := script[n];
            && t.sent == n + 1
            && outcome == (if a.inclusion.Included? then Landed
                           else if a.inclusion.LookupFailed? then Failed
                           else if a.pastDeadline then DeadlineReached
                           else StillTrying)
            && (outcome.StillTrying? ==> t == UnminedState(initial, script, n + 1))
            && (!outcome.StillTrying? ==> Run(Start(initial), script, blobs) == (t, outcome))
  {
    hide Tried, Ends, SentAt, Run, ScriptValid, UnminedBefore;
    var s, a := UnminedState(initial, script, n), script[n];
    UnminedRun(initial, script, blobs, n);
    NextAttempt(Start(initial), script, blobs, n);
    SentStep(initial, script, blobs, n);
    TriedEnds(s, a, blobs);
    if Tried(s, a, blobs).Stop? {
      var end := Tried(s, a, blobs).outcome;
      var expected := if a.inclusion.Included? then Landed else if a.inclusion.LookupFailed? then Failed else DeadlineReached;
      EndsOnce(s, a, blobs, end, expected);
      TriedOnce(s, a, blobs);
      PartsValid(script, n + 1);
      assert script == script[..n + 1] + script[n + 1..];
      RunConcat(Start(initial), script[..n + 1], script[n + 1..], blobs);
    }
  }

  // ---------- attempts that fail ----------

  // The nonce, and with it the transaction that is replaced, is that of the first one sent.
  lemma {:induction false} NonceStays(s: State, script: seq<Attempt>, blobs: nat)
    requires s.fees.Valid() && ScriptValid(script) && s.nonce.Some?
    ensures Run(s, script, blobs).0.nonce == s.nonce
    decreases |script|
  {
    hide MaxBatchFee;
    if script != [] {
      assert script[0] in script;
      var step := Tried(s, script[0], blobs);
      if step.Continue? {
        assert forall a :: a in script[1..] ==> a in script;
        NonceStays(step.state, script[1..], blobs);
      }
    }
  }

  // Filling in a transaction fails because of the blob fee.
  predicate BlobFeeRejected(a: Attempt) {
    a.fill == Some(BlobGasTooLow)
  }

  /**
   Each time the blob fee is rejected the hints are raised for one more block: after `n` rejections they pay for the base
   fee and the blob fee of `n` blocks later, however full those are, with the tip unchanged.
   */
  lemma {:induction false} RejectionsCovered(initial: Hints, script: seq<Attempt>, blobs: nat,
                                             baseFee: nat, blocks: seq<Usage>, blobFees: seq<nat>)
    requires initial.Valid() && ScriptValid(script) && forall i :: 0 <= i < |script| ==> BlobFeeRejected(script[i])
    requires baseFee <= initial.BaseFee() && AllValid(blocks) && |blocks| == |script|
    requires |blobFees| == |script| + 1 && EighthMore(blobFees) && blobFees[0] <= initial.blobFee
    ensures var (t, outcome) := Run(Start(initial), script, blobs);
            && outcome == StillTrying && t.sent == 0 && t.fees.Valid()
            && BaseFeeAfter(baseFee, blocks) <= t.fees.BaseFee() && t.fees.maxPriorityFee == initial.maxPriorityFee
            && blobFees[|script|] <= t.fees.blobFee
  {
    RejectedRun(Start(initial), script, blobs);
    hide Run, Raised, BaseFeeAfter;
    RaisedCovers(initial, baseFee, blocks);
    RaisedCoversBlobs(initial, blobFees);
  }

  lemma {:induction false} RejectedRun(s: State, script: seq<Attempt>, blobs: nat)
    requires s.fees.Valid() && ScriptValid(script) && forall i :: 0 <= i < |script| ==> BlobFeeRejected(script[i])
    ensures var (t, outcome) := Run(s, script, blobs);
            outcome == StillTrying && t == s.(fees := Raised(s.fees, |script|), attempts := s.attempts + |script|)
    decreases |script|
  {
    hide Hints.WithNextBlockIncrease, MaxBatchFee;
    RaisesStayValid(s.fees);
    if script != [] {
      assert script[0] in script && BlobFeeRejected(script[0]);
      assert Tried(s, script[0], blobs) ==
             Continue(s.(fees := s.fees.WithNextBlockIncrease(), attempts := s.attempts + 1));
      forall i | 0 <= i < |script[1..]| ensures BlobFeeRejected(script[1..][i]) {
        assert BlobFeeRejected(script[i + 1]);
      }
      RejectedRun(s.(fees := s.fees.WithNextBlockIncrease(), attempts := s.attempts + 1), script[1..], blobs);
    }
  }

  /**
   After a rejection because of the base fee that the run survives, the hints pay for exactly the base fee that was named
   and tip at least a tenth of it, or they were estimated anew; the latter if and only if no base fee was named or they
   did pay for it.
   */
  lemma {:induction false} BaseFeeFollowed(s: State, a: Attempt, blobs: nat)
    requires s.fees.Valid() && (a.freshHints.Some? ==> a.freshHints.value.Valid())
    requires (a.fill.Some? && a.fill.value.BaseFeeTooLow?)
             || (a.fill.None? && a.send.Some? && a.send.value.BaseFeeTooLow?)
    requires Tried(s, a, blobs).Continue?
    ensures var t := Tried(s, a, blobs).state;
            var newBaseFee := (if a.fill.Some? then a.fill.value else a.send.value).newBaseFee;
            && t.refreshes <= s.refreshes + 1 && t.sent == s.sent
            && (t.refreshes > s.refreshes <==> newBaseFee.None? || newBaseFee.value < s.fees.BaseFee())
            && (t.refreshes > s.refreshes ==> Some(t.fees) == a.freshHints)
            && (t.refreshes == s.refreshes ==>
                  && t.fees.Valid() && t.fees.BaseFee() == newBaseFee.value
                  && 10 * t.fees.maxPriorityFee + 9 >= newBaseFee.value && s.fees.AtMost(t.fees))
  {
    var newBaseFee := (if a.fill.Some? then a.fill.value else a.send.value).newBaseFee;
    if newBaseFee.Some? {
      BumpCovers(s.fees, newBaseFee.value);
    }
    hide MaxBatchFee, Hints.BumpedTo;
  }
}
