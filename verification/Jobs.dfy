/** The parts of the worker that only compute a value: what a job asks for, how long to wait
    after a failure, and how often to renew a lease. */
module Jobs {
  import opened Options
  import opened Hex
  import opened Domain
  import opened Outbox
  import opened StoreSpec
  import opened Verification

  const SECOND := 1_000_000_000
  const TEN_MILLISECONDS := 10_000_000

  const JOB_TOPICS := [RunPersisted, VerificationQueued, WebhookReceived]

  // ----- retry delays -----

  function Pow2(n: nat): nat {
    if n == 0 then 1 else 2 * Pow2(n - 1)
  }

  function RetryDelay(attempt: int): int {
    var clamped := if attempt < 1 then 1 else if attempt > 6 then 6 else attempt;
    Pow2(clamped - 1) * SECOND
  }

  /** The delays after attempts 1 up to n. */
  function TotalDelay(n: nat): int {
    if n == 0 then 0 else TotalDelay(n - 1) + RetryDelay(n)
  }

  /** In closed form: doubling for six attempts, then 32 seconds each. */
  lemma {:induction false} TotalDelayClosed(n: nat)
    ensures TotalDelay(n) == ((Pow2(if n < 6 then n else 6) - 1) + 32 * (if n < 6 then 0 else n - 6)) * SECOND
  {
    if n > 0 {
      TotalDelayClosed(n - 1);
      if n > 6 {
        assert Pow2(6) == 64 && Pow2(5) == 32;
      }
    }
  }

  /** The delays of a set of attempt numbers. */
  ghost function DelaySum(attempts: set<nat>): int {
    if attempts == {} then 0
    else
      var a :| a in attempts;
      RetryDelay(a) + DelaySum(attempts - {a})
  }

  lemma RetryDelayPositive(attempt: int)
    ensures RetryDelay(attempt) > 0
  {
    Pow2Positive(if attempt < 1 then 0 else if attempt > 6 then 5 else attempt - 1);
  }

  lemma {:induction false} Pow2Positive(n: nat)
    ensures Pow2(n) > 0
  {
    if n > 0 {
      Pow2Positive(n - 1);
    }
  }

  lemma {:induction false} DelaySumSplit(attempts: set<nat>, a: nat)
    requires a in attempts
    ensures DelaySum(attempts) == RetryDelay(a) + DelaySum(attempts - {a})
    decreases attempts
  {
    var b :| b in attempts && DelaySum(attempts) == RetryDelay(b) + DelaySum(attempts - {b});
    if a != b {
      DelaySumSplit(attempts - {b}, a);
      DelaySumSplit(attempts - {a}, b);
      assert attempts - {b} - {a} == attempts - {a} - {b};
    }
  }

  /** Retries at distinct attempt numbers up to n wait no longer than all of them would. */
  lemma {:induction false} DelaySumBound(attempts: set<nat>, n: nat)
    requires forall a :: a in attempts ==> 1 <= a <= n
    ensures DelaySum(attempts) <= TotalDelay(n)
  {
    if n == 0 {
      assert attempts == {};
    } else if n in attempts {
      DelaySumSplit(attempts, n);
      DelaySumBound(attempts - {n}, n - 1);
    } else {
      RetryDelayPositive(n);
      DelaySumBound(attempts, n - 1);
    }
  }

  // ----- lease renewal -----

  function HeartbeatInterval(lease: int): int {
    var third := if lease < 0 then -((-lease) / 3) else lease / 3;
    if third < TEN_MILLISECONDS then TEN_MILLISECONDS else third
  }

  /** One heartbeat fits into every lease from ten milliseconds on, and into no shorter one;
      three fit from thirty on, and then leave less than three nanoseconds; the shorter ones
      are renewed every ten. */
  lemma IntervalFits(lease: int)
    ensures HeartbeatInterval(lease) <= lease <==> lease >= TEN_MILLISECONDS
    ensures 3 * HeartbeatInterval(lease) <= lease <==> lease >= 30_000_000
    ensures if lease >= 30_000_000 then lease < 3 * HeartbeatInterval(lease) + 3 else HeartbeatInterval(lease) == 10_000_000
  {
  }

  // ----- what a job asks for -----

  datatype Outcome = Success | Permanent | Transient

  /** The fault of the message, else of the run, else duplicate. */
  function EffectiveFault(payload: Payload, run: Run): Fault
    requires payload.Fields?
  {
    if payload.verificationFault != Unset then payload.verificationFault
    else if run.fault != Unset then run.fault
    else Duplicate
  }

  /** A message's own fault is used whatever the run's is, and the run's only without it. */
  lemma EffectiveFaultIs(runID: string, f: Fault, e: string, t: string, run: Run)
    ensures f != Unset ==> EffectiveFault(Fields(runID, f, e, t), run) == f
    ensures f != Unset ==> EffectiveFault(Fields(runID, Unset, e, t), run.(fault := f)) == f
    ensures EffectiveFault(Fields(runID, Unset, e, t), run.(fault := Unset)) == Duplicate
  {
  }

  function EffectID(runID: string): string {
    "merchant_effect_" + runID
  }

  lemma EffectIDInjective(a: string, b: string)
    ensures EffectID(a) == EffectID(b) <==> a == b
  {
    assert EffectID(a)[16..] == a && EffectID(b)[16..] == b;
  }

  /** The unsigned delivery that verifies a run. */
  function Envelope(run: Run, sha: string -> Hash): Delivery {
    Delivery("", "verify_" + run.id, EffectID(run.id), run.id, 1,
             EncodeToString(sha(run.id + "\n" + run.stripeObjectID + "\n" + run.environment)), "")
  }

  lemma DigestedText(run: Run)
    ensures run.id + "\n" + run.stripeObjectID + "\n" + run.environment
         == run.id + "\n" + (run.stripeObjectID + "\n" + run.environment)
  {
  }

  /** Runs are verified by equal envelopes exactly if they agree in identifier, object and
      environment, if identifiers and objects hold no line break and the digests differ. */
  lemma EnvelopesDiffer(a: Run, b: Run, sha: string -> Hash)
    requires OneLine(a.id) && OneLine(b.id) && OneLine(a.stripeObjectID) && OneLine(b.stripeObjectID)
    requires var x, y := a.id + "\n" + a.stripeObjectID + "\n" + a.environment,
                 b.id + "\n" + b.stripeObjectID + "\n" + b.environment;
      sha(x) == sha(y) ==> x == y
    ensures Envelope(a, sha) == Envelope(b, sha)
      <==> a.id == b.id && a.stripeObjectID == b.stripeObjectID && a.environment == b.environment
  {
    if Envelope(a, sha) == Envelope(b, sha) {
      EncodeInjective(sha(a.id + "\n" + a.stripeObjectID + "\n" + a.environment),
                      sha(b.id + "\n" + b.stripeObjectID + "\n" + b.environment));
      DigestedText(a);
      DigestedText(b);
      FirstLine(a.id, a.stripeObjectID + "\n" + a.environment, b.id, b.stripeObjectID + "\n" + b.environment);
      FirstLine(a.stripeObjectID, a.environment, b.stripeObjectID, b.environment);
    }
  }

  function FaultName(fault: Fault): string {
    match fault
    case Unset => ""
    case NoFault => "none"
    case Duplicate => "duplicate"
    case Reorder => "reorder"
    case Timeout => "timeout"
    case Tamper => "tamper"
    case OtherFault(name) => name
  }

  function VerificationAssertion(r: RelayResult, fault: Fault): Assertion {
    Assertion(MERCHANT_ASSERTION, Passes(r), CONTRACT_VERSION + ":" + FaultName(fault))
  }

  /** A webhook job that does not name its own receipt can never succeed. */
  predicate WebhookJobValid(m: OutboxMessage) {
    && m.payload.Fields? && m.payload.stripeEventID != "" && m.payload.eventType != ""
    && m.payload.stripeEventID == m.aggregateID
  }
}
