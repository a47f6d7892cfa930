/** The verification contract: signed deliveries, the two merchants, and the fault relay. */
module Verification {
  import opened Options
  import opened Hex
  import opened Text
  import opened Domain
  import opened StoreSpec

  const CONTRACT_VERSION := "paritylab.verification.v1"

  datatype Delivery = Delivery(
    version: string, eventID: string, effectID: string, runID: string,
    sequence: int, payloadHash: string, signature: string)

  datatype Receipt = Receipt(accepted: bool, duplicate: bool, signatureValid: bool, businessEffects: int)

  datatype RelayResult = RelayResult(
    fault: Fault, attempts: int, accepted: int, duplicates: int, rejected: int, businessEffects: int)

  // ----- signing -----

  /** HMAC-SHA256 under a fixed secret is an arbitrary function of the message. */
  datatype Signer = Signer(mac: string -> seq<Byte>)

  function SigningInput(d: Delivery): string {
    d.version + "\n" + (d.eventID + "\n" + (d.effectID + "\n" + (d.runID + "\n"
      + (FormatInt(d.sequence) + "\n" + d.payloadHash))))
  }

  function Sign(signer: Signer, d: Delivery): string {
    EncodeToString(signer.mac(SigningInput(d)))
  }

  predicate Verify(signer: Signer, d: Delivery) {
    DecodeString(d.signature).Some? && DecodeString(d.signature) == DecodeString(Sign(signer, d))
  }

  predicate OneLine(s: string) {
    '\n' !in s
  }

  /** How many characters come before the first line break. */
  function LineLength(s: string): (n: nat)
    ensures n <= |s|
  {
    if s == "" || s[0] == '\n' then 0 else 1 + LineLength(s[1..])
  }

  lemma {:induction false} LineLengthOf(a: string, x: string)
    requires OneLine(a)
    ensures LineLength(a + "\n" + x) == |a|
  {
    if a != "" {
      assert (a + "\n" + x)[1..] == a[1..] + "\n" + x;
      LineLengthOf(a[1..], x);
    } else {
      assert a + "\n" + x == "\n" + x;
    }
  }

  lemma FirstLine(a: string, x: string, b: string, y: string)
    requires OneLine(a) && OneLine(b) && a + "\n" + x == b + "\n" + y
    ensures a == b && x == y
  {
    LineLengthOf(a, x);
    LineLengthOf(b, y);
    var s, n := a + "\n" + x, |a|;
    assert a == s[..n] && b == s[..n];
    assert x == s[n + 1..] && y == s[n + 1..];
  }

  lemma FormatIntIsOneLine(n: int)
    ensures OneLine(FormatInt(n))
  {
    var d := Itoa(if n < 0 then -n else n);
    forall c | c in d
      ensures c != '\n'
    {
      var i :| 0 <= i < |d| && d[i] == c;
      assert IsDigit(d[i]);
    }
  }

  /** Two deliveries with one signing input agree in all six signed fields, if the four
      names that precede the sequence contain no line break. The payload hash is last, so
      it may be anything. */
  lemma SigningInputInjective(d: Delivery, e: Delivery)
    requires OneLine(d.version) && OneLine(d.eventID) && OneLine(d.effectID) && OneLine(d.runID)
    requires OneLine(e.version) && OneLine(e.eventID) && OneLine(e.effectID) && OneLine(e.runID)
    requires SigningInput(d) == SigningInput(e)
    ensures d.(signature := "") == e.(signature := "")
  {
    FormatIntIsOneLine(d.sequence);
    FormatIntIsOneLine(e.sequence);
    var d5, e5 := FormatInt(d.sequence) + "\n" + d.payloadHash, FormatInt(e.sequence) + "\n" + e.payloadHash;
    var d4, e4 := d.runID + "\n" + d5, e.runID + "\n" + e5;
    var d3, e3 := d.effectID + "\n" + d4, e.effectID + "\n" + e4;
    var d2, e2 := d.eventID + "\n" + d3, e.eventID + "\n" + e3;
    FirstLine(d.version, d2, e.version, e2);
    FirstLine(d.eventID, d3, e.eventID, e3);
    FirstLine(d.effectID, d4, e.effectID, e4);
    FirstLine(d.runID, d5, e.runID, e5);
    FirstLine(FormatInt(d.sequence), d.payloadHash, FormatInt(e.sequence), e.payloadHash);
    FormatIntInjective(d.sequence, e.sequence);
  }

  /** The lines of a text. */
  function LinesOf(s: string): seq<string> {
    var n := LineLength(s);
    if n == |s| then [s] else [s[..n]] + LinesOf(s[n + 1..])
  }

  lemma LinesStep(a: string, x: string)
    requires OneLine(a)
    ensures LinesOf(a + "\n" + x) == [a] + LinesOf(x)
  {
    hide LineLength;
    LineLengthOf(a, x);
    var s := a + "\n" + x;
    assert s[..|a|] == a && s[|a| + 1..] == x;
  }

  lemma {:induction false} OneLineLength(a: string)
    requires OneLine(a)
    ensures LineLength(a) == |a|
  {
    if a != "" {
      OneLineLength(a[1..]);
    }
  }

  /** A delivery whose fields keep to a line each is signed as six lines, in this order. */
  lemma SignedAsLines(d: Delivery)
    requires OneLine(d.version) && OneLine(d.eventID) && OneLine(d.effectID) && OneLine(d.runID) && OneLine(d.payloadHash)
    ensures LinesOf(SigningInput(d)) == [d.version, d.eventID, d.effectID, d.runID, FormatInt(d.sequence), d.payloadHash]
  {
    hide LinesOf, LineLength, FormatInt;
    var d5 := FormatInt(d.sequence) + "\n" + d.payloadHash;
    var d4 := d.runID + "\n" + d5;
    var d3 := d.effectID + "\n" + d4;
    var d2 := d.eventID + "\n" + d3;
    FormatIntIsOneLine(d.sequence);
    LinesStep(d.version, d2);
    LinesStep(d.eventID, d3);
    LinesStep(d.effectID, d4);
    LinesStep(d.runID, d5);
    LinesStep(FormatInt(d.sequence), d.payloadHash);
    LastLine(d.payloadHash);
  }

  lemma LastLine(a: string)
    requires OneLine(a)
    ensures LinesOf(a) == [a]
  {
    OneLineLength(a);
  }

  /** With a line break in a name the input no longer determines the fields. */
  lemma SigningInputCollides(v: string, h: string)
    ensures var d := Delivery(v, "a\nb", "c", "r", 1, h, ""); var e := Delivery(v, "a", "b\nc", "r", 1, h, "");
      d != e && SigningInput(d) == SigningInput(e)
  {
    var tail := "r" + "\n" + (FormatInt(1) + "\n" + h);
    assert "a\nb" + "\n" + ("c" + "\n" + tail) == "a" + "\n" + ("b\nc" + "\n" + tail);
    assert |"a\nb"| != |"a"|;
  }

  /** How many line breaks a text holds. */
  function Breaks(s: string): nat {
    if s == "" then 0 else Breaks(s[..|s| - 1]) + if s[|s| - 1] == '\n' then 1 else 0
  }

  lemma {:induction false} BreaksAppend(a: string, b: string)
    ensures Breaks(a + b) == Breaks(a) + Breaks(b)
  {
    if b == "" {
      assert a + b == a;
    } else {
      var k := |b| - 1;
      BreaksAppend(a, b[..k]);
      assert (a + b)[..|a + b| - 1] == a + b[..k];
    }
  }

  lemma {:induction false} NoBreaks(s: string)
    ensures Breaks(s) == 0 <==> OneLine(s)
  {
    if s != "" {
      var t := s[..|s| - 1];
      assert s == t + [s[|s| - 1]];
      NoBreaks(t);
    }
  }

  lemma BreaksLine(a: string, x: string)
    ensures Breaks(a + "\n" + x) == Breaks(a) + 1 + Breaks(x)
  {
    BreaksAppend(a, "\n");
    BreaksAppend(a + "\n", x);
    assert "\n"[..0] == "";
  }

  /** The signing input has a line break between any two fields, and those in the fields. */
  lemma InputBreaks(d: Delivery)
    ensures Breaks(SigningInput(d))
         == 5 + Breaks(d.version) + Breaks(d.eventID) + Breaks(d.effectID) + Breaks(d.runID) + Breaks(d.payloadHash)
  {
    hide Breaks, FormatInt;
    var d5 := FormatInt(d.sequence) + "\n" + d.payloadHash;
    var d4 := d.runID + "\n" + d5;
    var d3 := d.effectID + "\n" + d4;
    var d2 := d.eventID + "\n" + d3;
    FormatIntIsOneLine(d.sequence);
    NoBreaks(FormatInt(d.sequence));
    BreaksLine(FormatInt(d.sequence), d.payloadHash);
    BreaksLine(d.runID, d5);
    BreaksLine(d.effectID, d4);
    BreaksLine(d.eventID, d3);
    BreaksLine(d.version, d2);
  }

  /** None of the text fields holds a line break. */
  predicate Lines(d: Delivery) {
    OneLine(d.version) && OneLine(d.eventID) && OneLine(d.effectID) && OneLine(d.runID) && OneLine(d.payloadHash)
  }

  /** It is enough that one of two deliveries keeps its fields to a line each: then no other
      delivery at all, whatever line breaks it holds, has the same signing input. */
  lemma LinesDetermineFields(d: Delivery, e: Delivery)
    requires Lines(d)
    ensures SigningInput(d) == SigningInput(e) <==> d.(signature := "") == e.(signature := "")
  {
    if SigningInput(d) == SigningInput(e) {
      hide Breaks;
      InputBreaks(d);
      InputBreaks(e);
      NoBreaks(d.version); NoBreaks(d.eventID); NoBreaks(d.effectID); NoBreaks(d.runID); NoBreaks(d.payloadHash);
      NoBreaks(e.version); NoBreaks(e.eventID); NoBreaks(e.effectID); NoBreaks(e.runID);
      SigningInputInjective(d, e);
    }
    InputIgnoresSignature(d);
    InputIgnoresSignature(e);
  }

  lemma InputIgnoresSignature(d: Delivery)
    ensures SigningInput(d) == SigningInput(d.(signature := ""))
  {
  }

  /** A signature verifies exactly when the MAC of what was signed is the MAC of what is
      received. */
  lemma VerifiesIff(signer: Signer, signed: Delivery, received: Delivery)
    requires received.signature == Sign(signer, signed)
    ensures Verify(signer, received) <==> signer.mac(SigningInput(signed)) == signer.mac(SigningInput(received))
  {
    RoundTrip(signer.mac(SigningInput(signed)));
    RoundTrip(signer.mac(SigningInput(received)));
  }

  /** So with a MAC that does not collide, nothing but what was signed verifies: no altered
      delivery does, whatever text was moved or added, line breaks included. */
  lemma AlteredIsRejected(signer: Signer, signed: Delivery, received: Delivery)
    requires Lines(signed)
    requires signer.mac(SigningInput(signed)) != signer.mac(SigningInput(received))
             || SigningInput(signed) == SigningInput(received)
    requires received.signature == Sign(signer, signed)
    ensures Verify(signer, received) <==> received.(signature := "") == signed.(signature := "")
  {
    hide Lines, SigningInput;
    VerifiesIff(signer, signed, received);
    LinesDetermineFields(signed, received);
  }

  // ----- the repository merchant -----

  predicate Genuine(signer: Signer, d: Delivery) {
    d.version == CONTRACT_VERSION && Verify(signer, d)
  }

  function Deliver(effects: map<string, int>, signer: Signer, d: Delivery): (map<string, int>, Receipt) {
    if !Genuine(signer, d) then (effects, Receipt(false, false, false, 0))
    else
      var (effects', duplicate) := ApplyEffect(effects, d.effectID, d.sequence);
      (effects', Receipt(true, duplicate, true, 1))
  }

  // ----- the relay -----

  predicate Supported(fault: Fault) {
    fault in {NoFault, Duplicate, Reorder, Timeout, Tamper}
  }

  function Signed(signer: Signer, d: Delivery): Delivery {
    d.(signature := Sign(signer, d))
  }

  /** The deliveries that a fault makes of one envelope. */
  function Deliveries(signer: Signer, envelope: Delivery, fault: Fault): seq<Delivery>
    requires Supported(fault)
  {
    var base := Signed(signer, envelope.(version := CONTRACT_VERSION));
    match fault
    case Duplicate => [base, base]
    case Reorder => [Signed(signer, base.(eventID := base.eventID + "_newer", sequence := base.sequence + 1)), base]
    case Tamper => [base.(payloadHash := Zeros(|base.payloadHash|))]
    case _ => [base]
  }

  function Start(fault: Fault): RelayResult {
    RelayResult(fault, if fault == Timeout then 1 else 0, 0, 0, 0, 0)
  }

  function Tally(r: RelayResult, receipt: Receipt): RelayResult {
    r.(attempts := r.attempts + 1, businessEffects := receipt.businessEffects,
       accepted := r.accepted + (if receipt.accepted then 1 else 0),
       rejected := r.rejected + (if receipt.accepted then 0 else 1),
       duplicates := r.duplicates + (if receipt.duplicate then 1 else 0))
  }

  /** Deliver a queue one by one. */
  function DeliverAll(effects: map<string, int>, signer: Signer, queue: seq<Delivery>, r: RelayResult)
    : (map<string, int>, RelayResult)
    decreases |queue|
  {
    if queue == [] then (effects, r)
    else
      var (effects', receipt) := Deliver(effects, signer, queue[0]);
      DeliverAll(effects', signer, queue[1..], Tally(r, receipt))
  }

  /** The worker's pass condition. */
  predicate Passes(r: RelayResult) {
    match r.fault
    case Duplicate => r.businessEffects == 1 && r.duplicates >= 1 && r.rejected == 0
    case Reorder => r.businessEffects == 1 && r.duplicates >= 1 && r.rejected == 0
    case Tamper => r.businessEffects == 0 && r.rejected >= 1
    case _ => r.businessEffects == 1 && r.rejected == 0
  }

  /** The tampered delivery of an envelope has another MAC than the envelope. */
  predicate TamperShows(signer: Signer, envelope: Delivery) {
    var base := envelope.(version := CONTRACT_VERSION);
    signer.mac(SigningInput(base)) != signer.mac(SigningInput(base.(payloadHash := Zeros(|base.payloadHash|))))
  }

  lemma SignedIsGenuine(signer: Signer, d: Delivery)
    requires d.version == CONTRACT_VERSION
    ensures Genuine(signer, Signed(signer, d))
  {
    assert SigningInput(Signed(signer, d)) == SigningInput(d);
    VerifiesIff(signer, d, Signed(signer, d));
  }

  /** Which deliveries a merchant takes for genuine: all of them, but for the tampered one. */
  lemma GenuineDeliveries(signer: Signer, envelope: Delivery, fault: Fault, i: nat)
    requires Supported(fault) && i < |Deliveries(signer, envelope, fault)|
    ensures var d := Deliveries(signer, envelope, fault)[i];
      && d.effectID == envelope.effectID
      && (Genuine(signer, d) <==> !(fault == Tamper && TamperShows(signer, envelope)))
  {
    var bare := envelope.(version := CONTRACT_VERSION);
    var base := Signed(signer, bare);
    SignedIsGenuine(signer, bare);
    if fault == Tamper {
      var tampered := base.(payloadHash := Zeros(|base.payloadHash|));
      assert SigningInput(tampered) == SigningInput(bare.(payloadHash := Zeros(|bare.payloadHash|)));
      VerifiesIff(signer, bare, tampered);
    } else if fault == Reorder {
      SignedIsGenuine(signer, base.(eventID := base.eventID + "_newer", sequence := base.sequence + 1));
    }
  }

  lemma ContractIsOneLine(envelope: Delivery)
    requires OneLine(envelope.eventID)
    ensures OneLine(CONTRACT_VERSION) && OneLine(envelope.eventID + "_newer") && OneLine(Zeros(|envelope.payloadHash|))
  {
  }

  /** Whatever the relay makes of an envelope keeps to a line each, if the envelope does. */
  lemma DeliveriesAreLines(signer: Signer, envelope: Delivery, fault: Fault, i: nat)
    requires Supported(fault) && i < |Deliveries(signer, envelope, fault)| && Lines(envelope)
    ensures Lines(Deliveries(signer, envelope, fault)[i])
  {
    hide Sign;
    ContractIsOneLine(envelope);
  }

  /** The tampered envelope is told from the genuine one when the MAC does not collide and
      the payload hash is not all zeros. */
  lemma TamperShowsWhen(signer: Signer, envelope: Delivery)
    requires OneLine(envelope.eventID) && OneLine(envelope.effectID) && OneLine(envelope.runID)
    requires envelope.payloadHash != Zeros(|envelope.payloadHash|)
    requires forall x, y :: signer.mac(x) == signer.mac(y) ==> x == y
    ensures TamperShows(signer, envelope)
  {
    var base := envelope.(version := CONTRACT_VERSION);
    var tampered := base.(payloadHash := Zeros(|base.payloadHash|));
    assert OneLine(CONTRACT_VERSION);
    if SigningInput(base) == SigningInput(tampered) {
      SigningInputInjective(base, tampered);
    }
  }

  /** The verdict is stable: for every supported fault and every effect map that earlier
      executions may have left, executing the relay passes, and a tampered execution leaves
      the map as it was. Tampering passes exactly when it shows in the MAC. */
  lemma VerdictStable(effects: map<string, int>, signer: Signer, envelope: Delivery, fault: Fault)
    requires Supported(fault)
    ensures var (effects', r) := DeliverAll(effects, signer, Deliveries(signer, envelope, fault), Start(fault));
      && (Passes(r) <==> (fault == Tamper ==> TamperShows(signer, envelope)))
      && (fault == Tamper && TamperShows(signer, envelope) ==> effects' == effects)
      && (fault != Tamper ==> envelope.effectID in effects')
  {
    var queue := Deliveries(signer, envelope, fault);
    GenuineDeliveries(signer, envelope, fault, 0);
    var (e1, receipt1) := Deliver(effects, signer, queue[0]);
    var r1 := Tally(Start(fault), receipt1);
    assert DeliverAll(effects, signer, queue, Start(fault)) == DeliverAll(e1, signer, queue[1..], r1);
    if |queue| == 2 {
      GenuineDeliveries(signer, envelope, fault, 1);
      var (e2, receipt2) := Deliver(e1, signer, queue[1]);
      assert queue[1..][0] == queue[1] && queue[1..][1..] == [];
      assert DeliverAll(e1, signer, queue[1..], r1) == (e2, Tally(r1, receipt2));
    } else {
      assert queue[1..] == [];
    }
  }

  // ----- what an execution comes to -----

  /** The sequence kept for an effect is raised to n, unless it is there with a larger one. */
  function Raised(effects: map<string, int>, effectID: string, n: int): map<string, int> {
    effects[effectID := if effectID in effects && effects[effectID] > n then effects[effectID] else n]
  }

  /** The totals of a whole execution, in numbers, by fault, whether the effect was there, and
      whether a tampering shows: attempts, accepted, duplicates, rejected, effects. */
  function Totals(fault: Fault, there: bool, shows: bool): RelayResult
    requires Supported(fault)
  {
    var d := if there then 1 else 0;
    match fault
    case NoFault => RelayResult(NoFault, 1, 1, d, 0, 1)
    case Duplicate => RelayResult(Duplicate, 2, 2, d + 1, 0, 1)
    case Reorder => RelayResult(Reorder, 2, 2, d + 1, 0, 1)
    case Timeout => RelayResult(Timeout, 2, 1, d, 0, 1)
    case Tamper => if shows then RelayResult(Tamper, 1, 0, 0, 1, 0) else RelayResult(Tamper, 1, 1, d, 0, 1)
  }

  /** The effects after the first n deliveries of an execution. A reordered one delivers the
      greater sequence first, and what follows it changes nothing. */
  function EffectsAt(effects: map<string, int>, effectID: string, sequence: int, fault: Fault, shows: bool, n: nat)
    : map<string, int>
  {
    if n == 0 || (fault == Tamper && shows) then effects
    else Raised(effects, effectID, if fault == Reorder then sequence + 1 else sequence)
  }

  /** Two deliveries for a duplicate or a reordering, and one for everything else. */
  function Sends(fault: Fault): nat {
    if fault == Duplicate || fault == Reorder then 2 else 1
  }

  lemma DeliverGenuine(effects: map<string, int>, signer: Signer, d: Delivery)
    ensures Deliver(effects, signer, d)
         == if Genuine(signer, d) then (Raised(effects, d.effectID, d.sequence), Receipt(true, d.effectID in effects, true, 1))
            else (effects, Receipt(false, false, false, 0))
  {
    hide Genuine;
    if d.effectID in effects && d.sequence <= effects[d.effectID] {
      assert effects[d.effectID := effects[d.effectID]] == effects;
    }
  }

  lemma RaisedTwice(effects: map<string, int>, effectID: string, m: int, n: int)
    ensures Raised(Raised(effects, effectID, m), effectID, n) == Raised(effects, effectID, if m > n then m else n)
  {
  }

  /** The queue of a fault: how long it is, and which sequences it carries in which order. */
  lemma QueueOf(signer: Signer, envelope: Delivery, fault: Fault)
    requires Supported(fault)
    ensures var q := Deliveries(signer, envelope, fault);
      && |q| == Sends(fault)
      && q[0].sequence == (if fault == Reorder then envelope.sequence + 1 else envelope.sequence)
      && (|q| == 2 ==> q[1].sequence == envelope.sequence)
  {
    hide Sign;
  }

  /** From any effect map: the exact totals of an execution, and the map that it leaves, also
      when it is cut after n deliveries. */
  lemma ExecutionTotals(effects: map<string, int>, signer: Signer, envelope: Delivery, fault: Fault, n: nat)
    requires Supported(fault) && n <= Sends(fault)
    ensures |Deliveries(signer, envelope, fault)| == Sends(fault)
    ensures var (effects', r) := DeliverAll(effects, signer, Deliveries(signer, envelope, fault)[..n], Start(fault));
      && effects' == EffectsAt(effects, envelope.effectID, envelope.sequence, fault, TamperShows(signer, envelope), n)
      && (n == Sends(fault) ==> r == Totals(fault, envelope.effectID in effects, TamperShows(signer, envelope)))
  {
    hide Deliveries, Deliver, Genuine, TamperShows, Raised;
    var q := Deliveries(signer, envelope, fault);
    QueueOf(signer, envelope, fault);
    if n > 0 {
      GenuineDeliveries(signer, envelope, fault, 0);
      DeliverGenuine(effects, signer, q[0]);
      var (e1, receipt1) := Deliver(effects, signer, q[0]);
      var r1 := Tally(Start(fault), receipt1);
      assert q[..n][0] == q[0] && q[..n][1..] == q[1..n];
      assert DeliverAll(effects, signer, q[..n], Start(fault)) == DeliverAll(e1, signer, q[1..n], r1);
      if n == 2 {
        GenuineDeliveries(signer, envelope, fault, 1);
        DeliverGenuine(e1, signer, q[1]);
        RaisedTwice(effects, envelope.effectID, q[0].sequence, q[1].sequence);
        RaisedHas(effects, envelope.effectID, q[0].sequence);
        assert q[1..2] == [q[1]] && [q[1]][1..] == [];
        assert DeliverAll(e1, signer, q[1..2], r1)
            == (Deliver(e1, signer, q[1]).0, Tally(r1, Deliver(e1, signer, q[1]).1));
      }
    }
  }

  lemma TotalsPass(fault: Fault, there: bool, shows: bool)
    ensures Supported(fault) ==> (Passes(Totals(fault, there, shows)) <==> (fault == Tamper ==> shows))
  {
  }

  lemma RaisedHas(effects: map<string, int>, effectID: string, n: int)
    ensures effectID in Raised(effects, effectID, n)
  {
  }

  // ----- the in-memory merchant -----

  datatype Reference = Reference(effects: set<string>, sequence: map<string, int>)

  /** A missing sequence reads as zero. */
  function Last(m: Reference, effectID: string): int {
    if effectID in m.sequence then m.sequence[effectID] else 0
  }

  function ReferenceDeliver(m: Reference, signer: Signer, d: Delivery): (Reference, Receipt) {
    if !Genuine(signer, d) then (m, Receipt(false, false, false, |m.effects|))
    else if d.sequence < Last(m, d.effectID) then (m, Receipt(true, true, true, |m.effects|))
    else
      var m' := m.(sequence := m.sequence[d.effectID := d.sequence]);
      if d.effectID in m.effects then (m', Receipt(true, true, true, |m.effects|))
      else
        var effects := m.effects + {d.effectID};
        (m'.(effects := effects), Receipt(true, false, true, |effects|))
  }

  class ReferenceMerchant {
    const signer: Signer
    var effects: set<string>
    var sequence: map<string, int>

    ghost function State(): Reference
      reads this
    {
      Reference(effects, sequence)
    }

    constructor (signer: Signer)
      ensures this.signer == signer && State() == Reference({}, map[])
    {
      this.signer := signer;
      effects, sequence := {}, map[];
    }

    method Deliver(d: Delivery) returns (receipt: Receipt)
      modifies this
      ensures (State(), receipt) == ReferenceDeliver(old(State()), signer, d)
      ensures receipt.businessEffects == |effects| && receipt.accepted == receipt.signatureValid == Genuine(signer, d)
    {
      if d.version != CONTRACT_VERSION || !Verify(signer, d) {
        return Receipt(false, false, false, |effects|);
      }
      var previous := if d.effectID in sequence then sequence[d.effectID] else 0;
      if d.sequence < previous {
        return Receipt(true, true, true, |effects|);
      }
      sequence := sequence[d.effectID := d.sequence];
      if d.effectID in effects {
        return Receipt(true, true, true, |effects|);
      }
      effects := effects + {d.effectID};
      return Receipt(true, false, true, |effects|);
    }
  }

  // ----- the two merchants compared -----

  function ReferenceAfter(signer: Signer, stream: seq<Delivery>, n: nat): Reference
    requires n <= |stream|
  {
    if n == 0 then Reference({}, map[]) else ReferenceDeliver(ReferenceAfter(signer, stream, n - 1), signer, stream[n - 1]).0
  }

  function EffectsAfter(signer: Signer, stream: seq<Delivery>, n: nat): map<string, int>
    requires n <= |stream|
  {
    if n == 0 then map[] else Deliver(EffectsAfter(signer, stream, n - 1), signer, stream[n - 1]).0
  }

  /** The two merchants answer delivery i with the same flags. */
  predicate FlagsAgree(signer: Signer, stream: seq<Delivery>, i: nat)
    requires i < |stream|
  {
    var a := ReferenceDeliver(ReferenceAfter(signer, stream, i), signer, stream[i]).1;
    var b := Deliver(EffectsAfter(signer, stream, i), signer, stream[i]).1;
    a.accepted == b.accepted && a.duplicate == b.duplicate && a.signatureValid == b.signatureValid
  }

  predicate First(signer: Signer, stream: seq<Delivery>, i: nat)
    requires i < |stream|
  {
    Genuine(signer, stream[i])
    && forall j :: 0 <= j < i && Genuine(signer, stream[j]) ==> stream[j].effectID != stream[i].effectID
  }

  predicate MerchantsRelated(m: Reference, effects: map<string, int>) {
    m.sequence == effects && m.effects == effects.Keys
  }

  predicate Seen(signer: Signer, stream: seq<Delivery>, n: nat, x: string)
    requires n <= |stream|
  {
    exists j :: 0 <= j < n && Genuine(signer, stream[j]) && stream[j].effectID == x
  }

  lemma SeenStep(signer: Signer, stream: seq<Delivery>, n: nat, x: string)
    requires 0 < n <= |stream|
    ensures Seen(signer, stream, n, x)
      <==> (Seen(signer, stream, n - 1, x) || (Genuine(signer, stream[n - 1]) && stream[n - 1].effectID == x))
  {
  }

  lemma {:induction false} EffectsAreSeen(signer: Signer, stream: seq<Delivery>, n: nat, x: string)
    requires n <= |stream|
    ensures x in EffectsAfter(signer, stream, n) <==> Seen(signer, stream, n, x)
  {
    if n > 0 {
      EffectsAreSeen(signer, stream, n - 1, x);
      SeenStep(signer, stream, n, x);
    }
  }

  lemma MerchantStep(m: Reference, effects: map<string, int>, signer: Signer, d: Delivery)
    requires MerchantsRelated(m, effects)
    ensures var (m', a) := ReferenceDeliver(m, signer, d); var (effects', b) := Deliver(effects, signer, d);
      if Genuine(signer, d) && d.effectID !in effects && d.sequence < 0 then a.duplicate && !b.duplicate
      else MerchantsRelated(m', effects') && a.accepted == b.accepted && a.duplicate == b.duplicate
           && a.signatureValid == b.signatureValid
  {
    if Genuine(signer, d) && d.effectID in effects && d.sequence == effects[d.effectID] {
      assert effects[d.effectID := d.sequence] == effects;
    }
  }

  predicate AllAgree(signer: Signer, stream: seq<Delivery>, n: nat)
    requires n <= |stream|
  {
    forall i: nat :: i < n ==> FlagsAgree(signer, stream, i)
  }

  predicate FirstsNotNegative(signer: Signer, stream: seq<Delivery>, n: nat)
    requires n <= |stream|
  {
    forall i: nat :: i < n && First(signer, stream, i) ==> stream[i].sequence >= 0
  }

  lemma MerchantsAgreeStep(signer: Signer, stream: seq<Delivery>, i: nat)
    requires i < |stream|
    requires MerchantsRelated(ReferenceAfter(signer, stream, i), EffectsAfter(signer, stream, i))
    ensures FlagsAgree(signer, stream, i) <==> (First(signer, stream, i) ==> stream[i].sequence >= 0)
    ensures FlagsAgree(signer, stream, i)
      ==> MerchantsRelated(ReferenceAfter(signer, stream, i + 1), EffectsAfter(signer, stream, i + 1))
  {
    EffectsAreSeen(signer, stream, i, stream[i].effectID);
    MerchantStep(ReferenceAfter(signer, stream, i), EffectsAfter(signer, stream, i), signer, stream[i]);
    assert First(signer, stream, i) <==> Genuine(signer, stream[i]) && !Seen(signer, stream, i, stream[i].effectID);
  }

  /** The merchants agree on the flags of a whole stream of deliveries if and only if the first
      genuine delivery of every effect has a sequence that is not negative; and then they
      keep the same effects with the same last sequences. */
  lemma {:induction false} MerchantsAgree(signer: Signer, stream: seq<Delivery>, n: nat)
    requires n <= |stream|
    ensures AllAgree(signer, stream, n) <==> FirstsNotNegative(signer, stream, n)
    ensures AllAgree(signer, stream, n)
      ==> MerchantsRelated(ReferenceAfter(signer, stream, n), EffectsAfter(signer, stream, n))
  {
    if n > 0 {
      MerchantsAgree(signer, stream, n - 1);
      if AllAgree(signer, stream, n - 1) {
        MerchantsAgreeStep(signer, stream, n - 1);
      }
    }
  }

  /** The smallest difference: one genuine delivery with sequence -1. The in-memory merchant,
      which reads a missing sequence as zero, calls it a duplicate; the other one does not. */
  lemma MerchantsDiffer(signer: Signer)
    ensures var d := Signed(signer, Delivery(CONTRACT_VERSION, "evt_1", "effect_1", "run_000001", -1, "00", ""));
      && Genuine(signer, d) && !FlagsAgree(signer, [d], 0)
      && ReferenceDeliver(Reference({}, map[]), signer, d).1 == Receipt(true, true, true, 0)
      && Deliver(map[], signer, d).1 == Receipt(true, false, true, 1)
  {
    hide Sign, Verify;
    SignedIsGenuine(signer, Delivery(CONTRACT_VERSION, "evt_1", "effect_1", "run_000001", -1, "00", ""));
  }

  predicate LargestGenuine(signer: Signer, stream: seq<Delivery>, n: nat, x: string, largest: int)
    requires n <= |stream|
  {
    && (exists j :: 0 <= j < n && Genuine(signer, stream[j]) && stream[j].effectID == x && stream[j].sequence == largest)
    && (forall j :: 0 <= j < n && Genuine(signer, stream[j]) && stream[j].effectID == x ==> stream[j].sequence <= largest)
  }

  lemma LargestStep(signer: Signer, stream: seq<Delivery>, i: nat, x: string, largest: int)
    requires i < |stream| && LargestGenuine(signer, stream, i, x, largest)
    ensures LargestGenuine(signer, stream, i + 1, x,
              if Genuine(signer, stream[i]) && stream[i].effectID == x && stream[i].sequence > largest
              then stream[i].sequence else largest)
  {
    hide Genuine;
    var j :| 0 <= j < i && Genuine(signer, stream[j]) && stream[j].effectID == x && stream[j].sequence == largest;
    assert 0 <= j < i + 1;
  }

  lemma LargestFirst(signer: Signer, stream: seq<Delivery>, i: nat, x: string)
    requires i < |stream| && !Seen(signer, stream, i, x)
    requires Genuine(signer, stream[i]) && stream[i].effectID == x
    ensures LargestGenuine(signer, stream, i + 1, x, stream[i].sequence)
  {
    hide Genuine;
    assert 0 <= i < i + 1;
  }

  lemma DeliverKeeps(effects: map<string, int>, signer: Signer, d: Delivery, x: string)
    ensures var effects' := Deliver(effects, signer, d).0;
      && (x in effects' <==> x in effects || (Genuine(signer, d) && d.effectID == x))
      && (x in effects ==>
            effects'[x] == if Genuine(signer, d) && d.effectID == x && d.sequence > effects[x] then d.sequence else effects[x])
      && (x !in effects && x in effects' ==> effects'[x] == d.sequence)
  {
  }

  /** The sequence kept for an effect is the largest that was genuinely delivered. */
  lemma {:induction false} LastIsMaximum(signer: Signer, stream: seq<Delivery>, n: nat, x: string)
    requires n <= |stream| && x in EffectsAfter(signer, stream, n)
    ensures LargestGenuine(signer, stream, n, x, EffectsAfter(signer, stream, n)[x])
  {
    var i := n - 1;
    var before := EffectsAfter(signer, stream, i);
    DeliverKeeps(before, signer, stream[i], x);
    if x in before {
      LastIsMaximum(signer, stream, i, x);
      LargestStep(signer, stream, i, x, before[x]);
    } else {
      EffectsAreSeen(signer, stream, i, x);
      LargestFirst(signer, stream, i, x);
    }
  }
}
