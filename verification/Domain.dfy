/** The vocabulary of a shutdown: run states, probe results, probe kinds, and the rule
    that turns the results of the five boundary probes into one verdict. */
module Domain {
  datatype Option<+T> = None | Some(value: T)

  datatype ShutdownState =
    | RUNNING | REQUESTED | FENCING | PROCESS_STOP_SENT | CHILD_DISCOVERY | PROBING
    | VERIFIED | PARTIAL | UNKNOWN | FAILED

  datatype ProbeResult = Pass | Fail | Partial | Unknown

  /** The five boundaries, and the restart probe that may follow a finished shutdown. */
  datatype ProbeKind = Process | Delegation | Kafka | Credential | Network | Restart

  const PROBE_KINDS: seq<ProbeKind> := [Process, Delegation, Kafka, Credential, Network]

  predicate IsTerminal(s: ShutdownState) {
    s in {VERIFIED, PARTIAL, UNKNOWN, FAILED}
  }

  function Aggregate(results: seq<ProbeResult>): ShutdownState {
    if results == [] then UNKNOWN
    else if Fail in results then FAILED
    else if Unknown in results then UNKNOWN
    else if Partial in results then PARTIAL
    else VERIFIED
  }

  /** How bad a verdict is. `Aggregate` computes the worst of its inputs in this order. */
  function Badness(s: ShutdownState): nat {
    match s
    case VERIFIED => 0
    case PARTIAL => 1
    case UNKNOWN => 2
    case _ => 3
  }

  function Worse(a: ShutdownState, b: ShutdownState): ShutdownState {
    if Badness(a) >= Badness(b) then a else b
  }

  /** A verdict is VERIFIED exactly when something was observed and all of it passed. */
  lemma VerifiedIsEarned(results: seq<ProbeResult>)
    ensures Aggregate(results) == VERIFIED
            <==> results != [] && forall i :: 0 <= i < |results| ==> results[i] == Pass
    ensures IsTerminal(Aggregate(results))
  {
    if Aggregate(results) == VERIFIED {
      forall i | 0 <= i < |results| ensures results[i] == Pass {
        assert results[i] != Fail && results[i] != Unknown && results[i] != Partial;
      }
    }
  }

  /** More evidence can never improve a verdict, and the order of probes is irrelevant:
      aggregation is a homomorphism into "the worse of two". */
  lemma AggregateIsWorst(a: seq<ProbeResult>, b: seq<ProbeResult>)
    requires a != [] && b != []
    ensures Aggregate(a + b) == Worse(Aggregate(a), Aggregate(b))
  {
    assert forall r :: r in a + b <==> r in a || r in b;
  }
}
