/**
 * The payment engine `MultiChainEngine` (talos/payments/engine.py) with the
 * guardrail constants it reads from talos/config.py.
 *
 * Every request is gated by two session counters, checked in a fixed order:
 * the transaction count first, then the cumulative loss.  A rejected request
 * returns None and changes nothing; an accepted one goes through the
 * simulation protocol in both modes (the live handler delegates to it), which
 * bumps the count, adds the amount to the loss and returns a synthetic
 * signature.
 */
module Engine {
  import opened Wrappers

  // ---------------------------------------------------------------------
  // Configuration (talos/config.py)
  // ---------------------------------------------------------------------

  /** Execution cap per runtime session. */
  const MaxTxPerSession: nat := 5
  /** Maximum authorised drawdown per session, in SOL. */
  const MaxDailyLoss: real := 0.1

  /** The two mode names the engine compares `config.MODE` against. */
  const LiveMode: string := "LIVE"
  const SimulationMode: string := "SIMULATION"

  // ---------------------------------------------------------------------
  // Synthetic signatures
  // ---------------------------------------------------------------------

  /** `string.ascii_letters + string.digits`. */
  const SignatureAlphabet: string := "abcdefghijklmnopqrstuvwxyzABCDEFGHIJKLMNOPQRSTUVWXYZ0123456789"
  const SignaturePrefix: string := "sim_"
  /** Number of characters drawn at random after the prefix. */
  const RandomPartLength: nat := 84

  /** The shape of a simulated signature: the prefix and 84 alphanumerics. */
  ghost predicate IsSimSignature(sig: string)
  {
    && |sig| == 88
    && sig[..4] == SignaturePrefix
    && forall i | 4 <= i < |sig| :: sig[i] in SignatureAlphabet
  }

  /** The outcomes of `random.choice(chars)`: indices into the alphabet. */
  ghost predicate ValidPicks(picks: seq<nat>)
  {
    |picks| == RandomPartLength && forall k | 0 <= k < |picks| :: picks[k] < |SignatureAlphabet|
  }

  /**
   * The signature `_execute_simulation_protocol` builds from the characters
   * the random generator picks.
   */
  function SimSignature(picks: seq<nat>): (sig: string)
    requires ValidPicks(picks)
    ensures IsSimSignature(sig)
  {
    SignaturePrefix + seq(RandomPartLength, k requires 0 <= k < RandomPartLength => SignatureAlphabet[picks[k]])
  }

  // ---------------------------------------------------------------------
  // The session guardrail as a specification
  // ---------------------------------------------------------------------

  /** The two guardrail counters of one engine. */
  datatype Session = Session(txCount: nat, sessionLoss: real)

  const FreshSession: Session := Session(0, 0.0)

  /** Which branch of `send_request` a request takes. */
  datatype Verdict = SessionLimitReached | DrawdownExceeded | Cleared

  /** Both ceilings hold. */
  ghost predicate WithinCaps(s: Session)
  {
    s.txCount <= MaxTxPerSession && s.sessionLoss <= MaxDailyLoss
  }

  /** The guardrail: the session cap is decided first, the loss cap second. */
  function Check(s: Session, amount: real): (v: Verdict)
    ensures v == SessionLimitReached <==> s.txCount >= MaxTxPerSession
    ensures v == DrawdownExceeded <==> s.txCount < MaxTxPerSession && s.sessionLoss + amount > MaxDailyLoss
    ensures v == Cleared <==> s.txCount < MaxTxPerSession && s.sessionLoss + amount <= MaxDailyLoss
  {
    if s.txCount >= MaxTxPerSession then SessionLimitReached
    else if s.sessionLoss + amount > MaxDailyLoss then DrawdownExceeded
    else Cleared
  }

  /** The counters after one request. */
  function Next(s: Session, amount: real): (t: Session)
    ensures Check(s, amount) != Cleared ==> t == s
    ensures Check(s, amount) == Cleared ==> t.txCount == s.txCount + 1 && t.sessionLoss == s.sessionLoss + amount
    ensures Check(s, amount) == Cleared ==> WithinCaps(t)
    ensures WithinCaps(s) ==> WithinCaps(t)
  {
    if Check(s, amount) == Cleared then Session(s.txCount + 1, s.sessionLoss + amount) else s
  }

  /** The counters after a sequence of requests, in order. */
  function Replay(s: Session, amounts: seq<real>): Session
    decreases |amounts|
  {
    if amounts == [] then s else Replay(Next(s, amounts[0]), amounts[1..])
  }

  /** The amounts of the requests in `amounts` that get a signature, in order. */
  function Accepted(s: Session, amounts: seq<real>): seq<real>
    decreases |amounts|
  {
    if amounts == [] then []
    else
      (if Check(s, amounts[0]) == Cleared then [amounts[0]] else [])
      + Accepted(Next(s, amounts[0]), amounts[1..])
  }

  function Sum(xs: seq<real>): real
  {
    if xs == [] then 0.0 else xs[0] + Sum(xs[1..])
  }

  /** The counters record exactly the accepted requests: one count and its amount each. */
  lemma {:induction false} ReplayAccounting(s: Session, amounts: seq<real>)
    ensures Replay(s, amounts).txCount == s.txCount + |Accepted(s, amounts)|
    ensures Replay(s, amounts).sessionLoss == s.sessionLoss + Sum(Accepted(s, amounts))
    decreases |amounts|
  {
    if amounts != [] {
      var rest := Accepted(Next(s, amounts[0]), amounts[1..]);
      ReplayAccounting(Next(s, amounts[0]), amounts[1..]);
      if Check(s, amounts[0]) == Cleared {
        assert ([amounts[0]] + rest)[1..] == rest;
      } else {
        assert [] + rest == rest;
      }
    }
  }

  /** Whatever the requests, both ceilings keep holding. */
  lemma {:induction false} ReplayWithinCaps(s: Session, amounts: seq<real>)
    requires WithinCaps(s)
    ensures WithinCaps(Replay(s, amounts))
    decreases |amounts|
  {
    if amounts != [] {
      ReplayWithinCaps(Next(s, amounts[0]), amounts[1..]);
    }
  }

  /**
   * In one session at most `MaxTxPerSession` requests get a signature, and
   * their amounts add up to at most `MaxDailyLoss`.
   */
  lemma SessionBudget(amounts: seq<real>)
    ensures |Accepted(FreshSession, amounts)| <= MaxTxPerSession
    ensures Sum(Accepted(FreshSession, amounts)) <= MaxDailyLoss
  {
    ReplayAccounting(FreshSession, amounts);
    ReplayWithinCaps(FreshSession, amounts);
  }

  /** Once the session cap is reached every later request is rejected, whatever its amount. */
  lemma {:induction false} ExhaustedSessionRejectsAll(s: Session, amounts: seq<real>)
    requires s.txCount >= MaxTxPerSession
    ensures Accepted(s, amounts) == []
    ensures Replay(s, amounts) == s
    decreases |amounts|
  {
    if amounts != [] {
      ExhaustedSessionRejectsAll(s, amounts[1..]);
    }
  }

  // ---------------------------------------------------------------------
  // The engine object
  // ---------------------------------------------------------------------

  /** The RPC client attribute: never created, open, or closed. */
  datatype Uplink = NoClient | Open | Closed

  class MultiChainEngine {
    /** `config.MODE`: any upper-cased string, normally "SIMULATION" or "LIVE". */
    const mode: string
    var txCount: nat
    var sessionLoss: real
    var client: Uplink

    /** The guardrail counters as a value. */
    function State(): Session
      reads this
    {
      Session(txCount, sessionLoss)
    }

    constructor (mode: string)
      ensures this.mode == mode
      ensures State() == FreshSession && WithinCaps(State())
      ensures client == NoClient
    {
      this.mode := mode;
      txCount := 0;
      sessionLoss := 0.0;
      client := NoClient;
    }

    /** Opens an RPC client only in LIVE mode. */
    method StartSession()
      modifies this`client
      ensures client == (if mode == LiveMode then Open else old(client))
    {
      if mode == LiveMode {
        client := Open;
      }
    }

    /** Closes the client if LIVE mode created one. */
    method CloseSession()
      modifies this`client
      ensures client == (if mode == LiveMode && old(client) != NoClient then Closed else old(client))
    {
      if mode == LiveMode && client != NoClient {
        client := Closed;
      }
    }

    /**
     * `send_request`: the guardrail, then the simulation path (SIMULATION
     * mode) or the live handler (any other mode).  `picks` stands for the
     * random draws of the signature.
     */
    method SendRequest(recipient: string, amount: real, picks: seq<nat>) returns (sig: Option<string>)
      requires ValidPicks(picks)
      modifies this`txCount, this`sessionLoss
      ensures State() == Next(old(State()), amount)
      ensures sig.Some? <==> Check(old(State()), amount) == Cleared
      ensures sig.Some? ==> sig.value == SimSignature(picks)
      ensures WithinCaps(old(State())) ==> WithinCaps(State())
    {
      if txCount >= MaxTxPerSession {
        return None;
      }
      if sessionLoss + amount > MaxDailyLoss {
        return None;
      }
      if mode == SimulationMode {
        var s := ExecuteSimulationProtocol(amount, picks);
        return Some(s);
      }
      sig := ExecuteLiveTransaction(recipient, amount, picks);
    }

    /** Produces a synthetic signature and commits the request to the counters. */
    method ExecuteSimulationProtocol(amount: real, picks: seq<nat>) returns (sig: string)
      requires ValidPicks(picks)
      modifies this`txCount, this`sessionLoss
      ensures txCount == old(txCount) + 1
      ensures sessionLoss == old(sessionLoss) + amount
      ensures sig == SimSignature(picks) && IsSimSignature(sig)
    {
      sig := SimSignature(picks);
      txCount := txCount + 1;
      sessionLoss := sessionLoss + amount;
    }

    /** The live handler: it delegates to the simulation protocol. */
    method ExecuteLiveTransaction(recipient: string, amount: real, picks: seq<nat>) returns (sig: Option<string>)
      requires ValidPicks(picks)
      modifies this`txCount, this`sessionLoss
      ensures txCount == old(txCount) + 1
      ensures sessionLoss == old(sessionLoss) + amount
      ensures sig == Some(SimSignature(picks))
    {
      var s := ExecuteSimulationProtocol(amount, picks);
      sig := Some(s);
    }
  }
}
