/**
 * The game-data client: tag normalisation, the login flag and the bounded
 * retry loop around the library's `get_player`. The library itself is not
 * modelled: each call's outcome is read from an input sequence, and the
 * logins, fetches, sleeps and closes are recorded in a ghost log.
 */
module CocClient {
  import opened Wrappers
  import opened Text
  import opened Failures
  import opened Player

  /** What one call of the library's `get_player` does. */
  datatype FetchOutcome =
    | Fetched(player: RawPlayer)
    | NotFound(message: string)
    | Maintenance(message: string)
    | Forbidden(message: string)
    | Failed(error: Exception)

  /** The exception an outcome raises, as the routes see it. */
  function Raised(o: FetchOutcome): (e: Exception)
    requires !o.Fetched?
    ensures o.NotFound? ==> e.typeName == "NotFound" && e.message == o.message
    ensures o.Maintenance? ==> e.typeName == "Maintenance" && e.message == o.message
    ensures o.Forbidden? ==> e.typeName == "Forbidden" && e.message == o.message
    ensures o.Failed? ==> e == o.error
    ensures !o.Failed? ==> !e.isValueError
  {
    match o
    case NotFound(m) => Exception("NotFound", false, m)
    case Maintenance(m) => Exception("Maintenance", false, m)
    case Forbidden(m) => Exception("Forbidden", false, m)
    case Failed(e) => e
  }

  /** An observable step of the client. */
  datatype ClientEvent = Login | Fetch(tag: string) | Sleep(seconds: nat) | Disconnect

  /** The number of fetch attempts. */
  const MaxRetries := 3

  /** `"#" + tag` unless the tag already starts with "#". */
  function NormalizeTag(tag: string): (r: string)
    ensures StartsWith(r, "#")
    ensures StartsWith(tag, "#") <==> r == tag
    ensures !StartsWith(tag, "#") ==> r == "#" + tag
  {
    if StartsWith(tag, "#") then tag else "#" + tag
  }

  /** Normalising a normalised tag changes nothing. */
  lemma NormalizeTagIdempotent(tag: string)
    ensures NormalizeTag(NormalizeTag(tag)) == NormalizeTag(tag)
  {
  }

  /** `2**n`. */
  function Pow2(n: nat): (r: nat)
    ensures r >= 1
  {
    if n == 0 then 1 else 2 * Pow2(n - 1)
  }

  /** What the retry loop returns and the fetches and sleeps it performs. */
  datatype Attempts = Attempts(result: Result<RawPlayer, Exception>, events: seq<ClientEvent>)

  /**
   * The retry loop from attempt `attempt` on: a fetched player is returned at
   * once; NotFound, Maintenance and Forbidden are raised at once; any other
   * failure sleeps `2**attempt` seconds and tries again, except on the last
   * attempt, where it is raised.
   */
  function Retry(tag: string, outcomes: seq<FetchOutcome>, attempt: nat): (r: Attempts)
    requires attempt < MaxRetries <= |outcomes|
    ensures |r.events| % 2 == 1 && |r.events| <= 2 * (MaxRetries - attempt) - 1
    ensures r.events[0] == Fetch(tag) && r.events[|r.events| - 1] == Fetch(tag)
    ensures r.result.Ok? ==> exists i :: attempt <= i < MaxRetries && outcomes[i] == Fetched(r.result.value)
    decreases MaxRetries - attempt
  {
    match outcomes[attempt]
    case Fetched(p) => Attempts(Ok(p), [Fetch(tag)])
    case Failed(e) =>
      if attempt < MaxRetries - 1 then
        var rest := Retry(tag, outcomes, attempt + 1);
        Attempts(rest.result, [Fetch(tag), Sleep(Pow2(attempt))] + rest.events)
      else
        Attempts(Err(e), [Fetch(tag)])
    case _ => Attempts(Err(Raised(outcomes[attempt])), [Fetch(tag)])
  }

  /** The events of `n` attempts that each failed transiently: a fetch, then a sleep of `2**i`. */
  function FailedAttempts(tag: string, n: nat): (r: seq<ClientEvent>)
    ensures |r| == 2 * n
    ensures forall i :: 0 <= i < n ==> r[2 * i] == Fetch(tag) && r[2 * i + 1] == Sleep(Pow2(i))
  {
    if n == 0 then [] else FailedAttempts(tag, n - 1) + [Fetch(tag), Sleep(Pow2(n - 1))]
  }

  /** One transient failure before the last attempt: a fetch and a sleep, then the next attempt. */
  lemma RetryContinues(tag: string, outcomes: seq<FetchOutcome>, attempt: nat)
    requires attempt < MaxRetries - 1 && MaxRetries <= |outcomes| && outcomes[attempt].Failed?
    ensures Retry(tag, outcomes, attempt).result == Retry(tag, outcomes, attempt + 1).result
    ensures FailedAttempts(tag, attempt) + Retry(tag, outcomes, attempt).events
         == FailedAttempts(tag, attempt + 1) + Retry(tag, outcomes, attempt + 1).events
  {
    var rest := Retry(tag, outcomes, attempt + 1).events;
    var step := [Fetch(tag), Sleep(Pow2(attempt))];
    assert Retry(tag, outcomes, attempt).events == step + rest;
    assert FailedAttempts(tag, attempt + 1) == FailedAttempts(tag, attempt) + step;
    assert FailedAttempts(tag, attempt) + (step + rest) == (FailedAttempts(tag, attempt) + step) + rest;
  }

  /** The attempt that ends the loop: one fetch, whose outcome is the result. */
  lemma RetryStops(tag: string, outcomes: seq<FetchOutcome>, attempt: nat)
    requires attempt < MaxRetries <= |outcomes|
    requires !outcomes[attempt].Failed? || attempt == MaxRetries - 1
    ensures Retry(tag, outcomes, attempt).events == [Fetch(tag)]
    ensures Retry(tag, outcomes, attempt).result
         == if outcomes[attempt].Fetched? then Ok(outcomes[attempt].player) else Err(Raised(outcomes[attempt]))
  {
  }

  /**
   * The loop from `attempt` on, when attempts `attempt` to `k - 1` fail
   * transiently and attempt `k` is the one that ends it: `k - attempt` failed
   * attempts, then one fetch whose outcome decides the result.
   */
  lemma {:induction false} RetryFrom(tag: string, outcomes: seq<FetchOutcome>, attempt: nat, k: nat)
    requires attempt <= k < MaxRetries <= |outcomes|
    requires forall i :: attempt <= i < k ==> outcomes[i].Failed?
    requires !outcomes[k].Failed? || k == MaxRetries - 1
    ensures var a := Retry(tag, outcomes, attempt);
            && a.result == (if outcomes[k].Fetched? then Ok(outcomes[k].player) else Err(Raised(outcomes[k])))
            && FailedAttempts(tag, attempt) + a.events == FailedAttempts(tag, k) + [Fetch(tag)]
    decreases k - attempt
  {
    if attempt < k {
      RetryFrom(tag, outcomes, attempt + 1, k);
      RetryContinues(tag, outcomes, attempt);
    } else {
      RetryStops(tag, outcomes, attempt);
    }
  }

  /**
   * The whole loop: the first attempt that is not a transient failure (or
   * the third attempt) decides the result; before it, every attempt fetched
   * once and slept 1, then 2 seconds; nothing follows its fetch.
   */
  lemma RetryOutcome(tag: string, outcomes: seq<FetchOutcome>, k: nat)
    requires k < MaxRetries <= |outcomes|
    requires forall i :: 0 <= i < k ==> outcomes[i].Failed?
    requires !outcomes[k].Failed? || k == MaxRetries - 1
    ensures var a := Retry(tag, outcomes, 0);
            && a.result == (if outcomes[k].Fetched? then Ok(outcomes[k].player) else Err(Raised(outcomes[k])))
            && a.events == FailedAttempts(tag, k) + [Fetch(tag)]
  {
    RetryFrom(tag, outcomes, 0, k);
    assert FailedAttempts(tag, 0) == [];
  }

  /** Whatever the outcomes, the loop fetches at most three times and sleeps at most twice, 1 then 2 seconds. */
  lemma RetryBounded(tag: string, outcomes: seq<FetchOutcome>)
    requires MaxRetries <= |outcomes|
    ensures var ev := Retry(tag, outcomes, 0).events;
            exists k :: 0 <= k < MaxRetries && ev == FailedAttempts(tag, k) + [Fetch(tag)]
  {
    var k := if !outcomes[0].Failed? then 0 else if !outcomes[1].Failed? then 1 else 2;
    RetryOutcome(tag, outcomes, k);
  }

  /** The client wrapper: the library session is represented by the login flag. */
  class Client {
    var initialized: bool
    ghost var log: seq<ClientEvent>

    /** A fresh client, not yet logged in. */
    constructor()
      ensures !initialized && log == []
    {
      initialized := false;
      log := [];
    }

    /** `initialize`: logs in only when not logged in yet. */
    method Initialize()
      modifies this
      ensures initialized
      ensures log == old(log) + (if old(initialized) then [] else [Login])
    {
      if !initialized {
        log := log + [Login];
        initialized := true;
      }
    }

    /** `close`: closes the session only when one is open. */
    method Close()
      modifies this
      ensures !initialized
      ensures log == old(log) + (if old(initialized) then [Disconnect] else [])
    {
      if initialized {
        log := log + [Disconnect];
        initialized := false;
      }
    }

    /**
     * `get_player`: logs in if needed, normalises the tag, then runs the
     * retry loop over the library's outcomes.
     */
    method GetPlayer(tag: string, outcomes: seq<FetchOutcome>) returns (r: Result<RawPlayer, Exception>)
      requires MaxRetries <= |outcomes|
      modifies this
      ensures initialized
      ensures r == Retry(NormalizeTag(tag), outcomes, 0).result
      ensures log == old(log) + (if old(initialized) then [] else [Login]) + Retry(NormalizeTag(tag), outcomes, 0).events
    {
      Initialize();
      var t := tag;
      if !StartsWith(t, "#") {
        t := "#" + t;
      }
      assert t == NormalizeTag(tag);
      ghost var start := log;
      var attempt := 0;
      assert FailedAttempts(t, 0) == [];
      while true
        invariant 0 <= attempt < MaxRetries && initialized
        invariant forall i :: 0 <= i < attempt ==> outcomes[i].Failed?
        invariant log == start + FailedAttempts(t, attempt)
        decreases MaxRetries - attempt
      {
        var outcome := outcomes[attempt];
        log := log + [Fetch(t)];
        if outcome.Failed? && attempt < MaxRetries - 1 {
          log := log + [Sleep(Pow2(attempt))];
          assert log == start + (FailedAttempts(t, attempt) + [Fetch(t), Sleep(Pow2(attempt))]);
          attempt := attempt + 1;
        } else {
          RetryOutcome(t, outcomes, attempt);
          assert log == start + (FailedAttempts(t, attempt) + [Fetch(t)]);
          if outcome.Fetched? {
            return Ok(outcome.player);
          } else if outcome.Failed? {
            return Err(outcome.error);
          } else {
            return Err(Raised(outcome));
          }
        }
      }
    }
  }
}
