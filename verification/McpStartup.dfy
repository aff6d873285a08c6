/** Connecting a server at start-up with retries, and the time budgets around connecting
    (cogtrix_core/mcp_client.py). Times are in seconds. */
module McpStartup {
  import opened Options

  /** How one connection attempt ends, how long it took, and how long closing it took after a failure. */
  datatype Attempt = Connects(took: nat) | Fails(failFast: bool, took: nat, closing: nat)

  const MAX_RETRIES: nat := 2
  const RETRY_DELAYS: seq<nat> := [2, 5]

  function Cost(a: Attempt): nat { a.took + if a.Fails? then a.closing else 0 }

  /** A failure that is tried again. */
  predicate Retryable(a: Attempt) { a.Fails? && !a.failFast }

  /** How many attempts are made. */
  function Tried(attempts: nat -> Attempt): (n: nat)
    ensures 1 <= n <= MAX_RETRIES + 1
  {
    if !Retryable(attempts(0)) then 1 else if !Retryable(attempts(1)) then 2 else 3
  }

  /** The time the first n attempts take, with the back-offs between them. */
  function Elapsed(attempts: nat -> Attempt, n: nat): nat
    requires n <= MAX_RETRIES + 1
  {
    if n == 0 then 0
    else Elapsed(attempts, n - 1) + (if n == 1 then 0 else RETRY_DELAYS[n - 2]) + Cost(attempts(n - 1))
  }

  /** `_connect_one_async`. Attempt k opens handle k; `attempts(k)` tells how it ends. */
  method ConnectOne(attempts: nat -> Attempt)
    returns (conn: Option<nat>, tried: nat, closed: set<nat>, elapsed: nat)
    ensures tried == Tried(attempts)
    ensures conn == if attempts(tried - 1).Connects? then Some(tried - 1) else None
    // every handle that was opened is closed, except the one returned
    ensures forall k: nat :: k in closed <==> k < tried && conn != Some(k)
    ensures elapsed == Elapsed(attempts, tried)
  {
    conn, tried, closed, elapsed := None, 0, {}, 0;
    for attempt := 0 to MAX_RETRIES + 1
      invariant tried == attempt && conn.None?
      invariant forall k: nat :: k < attempt ==> Retryable(attempts(k))
      invariant forall k: nat :: k in closed <==> k < attempt
      invariant elapsed == Elapsed(attempts, attempt) +
        if 0 < attempt <= MAX_RETRIES then RETRY_DELAYS[attempt - 1] else 0
    {
      tried := tried + 1;
      var a := attempts(attempt);
      elapsed := elapsed + a.took;
      if a.Connects? {
        return Some(attempt), tried, closed, elapsed;
      }
      elapsed := elapsed + a.closing;
      closed := closed + {attempt};
      if a.failFast {
        break;
      }
      if attempt < MAX_RETRIES {
        elapsed := elapsed + RETRY_DELAYS[attempt];
      }
    }
  }

  function Max(ts: seq<nat>, default: nat): (m: nat)
    ensures forall i :: 0 <= i < |ts| ==> ts[i] <= m
    ensures ts == [] ==> m == default
    ensures ts != [] ==> m in ts
  {
    if ts == [] then default
    else
      var rest := Max(ts[1..], ts[0]);
      if ts[0] > rest then ts[0] else rest
  }

  /** What `connect_all` allows for connecting to all servers at once. */
  function StartupBudget(timeouts: seq<nat>): nat { Max(timeouts, 30) + 5 }

  /** No attempt takes longer than the server's timeout, nor its closing longer than `closing`. */
  ghost predicate Bounded(attempts: nat -> Attempt, timeout: nat, closing: nat) {
    forall k: nat :: attempts(k).took <= timeout && (attempts(k).Fails? ==> attempts(k).closing <= closing)
  }

  /** However the attempts of such a server go, it is done within the start-up budget. */
  ghost predicate AlwaysFits(timeout: nat, closing: nat, timeouts: seq<nat>) {
    forall attempts: nat -> Attempt :: Bounded(attempts, timeout, closing) ==>
      Elapsed(attempts, Tried(attempts)) <= StartupBudget(timeouts)
  }

  /** A server that uses up all its retries fits the budget if and only if what its attempts take, with the two
      back-offs, does. */
  lemma RetriesFitIff(attempts: nat -> Attempt, timeouts: seq<nat>)
    requires Retryable(attempts(0)) && Retryable(attempts(1))
    ensures Elapsed(attempts, Tried(attempts)) <= StartupBudget(timeouts)
       <==> Cost(attempts(0)) + 2 + Cost(attempts(1)) + 5 + Cost(attempts(2)) <= Max(timeouts, 30) + 5
  {
    ThreeAttempts(attempts);
  }

  lemma ThreeAttempts(attempts: nat -> Attempt)
    ensures Elapsed(attempts, 1) == Cost(attempts(0))
    ensures Elapsed(attempts, 2) == Cost(attempts(0)) + 2 + Cost(attempts(1))
    ensures Elapsed(attempts, 3) == Cost(attempts(0)) + 2 + Cost(attempts(1)) + 5 + Cost(attempts(2))
  {
    assert Elapsed(attempts, 0) == 0;
    assert Elapsed(attempts, 1) == Cost(attempts(0));
    assert Elapsed(attempts, 2) == Cost(attempts(0)) + 2 + Cost(attempts(1));
  }

  /** The budget covers every way a server can go if and only if it covers three attempts of full length. */
  lemma AlwaysFitsIff(timeout: nat, closing: nat, timeouts: seq<nat>)
    ensures AlwaysFits(timeout, closing, timeouts) <==> 3 * (timeout + closing) + 7 <= StartupBudget(timeouts)
  {
    var worst: nat -> Attempt := k => Fails(false, timeout, closing);
    ThreeAttempts(worst);
    assert Bounded(worst, timeout, closing);
    forall attempts: nat -> Attempt | Bounded(attempts, timeout, closing)
      ensures Elapsed(attempts, Tried(attempts)) <= 3 * (timeout + closing) + 7
    {
      ThreeAttempts(attempts);
      assert forall k: nat :: Cost(attempts(k)) <= timeout + closing;
    }
    assert Elapsed(worst, Tried(worst)) == 3 * (timeout + closing) + 7;
  }

  /** So the slowest server is never sure of its retries, though one attempt of any server fits when closing it
      takes at most five seconds. */
  lemma SlowestMayExceed(timeouts: seq<nat>, t: nat, closing: nat)
    requires t in timeouts
    ensures t == Max(timeouts, 30) ==> !AlwaysFits(t, closing, timeouts)
    ensures forall attempts: nat -> Attempt :: Bounded(attempts, t, closing) && Tried(attempts) == 1 && closing <= 5 ==>
      Elapsed(attempts, 1) <= StartupBudget(timeouts)
  {
    AlwaysFitsIff(t, closing, timeouts);
    forall attempts: nat -> Attempt | Bounded(attempts, t, closing) ensures Elapsed(attempts, 1) <= t + closing {
      ThreeAttempts(attempts);
    }
  }

  /** With the default timeout of 30 seconds: three attempts that time out take 97 seconds of the 35, three that
      are refused at once take 7. */
  lemma SilentServerExceeds(attempts: nat -> Attempt, refused: nat -> Attempt)
    requires forall k: nat :: attempts(k) == Fails(false, 30, 0) && refused(k) == Fails(false, 0, 0)
    ensures Elapsed(attempts, Tried(attempts)) == 97 && StartupBudget([30]) == 35
    ensures Elapsed(refused, Tried(refused)) == 7
  {
    ThreeAttempts(attempts);
    ThreeAttempts(refused);
  }

  function Sum(ts: seq<nat>): nat { if ts == [] then 0 else ts[0] + Sum(ts[1..]) }

  const CLOSE_WAIT: nat := 10

  /** `overall_timeout` of `restart`. */
  function RestartBudget(timeout: nat, timeouts: seq<nat>): nat {
    var needed := Sum(timeouts) + CLOSE_WAIT * |timeouts|;
    if timeouts == [] || timeout > needed then timeout else needed
  }

  /** The waits of a restart, one server after the other: closing, then connecting. */
  function RestartWaits(timeouts: seq<nat>): seq<nat> {
    if timeouts == [] then [] else [CLOSE_WAIT, timeouts[0]] + RestartWaits(timeouts[1..])
  }

  /** The overall timeout of a restart is at least the sum of all its inner waits, for any targets. */
  lemma {:induction false} RestartBudgetCoversWaits(timeout: nat, timeouts: seq<nat>)
    ensures Sum(RestartWaits(timeouts)) == Sum(timeouts) + CLOSE_WAIT * |timeouts|
    ensures RestartBudget(timeout, timeouts) >= Sum(RestartWaits(timeouts))
  {
    if timeouts != [] {
      RestartBudgetCoversWaits(timeout, timeouts[1..]);
      var rest := RestartWaits(timeouts[1..]);
      assert RestartWaits(timeouts)[1..] == [timeouts[0]] + rest;
      assert ([timeouts[0]] + rest)[1..] == rest;
    }
  }
}
