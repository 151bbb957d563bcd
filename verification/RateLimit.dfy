/** Token buckets, one per agent, over real-valued time. */
module RateLimit {

  type Agent = string

  datatype Limits = Limits(capacity: real, rate: real)

  /** Limits a limiter can be run with: a zero rate would divide by zero on the first denial. */
  predicate Usable(l: Limits) {
    l.capacity >= 0.0 && l.rate > 0.0
  }

  datatype Bucket = Bucket(tokens: real, refilledAt: real)

  datatype Grant = Grant(ok: bool, retryAfter: real)

  datatype Call = Call(now: real, n: real)

  function Full(l: Limits, now: real): Bucket {
    Bucket(l.capacity, now)
  }

  function Min(a: real, b: real): (m: real)
    ensures m <= a && m <= b && (m == a || m == b)
  {
    if a <= b then a else b
  }

  /** Tokens that flow in over a stretch of time. */
  function Inflow(l: Limits, elapsed: real): real {
    elapsed * l.rate
  }

  function Refill(l: Limits, b: Bucket, now: real): Bucket {
    Bucket(Min(l.capacity, b.tokens + Inflow(l, now - b.refilledAt)), now)
  }

  function TryConsume(l: Limits, b: Bucket, c: Call): (Bucket, Grant)
    requires Usable(l)
  {
    var full := Refill(l, b, c.now);
    if full.tokens >= c.n then (full.(tokens := full.tokens - c.n), Grant(true, 0.0))
    else (full, Grant(false, (c.n - full.tokens) / l.rate))
  }

  class TokenBucket {
    const limits: Limits
    var tokens: real
    var refilledAt: real

    function State(): Bucket reads this {
      Bucket(tokens, refilledAt)
    }

    constructor (limits: Limits, now: real)
      ensures this.limits == limits && State() == Full(limits, now)
      ensures tokens == limits.capacity && refilledAt == now
    {
      this.limits := limits;
      tokens, refilledAt := limits.capacity, now;
    }

    method Consume(now: real, n: real) returns (ok: bool, retryAfter: real)
      requires Usable(limits)
      modifies this
      ensures (State(), Grant(ok, retryAfter)) == TryConsume(limits, old(State()), Call(now, n))
      // with `have` the refilled level: granted exactly if it covers the amount, which is then taken off
      ensures var flowed := old(tokens) + (now - old(refilledAt)) * limits.rate;
              var have := if flowed < limits.capacity then flowed else limits.capacity;
              && (ok <==> have >= n) && tokens == (if have >= n then have - n else have) && refilledAt == now
              && (have < n ==> retryAfter * limits.rate == n - have) && (ok ==> retryAfter == 0.0)
    {
      RetryCovers(limits, old(State()), Call(now, n));
      ghost var flow := (now - refilledAt) * limits.rate;
      assert Inflow(limits, now - refilledAt) == flow;
      hide Inflow;
      var elapsed := now - refilledAt;
      tokens := Min(limits.capacity, tokens + Inflow(limits, elapsed));
      refilledAt := now;
      if tokens >= n {
        tokens := tokens - n;
        return true, 0.0;
      }
      var deficit := n - tokens;
      return false, deficit / limits.rate;
    }
  }

  // ---------------------------------------------------------------- one bucket, any calls

  ghost predicate Sound(l: Limits, b: Bucket) {
    0.0 <= b.tokens <= l.capacity
  }

  /** The clock never runs backwards and no call asks for a negative amount. */
  ghost predicate Timely(from: real, cs: seq<Call>)
    decreases |cs|
  {
    cs == [] || (from <= cs[0].now && cs[0].n >= 0.0 && Timely(cs[0].now, cs[1..]))
  }

  function After(l: Limits, b: Bucket, cs: seq<Call>): Bucket
    requires Usable(l)
    decreases |cs|
  {
    if cs == [] then b else After(l, TryConsume(l, b, cs[0]).0, cs[1..])
  }

  function Granted(l: Limits, b: Bucket, cs: seq<Call>): real
    requires Usable(l)
    decreases |cs|
  {
    if cs == [] then 0.0
    else (if TryConsume(l, b, cs[0]).1.ok then cs[0].n else 0.0) + Granted(l, TryConsume(l, b, cs[0]).0, cs[1..])
  }

  lemma InflowAdds(l: Limits, x: real, y: real)
    ensures Inflow(l, x + y) == Inflow(l, x) + Inflow(l, y)
    ensures Inflow(l, 0.0) == 0.0
  {
  }

  lemma InflowGrows(l: Limits, x: real, y: real)
    requires Usable(l)
    ensures x <= y ==> Inflow(l, x) <= Inflow(l, y)
    ensures x < y ==> Inflow(l, x) < Inflow(l, y)
  {
    var d := y - x;
    assert d > 0.0 ==> d * l.rate > 0.0;
    assert d == 0.0 ==> d * l.rate == 0.0;
    InflowAdds(l, x, d);
  }

  lemma InflowOfWait(l: Limits, deficit: real)
    requires Usable(l)
    ensures Inflow(l, deficit / l.rate) == deficit
  {
  }

  lemma WaitOfInflow(l: Limits, wait: real)
    requires Usable(l)
    ensures Inflow(l, wait) / l.rate == wait
  {
  }

  lemma StepSound(l: Limits, b: Bucket, c: Call)
    requires Usable(l) && Sound(l, b) && b.refilledAt <= c.now && c.n >= 0.0
    ensures Sound(l, TryConsume(l, b, c).0) && TryConsume(l, b, c).0.refilledAt == c.now
  {
    InflowPositive(l, c.now - b.refilledAt);
    hide Inflow;
  }

  lemma InflowPositive(l: Limits, x: real)
    requires Usable(l) && x >= 0.0
    ensures Inflow(l, x) >= 0.0
  {
    InflowGrows(l, 0.0, x);
    InflowAdds(l, 0.0, 0.0);
  }

  /** The bucket never goes negative and never overfills. */
  lemma {:induction false} TokensStayInRange(l: Limits, b: Bucket, cs: seq<Call>)
    requires Usable(l) && Sound(l, b) && Timely(b.refilledAt, cs)
    ensures Sound(l, After(l, b, cs))
    ensures After(l, b, cs).refilledAt == if cs == [] then b.refilledAt else cs[|cs| - 1].now
    ensures b.refilledAt <= After(l, b, cs).refilledAt
    decreases |cs|
  {
    if cs != [] {
      StepSound(l, b, cs[0]);
      hide TryConsume;
      TokensStayInRange(l, TryConsume(l, b, cs[0]).0, cs[1..]);
    }
  }

  /** What is granted and what is left never exceed what was there and what flowed in. */
  lemma {:induction false} Conserves(l: Limits, b: Bucket, cs: seq<Call>)
    requires Usable(l) && Sound(l, b) && Timely(b.refilledAt, cs)
    ensures Granted(l, b, cs) + After(l, b, cs).tokens
            <= b.tokens + Inflow(l, After(l, b, cs).refilledAt - b.refilledAt)
    decreases |cs|
  {
    hide Inflow;
    if cs != [] {
      var next := TryConsume(l, b, cs[0]).0;
      StepSound(l, b, cs[0]);
      Conserves(l, next, cs[1..]);
      var end := After(l, b, cs).refilledAt;
      InflowAdds(l, end - cs[0].now, cs[0].now - b.refilledAt);
      assert end - b.refilledAt == (end - cs[0].now) + (cs[0].now - b.refilledAt);
    } else {
      InflowAdds(l, 0.0, 0.0);
    }
  }

  lemma {:induction false} AfterSplit(l: Limits, b: Bucket, cs: seq<Call>, ds: seq<Call>)
    requires Usable(l)
    ensures After(l, b, cs + ds) == After(l, After(l, b, cs), ds)
    decreases |cs|
  {
    if cs == [] {
      assert cs + ds == ds;
    } else {
      assert (cs + ds)[0] == cs[0] && (cs + ds)[1..] == cs[1..] + ds;
      AfterSplit(l, TryConsume(l, b, cs[0]).0, cs[1..], ds);
    }
  }

  lemma {:induction false} TimelySplit(from: real, cs: seq<Call>, ds: seq<Call>)
    requires Timely(from, cs + ds)
    ensures Timely(from, cs) && Timely(if cs == [] then from else cs[|cs| - 1].now, ds)
    decreases |cs|
  {
    if cs == [] {
      assert cs + ds == ds;
    } else {
      assert (cs + ds)[0] == cs[0] && (cs + ds)[1..] == cs[1..] + ds;
      TimelySplit(cs[0].now, cs[1..], ds);
    }
  }

  /** In any window of any run the amount granted is at most the capacity plus the inflow over the
      window: between call `i` and call `j`, both included. */
  lemma WindowBound(l: Limits, b: Bucket, cs: seq<Call>, i: nat, j: nat)
    requires Usable(l) && Sound(l, b) && Timely(b.refilledAt, cs)
    requires i <= j < |cs|
    ensures Granted(l, After(l, b, cs[..i]), cs[i..j + 1]) <= l.capacity + Inflow(l, cs[j].now - cs[i].now)
  {
    hide Inflow, TryConsume;
    var before, window, rest := cs[..i], cs[i..j + 1], cs[j + 1..];
    assert cs == before + (window + rest);
    TimelySplit(b.refilledAt, before, window + rest);
    TokensStayInRange(l, b, before);
    var start := After(l, b, before);
    TimelySplit(start.refilledAt, window, rest);
    assert window[0] == cs[i] && window[|window| - 1] == cs[j];
    FirstRefill(l, start, window);
  }

  /** Counting from the refill of the first call, the inflow starts at a full bucket at most. */
  lemma FirstRefill(l: Limits, b: Bucket, cs: seq<Call>)
    requires Usable(l) && Sound(l, b) && Timely(b.refilledAt, cs) && cs != []
    ensures Granted(l, b, cs) <= l.capacity + Inflow(l, cs[|cs| - 1].now - cs[0].now)
  {
    hide Inflow;
    var full := Refill(l, b, cs[0].now);
    InflowPositive(l, cs[0].now - b.refilledAt);
    assert Refill(l, full, cs[0].now) == full by { InflowAdds(l, 0.0, 0.0); assert cs[0].now - full.refilledAt == 0.0; }
    assert TryConsume(l, full, cs[0]) == TryConsume(l, b, cs[0]);
    assert Timely(full.refilledAt, cs);
    Conserves(l, full, cs);
    TokensStayInRange(l, full, cs);
  }

  // ---------------------------------------------------------------- exactly what is granted

  /** Every call of the run is granted. */
  predicate AllGranted(l: Limits, b: Bucket, cs: seq<Call>)
    requires Usable(l)
    decreases |cs|
  {
    cs == [] || (TryConsume(l, b, cs[0]).1.ok && AllGranted(l, TryConsume(l, b, cs[0]).0, cs[1..]))
  }

  /** What the calls ask for together. */
  function Sum(cs: seq<Call>): real
    decreases |cs|
  {
    if cs == [] then 0.0 else cs[0].n + Sum(cs[1..])
  }

  lemma {:induction false} SumSnoc(cs: seq<Call>, c: Call)
    ensures Sum(cs + [c]) == Sum(cs) + c.n
    decreases |cs|
  {
    if cs == [] {
      assert cs + [c] == [c] && [c][1..] == [];
    } else {
      assert (cs + [c])[0] == cs[0] && (cs + [c])[1..] == cs[1..] + [c];
      SumSnoc(cs[1..], c);
    }
  }

  lemma {:induction false} GrantedIsSum(l: Limits, b: Bucket, cs: seq<Call>)
    requires Usable(l) && AllGranted(l, b, cs)
    ensures Granted(l, b, cs) == Sum(cs)
    decreases |cs|
  {
    hide TryConsume;
    if cs != [] { GrantedIsSum(l, TryConsume(l, b, cs[0]).0, cs[1..]); }
  }

  lemma {:induction false} GrantedSplit(l: Limits, b: Bucket, cs: seq<Call>, ds: seq<Call>)
    requires Usable(l)
    ensures AllGranted(l, b, cs + ds) <==> AllGranted(l, b, cs) && AllGranted(l, After(l, b, cs), ds)
    decreases |cs|
  {
    hide TryConsume;
    if cs == [] {
      assert cs + ds == ds;
    } else {
      assert (cs + ds)[0] == cs[0] && (cs + ds)[1..] == cs[1..] + ds;
      GrantedSplit(l, TryConsume(l, b, cs[0]).0, cs[1..], ds);
    }
  }

  /** Calls that together ask for no more than the bucket holds are all granted, and leave the rest and
      what flowed in, up to the capacity. */
  lemma {:induction false} SmallRunsGranted(l: Limits, b: Bucket, cs: seq<Call>)
    requires Usable(l) && Sound(l, b) && Timely(b.refilledAt, cs) && Sum(cs) <= b.tokens
    ensures AllGranted(l, b, cs) && After(l, b, cs).tokens >= b.tokens - Sum(cs)
    decreases |cs|
  {
    hide Inflow;
    if cs != [] {
      SumPositive(cs[0].now, cs[1..]);
      InflowPositive(l, cs[0].now - b.refilledAt);
      StepSound(l, b, cs[0]);
      SmallRunsGranted(l, TryConsume(l, b, cs[0]).0, cs[1..]);
    }
  }

  lemma {:induction false} SumPositive(from: real, cs: seq<Call>)
    requires Timely(from, cs)
    ensures Sum(cs) >= 0.0
    decreases |cs|
  {
    if cs != [] { SumPositive(cs[0].now, cs[1..]); }
  }

  /** Where the level after a fully granted run comes from: the start, or a refill that filled the bucket. */
  ghost predicate From(l: Limits, b: Bucket, cs: seq<Call>, end: Bucket, i: int) {
    && -1 <= i < |cs|
    && (i == -1 ==> end.tokens == b.tokens + Inflow(l, end.refilledAt - b.refilledAt) - Sum(cs))
    && (i >= 0 ==> end.tokens == l.capacity + Inflow(l, end.refilledAt - cs[i].now) - Sum(cs[i..]))
  }

  lemma {:induction false} LevelFrom(l: Limits, b: Bucket, cs: seq<Call>) returns (i: int)
    requires Usable(l) && Timely(b.refilledAt, cs) && AllGranted(l, b, cs)
    ensures From(l, b, cs, After(l, b, cs), i)
    decreases |cs|
  {
    hide Inflow;
    InflowAdds(l, 0.0, 0.0);
    if cs == [] { return -1; }
    var c := cs[0];
    var next := TryConsume(l, b, c).0;
    var end := After(l, b, cs);
    var k := LevelFrom(l, next, cs[1..]);
    InflowAdds(l, end.refilledAt - c.now, c.now - b.refilledAt);
    assert (end.refilledAt - c.now) + (c.now - b.refilledAt) == end.refilledAt - b.refilledAt;
    if k >= 0 {
      assert cs[1..][k..] == cs[k + 1..];
      return k + 1;
    }
    assert cs[0..] == cs;
    return if l.capacity <= b.tokens + Inflow(l, c.now - b.refilledAt) then 0 else -1;
  }

  /** Calls `i` to `j` ask for at most a full bucket and what flows in between them. */
  predicate WindowFits(l: Limits, cs: seq<Call>, i: nat, j: nat)
    requires i <= j < |cs|
  {
    Sum(cs[i..j + 1]) <= l.capacity + Inflow(l, cs[j].now - cs[i].now)
  }

  /** The calls up to `j` ask for at most what was there and what flowed in since. */
  predicate PrefixFits(l: Limits, b: Bucket, cs: seq<Call>, j: nat)
    requires j < |cs|
  {
    Sum(cs[..j + 1]) <= b.tokens + Inflow(l, cs[j].now - b.refilledAt)
  }

  ghost predicate Conforms(l: Limits, b: Bucket, cs: seq<Call>) {
    && (forall i, j :: 0 <= i <= j < |cs| ==> WindowFits(l, cs, i, j))
    && (forall j :: 0 <= j < |cs| ==> PrefixFits(l, b, cs, j))
  }

  /** Timely calls are all granted if and only if no window of them asks for more than the capacity and its
      inflow, and no prefix for more than the bucket held and its inflow. */
  lemma GrantsExactlyConforming(l: Limits, b: Bucket, cs: seq<Call>)
    requires Usable(l) && Sound(l, b) && Timely(b.refilledAt, cs)
    ensures AllGranted(l, b, cs) <==> Conforms(l, b, cs)
  {
    hide WindowFits, PrefixFits, Timely, Sound, AllGranted;
    if AllGranted(l, b, cs) {
      forall i, j | 0 <= i <= j < |cs| ensures WindowFits(l, cs, i, j) { GrantedWindowFits(l, b, cs, i, j); }
      forall j | 0 <= j < |cs| ensures PrefixFits(l, b, cs, j) { GrantedPrefixFits(l, b, cs, j); }
    }
    if Conforms(l, b, cs) { ConformingGranted(l, b, cs, |cs|); }
    assert cs[..|cs|] == cs;
  }

  lemma GrantedWindowFits(l: Limits, b: Bucket, cs: seq<Call>, i: nat, j: nat)
    requires Usable(l) && Sound(l, b) && Timely(b.refilledAt, cs) && i <= j < |cs| && AllGranted(l, b, cs)
    ensures WindowFits(l, cs, i, j)
  {
    hide Inflow, TryConsume, Granted;
    WindowBound(l, b, cs, i, j);
    assert cs == cs[..i] + (cs[i..j + 1] + cs[j + 1..]);
    GrantedSplit(l, b, cs[..i], cs[i..j + 1] + cs[j + 1..]);
    GrantedSplit(l, After(l, b, cs[..i]), cs[i..j + 1], cs[j + 1..]);
    GrantedIsSum(l, After(l, b, cs[..i]), cs[i..j + 1]);
  }

  lemma GrantedPrefixFits(l: Limits, b: Bucket, cs: seq<Call>, j: nat)
    requires Usable(l) && Sound(l, b) && Timely(b.refilledAt, cs) && j < |cs| && AllGranted(l, b, cs)
    ensures PrefixFits(l, b, cs, j)
  {
    hide Inflow, TryConsume, Granted;
    assert cs == cs[..j + 1] + cs[j + 1..];
    TimelySplit(b.refilledAt, cs[..j + 1], cs[j + 1..]);
    GrantedSplit(l, b, cs[..j + 1], cs[j + 1..]);
    GrantedIsSum(l, b, cs[..j + 1]);
    Conserves(l, b, cs[..j + 1]);
    TokensStayInRange(l, b, cs[..j + 1]);
  }

  lemma {:induction false} ConformingGranted(l: Limits, b: Bucket, cs: seq<Call>, n: nat)
    requires Usable(l) && Sound(l, b) && Timely(b.refilledAt, cs) && Conforms(l, b, cs) && n <= |cs|
    ensures AllGranted(l, b, cs[..n])
    decreases n
  {
    hide Inflow, TryConsume;
    if n > 0 {
      var j := n - 1;
      ConformingGranted(l, b, cs, j);
      assert cs == cs[..j] + cs[j..] && cs[..n] == cs[..j] + [cs[j]];
      TimelySplit(b.refilledAt, cs[..j], cs[j..]);
      GrantedSplit(l, b, cs[..j], [cs[j]]);
      NextGranted(l, b, cs, j);
    }
  }

  lemma NextGranted(l: Limits, b: Bucket, cs: seq<Call>, j: nat)
    requires Usable(l) && j < |cs| && Timely(b.refilledAt, cs[..j]) && AllGranted(l, b, cs[..j])
    requires Conforms(l, b, cs)
    ensures AllGranted(l, After(l, b, cs[..j]), [cs[j]])
  {
    hide Inflow;
    var end := After(l, b, cs[..j]);
    var c := cs[j];
    var i := LevelFrom(l, b, cs[..j]);
    InflowAdds(l, 0.0, 0.0);
    assert WindowFits(l, cs, j, j) && PrefixFits(l, b, cs, j);
    assert cs[j..j + 1] == [] + [c];
    SumSnoc([], c);
    assert cs[..j + 1] == cs[..j] + [c];
    SumSnoc(cs[..j], c);
    InflowAdds(l, c.now - end.refilledAt, end.refilledAt - b.refilledAt);
    assert (c.now - end.refilledAt) + (end.refilledAt - b.refilledAt) == c.now - b.refilledAt;
    if i >= 0 {
      assert WindowFits(l, cs, i, j);
      assert cs[i..j + 1] == cs[..j][i..] + [c] && cs[..j][i] == cs[i];
      SumSnoc(cs[..j][i..], c);
      InflowAdds(l, c.now - end.refilledAt, end.refilledAt - cs[i].now);
      assert (c.now - end.refilledAt) + (end.refilledAt - cs[i].now) == c.now - cs[i].now;
    }
    assert TryConsume(l, end, c).1.ok;
    assert [c][1..] == [];
  }

  // ---------------------------------------------------------------- the retry time

  lemma RetryCovers(l: Limits, b: Bucket, c: Call)
    requires Usable(l)
    ensures !TryConsume(l, b, c).1.ok ==>
              TryConsume(l, b, c).1.retryAfter * l.rate == c.n - Refill(l, b, c.now).tokens
  {
  }

  function Polls(times: seq<real>, n: real): seq<Call> {
    seq(|times|, k requires 0 <= k < |times| => Call(times[k], n))
  }

  /** `times` never run backwards from `from` and stay below `until`. */
  ghost predicate Between(from: real, times: seq<real>, until: real)
    decreases |times|
  {
    times == [] || (from <= times[0] < until && Between(times[0], times[1..], until))
  }

  /** The instant at which `n` tokens are there, seen from a bucket that has fewer. */
  ghost predicate Due(l: Limits, b: Bucket, n: real, at: real) {
    b.tokens + Inflow(l, at - b.refilledAt) == n && b.tokens < n
  }

  /** A poll before the due instant is denied, names that same instant, and does not move it. */
  lemma DeniedBefore(l: Limits, b: Bucket, n: real, at: real, now: real)
    requires Usable(l) && Due(l, b, n, at) && n <= l.capacity && b.refilledAt <= now < at
    ensures var (next, grant) := TryConsume(l, b, Call(now, n));
            !grant.ok && Due(l, next, n, at) && next.refilledAt == now && now + grant.retryAfter == at
  {
    hide Inflow;
    InflowAdds(l, at - now, now - b.refilledAt);
    assert at - b.refilledAt == (at - now) + (now - b.refilledAt);
    InflowGrows(l, 0.0, at - now);
    InflowAdds(l, 0.0, 0.0);
    WaitOfInflow(l, at - now);
  }

  /** After a denial the named retry time is exact: however many further polls come before it, each is
      denied, and the first poll at or after it succeeds - exactly if the bucket can ever hold the
      amount asked for. */
  lemma {:induction false} RetryIsExact(l: Limits, b: Bucket, first: real, n: real, polls: seq<real>, last: real)
    requires Usable(l) && !TryConsume(l, b, Call(first, n)).1.ok
    requires var at := first + TryConsume(l, b, Call(first, n)).1.retryAfter;
             Between(first, polls, at) && at <= last
    ensures var b1 := TryConsume(l, b, Call(first, n)).0;
            && (forall k :: 0 <= k < |polls| ==>
                  !TryConsume(l, After(l, b1, Polls(polls[..k], n)), Call(polls[k], n)).1.ok)
            && (TryConsume(l, After(l, b1, Polls(polls, n)), Call(last, n)).1.ok <==> n <= l.capacity)
  {
    var (b1, grant) := TryConsume(l, b, Call(first, n));
    var at := first + grant.retryAfter;
    InflowOfWait(l, n - b1.tokens);
    assert at - b1.refilledAt == (n - b1.tokens) / l.rate;
    hide Inflow;
    assert Due(l, b1, n, at);
    hide TryConsume, Due;
    if n <= l.capacity {
      AllDenied(l, b1, n, at, polls);
      var end := After(l, b1, Polls(polls, n));
      GrantedAt(l, end, n, at, last);
    } else {
      forall k | 0 <= k < |polls| ensures !TryConsume(l, After(l, b1, Polls(polls[..k], n)), Call(polls[k], n)).1.ok {
        NeverGranted(l, After(l, b1, Polls(polls[..k], n)), Call(polls[k], n));
      }
      NeverGranted(l, After(l, b1, Polls(polls, n)), Call(last, n));
    }
  }

  lemma NeverGranted(l: Limits, b: Bucket, c: Call)
    requires Usable(l) && c.n > l.capacity
    ensures !TryConsume(l, b, c).1.ok
  {
  }

  lemma GrantedAt(l: Limits, b: Bucket, n: real, at: real, now: real)
    requires Usable(l) && Due(l, b, n, at) && n <= l.capacity && at <= now
    ensures TryConsume(l, b, Call(now, n)).1.ok
  {
    InflowGrows(l, at - b.refilledAt, now - b.refilledAt);
    hide Inflow;
  }

  lemma {:induction false} AllDenied(l: Limits, b: Bucket, n: real, at: real, polls: seq<real>)
    requires Usable(l) && Due(l, b, n, at) && n <= l.capacity && Between(b.refilledAt, polls, at)
    ensures forall k :: 0 <= k < |polls| ==> !TryConsume(l, After(l, b, Polls(polls[..k], n)), Call(polls[k], n)).1.ok
    ensures Due(l, After(l, b, Polls(polls, n)), n, at)
    decreases |polls|
  {
    hide TryConsume, Due;
    if polls != [] {
      DeniedBefore(l, b, n, at, polls[0]);
      var next := TryConsume(l, b, Call(polls[0], n)).0;
      AllDenied(l, next, n, at, polls[1..]);
      assert Polls(polls, n)[1..] == Polls(polls[1..], n);
      forall k | 0 <= k < |polls| ensures !TryConsume(l, After(l, b, Polls(polls[..k], n)), Call(polls[k], n)).1.ok {
        if k > 0 {
          assert Polls(polls[..k], n)[1..] == Polls(polls[1..][..k - 1], n);
          assert polls[1..][k - 1] == polls[k];
        } else {
          assert Polls(polls[..0], n) == [];
        }
      }
    }
  }

  // ---------------------------------------------------------------- one bucket per agent

  type Buckets = map<Agent, Bucket>

  /** A bucket is created, full, at the agent's first request. */
  function Check(l: Limits, bs: Buckets, agent: Agent, now: real): (Buckets, Grant)
    requires Usable(l)
  {
    var b := if agent in bs then bs[agent] else Full(l, now);
    var (next, grant) := TryConsume(l, b, Call(now, 1.0));
    (bs[agent := next], grant)
  }

  class AgentRateLimiter {
    const limits: Limits
    var buckets: map<Agent, TokenBucket>

    ghost predicate Valid() reads this {
      && Usable(limits)
      && (forall a :: a in buckets ==> buckets[a].limits == limits)
      && (forall a, b :: a in buckets && b in buckets && a != b ==> buckets[a] != buckets[b])
    }

    ghost function View(): Buckets reads this, buckets.Values {
      map a | a in buckets :: buckets[a].State()
    }

    constructor (limits: Limits)
      requires Usable(limits)
      ensures Valid() && View() == map[] && this.limits == limits
    {
      this.limits := limits;
      buckets := map[];
    }

    /** The agent's bucket, created full on its first request; no other bucket changes. */
    method GetOrCreate(agent: Agent, now: real) returns (bucket: TokenBucket)
      requires Valid()
      modifies this
      ensures Valid() && agent in buckets && buckets[agent] == bucket
      ensures fresh(buckets.Values - old(buckets.Values)) && (bucket in old(buckets.Values) || fresh(bucket))
      ensures buckets.Keys == old(buckets.Keys) + {agent}
      ensures forall a :: a in old(buckets) ==> buckets[a] == old(buckets)[a]
      ensures bucket.State() == if agent in old(buckets) then old(buckets[agent].State()) else Full(limits, now)
    {
      hide TryConsume;
      if agent in buckets {
        bucket := buckets[agent];
        return;
      }
      bucket := new TokenBucket(limits, now);
      assert forall a :: a in buckets ==> buckets[a] != bucket;
      buckets := buckets[agent := bucket];
    }

    method CheckAgent(agent: Agent, now: real) returns (ok: bool, retryAfter: real)
      requires Valid()
      modifies this, buckets.Values
      ensures Valid() && fresh(buckets.Values - old(buckets.Values))
      ensures (View(), Grant(ok, retryAfter)) == Check(limits, old(View()), agent, now)
    {
      hide TryConsume, Full;
      ghost var before := View();
      var bucket := GetOrCreate(agent, now);
      ghost var b := bucket.State();
      assert forall a :: a in buckets && a != agent ==> buckets[a] != bucket && buckets[a].State() == before[a];
      assert limits == bucket.limits && Usable(limits);
      hide Valid;
      ok, retryAfter := bucket.Consume(now, 1.0);
      CheckIs(limits, before, agent, now, b, bucket.State(), Grant(ok, retryAfter));
      hide Check;
      assert forall a :: a in buckets && a != agent ==> buckets[a].State() == before[a];
      ghost var after, next := View(), bucket.State();
      assert after.Keys == before.Keys + {agent};
      forall a | a in after ensures after[a] == if a == agent then next else before[a] { }
      hide View, Valid;
      UpdatedAt(before, after, agent, next);
    }
  }

  lemma UpdatedAt(before: Buckets, after: Buckets, agent: Agent, b: Bucket)
    requires after.Keys == before.Keys + {agent}
    requires forall a :: a in after ==> after[a] == if a == agent then b else before[a]
    ensures after == before[agent := b]
  {
  }

  lemma CheckIs(l: Limits, bs: Buckets, agent: Agent, now: real, b: Bucket, next: Bucket, grant: Grant)
    requires Usable(l) && b == (if agent in bs then bs[agent] else Full(l, now))
    requires (next, grant) == TryConsume(l, b, Call(now, 1.0))
    ensures Check(l, bs, agent, now) == (bs[agent := next], grant)
  {
  }

  /** Each request takes one token; a first request finds a full bucket. */
  lemma OneTokenEach(l: Limits, bs: Buckets, agent: Agent, now: real)
    requires Usable(l) && (agent in bs ==> Sound(l, bs[agent]) && bs[agent].refilledAt <= now)
    ensures var (next, grant) := Check(l, bs, agent, now);
            var have := if agent in bs then Min(l.capacity, bs[agent].tokens + Inflow(l, now - bs[agent].refilledAt))
                        else l.capacity;
            && agent in next && (grant.ok <==> have >= 1.0) && next.Keys == bs.Keys + {agent}
            && next[agent] == Bucket(if have >= 1.0 then have - 1.0 else have, now)
            && forall a :: a in bs && a != agent ==> next[a] == bs[a]
  {
    InflowAdds(l, 0.0, 0.0);
    assert now - now == 0.0;
    hide Inflow;
  }

  datatype Request = Request(agent: Agent, now: real)

  function ServeAll(l: Limits, bs: Buckets, rs: seq<Request>): Buckets
    requires Usable(l)
  {
    if rs == [] then bs
    else Check(l, ServeAll(l, bs, rs[..|rs| - 1]), rs[|rs| - 1].agent, rs[|rs| - 1].now).0
  }

  function CallsOf(rs: seq<Request>, agent: Agent): seq<Call> {
    if rs == [] then []
    else
      var rest := CallsOf(rs[..|rs| - 1], agent);
      if rs[|rs| - 1].agent == agent then rest + [Call(rs[|rs| - 1].now, 1.0)] else rest
  }

  /** However the requests of different agents interleave, each agent sees exactly its own bucket:
      full at its first request, and run on its own calls only. */
  lemma {:induction false} AgentsAreIndependent(l: Limits, rs: seq<Request>, agent: Agent)
    requires Usable(l)
    ensures var own := CallsOf(rs, agent);
            var bs := ServeAll(l, map[], rs);
            if own == [] then agent !in bs else agent in bs && bs[agent] == After(l, Full(l, own[0].now), own)
  {
    hide TryConsume, Full;
    if rs != [] {
      var init, r := rs[..|rs| - 1], rs[|rs| - 1];
      AgentsAreIndependent(l, init, agent);
      var own := CallsOf(init, agent);
      if r.agent == agent {
        if own != [] {
          AfterSplit(l, Full(l, own[0].now), own, [Call(r.now, 1.0)]);
          assert CallsOf(rs, agent)[0] == own[0];
        }
        AfterOne(l, if own == [] then Full(l, r.now) else After(l, Full(l, own[0].now), own), Call(r.now, 1.0));
        assert own == [] ==> CallsOf(rs, agent) == [Call(r.now, 1.0)];
      }
    }
  }

  lemma AfterOne(l: Limits, b: Bucket, c: Call)
    requires Usable(l)
    ensures After(l, b, [c]) == TryConsume(l, b, c).0
  {
    assert [c][1..] == [];
  }
}
