/**
 * The voice connection `on_ready` makes at start-up: up to three attempts,
 * each of which cleans up a stale guild voice client, connects to the
 * target channel, binds the audio manager to the new client and starts
 * playback. A failure sleeps the retry delay and doubles it, except on the
 * last attempt, which gives up; a timeout moves straight on to the next
 * attempt; a client error saying "already connected" ends the loop when
 * the guild's client is connected, and one carrying close code 4006 first
 * drops the guild's client and lets the voice server settle.
 *
 * Discord and the audio manager are inputs: one record per attempt says
 * how each awaited call ends. Every awaited call and every sleep is
 * recorded, in order, in a trace.
 */
module Supervisor {
  import opened Common

  const MaxRetries: nat := 3
  const InitialDelay: nat := 10
  const ConnectTimeout: nat := 60
  const CleanupPause: nat := 2
  const SettlePause: nat := 3

  /** How an awaited call can raise, as far as the `except` clauses tell them apart. */
  datatype Failure = ClientError(message: string) | Timeout | OtherError

  /**
   * How one attempt's calls end. `staleClient` says whether the guild has
   * a voice client when the attempt starts and `cleanupFails` whether its
   * forced disconnect raises; `connect`, `bind` and `playback` are the
   * ends of `channel.connect`, `set_voice_client` and `start_playback`
   * (`None` when the call returns). After a failure, `clientAfter` is the
   * guild's voice client as the handler sees it (absent, or whether it is
   * connected), and `settleFails` says whether the 4006 disconnect raises.
   */
  datatype AttemptEnv = AttemptEnv(
    staleClient: bool, cleanupFails: bool,
    connect: Option<Failure>, bind: Option<Failure>, playback: Option<Failure>,
    clientAfter: Option<bool>, settleFails: bool)

  datatype Pause = AfterCleanup | AfterSettle | BeforeRetry

  /** An awaited call or a sleep of the loop. */
  datatype Step = Disconnect | Sleep(seconds: nat, why: Pause) | Connect(timeout: nat) | Bind | StartPlayback

  /**
   * How the loop ends: playback started, the "already connected" break,
   * the "all connection attempts failed" return, or running out of
   * attempts without either.
   */
  datatype LoopEnd = Started | AlreadyConnected | AllFailed | FellThrough

  /** What an attempt leaves for the loop: stop, or go on with this retry delay. */
  datatype Next = Stop(end: LoopEnd) | Retry(delay: nat)

  /**
   * How an attempt ends as far as the loop is concerned: its calls all
   * return, it times out, it finds the guild already connected, or it
   * fails in a way that takes the backoff path.
   */
  datatype Kind = Completes | TimesOut | FindsConnected | Fails

  /** An attempt's calls up to the backoff decision, and how it ended. */
  datatype Outcome = Outcome(steps: seq<Step>, kind: Kind)

  /**
   * The failure an attempt's `try` block raises: that of the connect, else
   * that of the binding, else that of the playback start. The binding and
   * the playback start re-raise what they catch.
   */
  function FirstFailure(env: AttemptEnv): (r: Option<Failure>)
    ensures r.None? <==> env.connect.None? && env.bind.None? && env.playback.None?
    // a failed connect hides the later calls, which are never made
    ensures env.connect.Some? ==> r == env.connect
    ensures env.connect.None? && env.bind.Some? ==> r == env.bind
  {
    if env.connect.Some? then env.connect
    else if env.bind.Some? then env.bind
    else env.playback
  }

  /** The stale client is disconnected and, when that does not raise, given 2 s. */
  function Cleanup(env: AttemptEnv): (r: seq<Step>)
    ensures r == [] <==> !env.staleClient
    ensures r != [] ==> r[0] == Disconnect
    ensures Sleep(CleanupPause, AfterCleanup) in r <==> env.staleClient && !env.cleanupFails
    ensures Connect(ConnectTimeout) !in r && Bind !in r && StartPlayback !in r
  {
    if !env.staleClient then []
    else if env.cleanupFails then [Disconnect]
    else [Disconnect, Sleep(CleanupPause, AfterCleanup)]
  }

  /** The calls an attempt's `try` block makes before it finishes or raises. */
  function TryBlock(env: AttemptEnv): (r: seq<Step>)
    // the cleanup, then the connect, then the binding and the playback start while nothing raised
    ensures |Cleanup(env)| < |r| && r[..|Cleanup(env)|] == Cleanup(env) && r[|Cleanup(env)|] == Connect(ConnectTimeout)
    ensures Bind in r <==> env.connect.None?
    ensures StartPlayback in r <==> env.connect.None? && env.bind.None?
  {
    Cleanup(env) + [Connect(ConnectTimeout)]
      + (if env.connect.Some? then [] else [Bind] + (if env.bind.Some? then [] else [StartPlayback]))
  }

  /** A client error whose lower-cased text says "already connected". */
  predicate SaysAlreadyConnected(f: Failure)
    ensures SaysAlreadyConnected(f) ==> f.ClientError?
    // the phrase is found whatever the case of the rest of the message
    ensures f.ClientError? && Contains(f.message, "already connected") ==> SaysAlreadyConnected(f)
  {
    f.ClientError?
    && (ContainsLowered(f.message, "already connected");
        Contains(Lower(f.message), "already connected"))
  }

  /** A client error that is not an "already connected" one and whose text holds "4006". */
  predicate SaysVoiceServerDown(f: Failure)
    // the 4006 test comes after the "already connected" one and only sees client errors
    ensures SaysVoiceServerDown(f) ==> f.ClientError? && !SaysAlreadyConnected(f) && Contains(f.message, "4006")
  {
    f.ClientError? && !SaysAlreadyConnected(f) && Contains(f.message, "4006")
  }

  /** The attempt fails with "already connected" while the guild's client is connected. */
  predicate BreaksAsConnected(env: AttemptEnv)
    // a timeout never ends the loop this way
    ensures BreaksAsConnected(env) ==> FirstFailure(env).Some? && FirstFailure(env).value.ClientError?
    ensures BreaksAsConnected(env) ==> !SaysVoiceServerDown(FirstFailure(env).value)
  {
    FirstFailure(env).Some? && SaysAlreadyConnected(FirstFailure(env).value) && env.clientAfter == Some(true)
  }

  /** The attempt fails in a way that takes the backoff path. */
  predicate BacksOff(env: AttemptEnv)
  {
    FirstFailure(env).Some? && !FirstFailure(env).value.Timeout? && !BreaksAsConnected(env)
  }

  /** On a 4006 error a present guild client is disconnected and, when that does not raise, given 3 s. */
  function Settle(env: AttemptEnv): (r: seq<Step>)
    // only a 4006 error with a guild client still present settles, and that error backs off
    ensures r != [] ==> BacksOff(env) && SaysVoiceServerDown(FirstFailure(env).value) && env.clientAfter.Some?
    ensures r != [] ==> r[0] == Disconnect
    ensures Sleep(SettlePause, AfterSettle) in r <==> r != [] && !env.settleFails
  {
    if !(FirstFailure(env).Some? && SaysVoiceServerDown(FirstFailure(env).value) && env.clientAfter.Some?) then []
    else if env.settleFails then [Disconnect]
    else [Disconnect, Sleep(SettlePause, AfterSettle)]
  }

  function KindOf(env: AttemptEnv): (k: Kind)
    ensures k == Completes <==> FirstFailure(env).None?
    ensures k == TimesOut <==> FirstFailure(env) == Some(Timeout)
    ensures k == FindsConnected <==> BreaksAsConnected(env)
    ensures k == Fails <==> BacksOff(env)
  {
    match FirstFailure(env)
    case None => Completes
    case Some(f) =>
      if f.Timeout? then TimesOut
      else if BreaksAsConnected(env) then FindsConnected
      else Fails
  }

  /**
   * What an attempt's `try` block and its `except` clauses do before the
   * backoff decision: the calls of the `try` block, then the 4006 handling.
   */
  function Tried(env: AttemptEnv): (o: Outcome)
    ensures o.kind == KindOf(env)
    ensures o.kind != Fails ==> o.steps == TryBlock(env)
  {
    assert Settle(env) != [] ==> KindOf(env) == Fails;
    assert TryBlock(env) + [] == TryBlock(env);
    Outcome(TryBlock(env) + Settle(env), KindOf(env))
  }

  /**
   * One pass of the loop body, `attempt` counting from 0, with the current
   * retry delay: the calls it makes and what it leaves for the loop. Only
   * a failure that takes the backoff path sleeps and doubles the delay,
   * and on the last attempt it gives up instead.
   */
  function Attempt(o: Outcome, attempt: nat, delay: nat): (r: (seq<Step>, Next))
    // the pass keeps the attempt's calls and adds at most the backoff sleep
    ensures |o.steps| <= |r.0| && r.0[..|o.steps|] == o.steps
    ensures r.0 != o.steps <==> o.kind == Fails && attempt < MaxRetries - 1
    // the loop goes on after a timeout with the same delay, and after a failure but the last with twice it
    ensures r.1.Retry? <==> o.kind == TimesOut || (o.kind == Fails && attempt < MaxRetries - 1)
    ensures r.1.Retry? ==> r.1.delay == if o.kind == TimesOut then delay else 2 * delay
    ensures r.1 == Stop(Started) <==> o.kind == Completes
  {
    match o.kind
    case Completes => (o.steps, Stop(Started))
    case TimesOut => (o.steps, Retry(delay))
    case FindsConnected => (o.steps, Stop(AlreadyConnected))
    case Fails =>
      if attempt < MaxRetries - 1 then (o.steps + [Sleep(delay, BeforeRetry)], Retry(2 * delay))
      else (o.steps, Stop(AllFailed))
  }

  /** The outcomes of the attempts, one per record. */
  function Outcomes(envs: seq<AttemptEnv>): (os: seq<Outcome>)
    ensures |os| == |envs|
    ensures forall i :: 0 <= i < |envs| ==> os[i] == Tried(envs[i])
  {
    if envs == [] then [] else [Tried(envs[0])] + Outcomes(envs[1..])
  }

  /**
   * The loop from `attempt` on, with the current retry delay, after the
   * calls `done`: all calls made, and how the loop ends.
   */
  function Run(os: seq<Outcome>, attempt: nat, delay: nat, done: seq<Step>): (r: (seq<Step>, LoopEnd))
    requires |os| == MaxRetries
    decreases MaxRetries - attempt
  {
    if attempt >= MaxRetries then (done, FellThrough)
    else
      var a := Attempt(os[attempt], attempt, delay);
      if a.1.Stop? then (done + a.0, a.1.end)
      else Run(os, attempt + 1, a.1.delay, done + a.0)
  }

  /** The number of connects in a trace. */
  function Connects(t: seq<Step>): nat
  {
    if t == [] then 0 else (if t[0].Connect? then 1 else 0) + Connects(t[1..])
  }

  /** The lengths of the backoff sleeps of a trace, in order. */
  function Backoffs(t: seq<Step>): seq<nat>
  {
    if t == [] then []
    else (if t[0].Sleep? && t[0].why == BeforeRetry then [t[0].seconds] else []) + Backoffs(t[1..])
  }

  /** Every connect of the trace waits up to 60 s. */
  predicate ConnectsWait(t: seq<Step>)
  {
    t == [] || ((t[0].Connect? ==> t[0].timeout == ConnectTimeout) && ConnectsWait(t[1..]))
  }

  /** `n` delays starting at `d`, each twice the one before. */
  function Doubling(d: nat, n: nat): (r: seq<nat>)
    ensures |r| == n
    decreases n
  {
    if n == 0 then [] else [d] + Doubling(2 * d, n - 1)
  }

  lemma {:induction false} CountsAppend(a: seq<Step>, b: seq<Step>)
    ensures Connects(a + b) == Connects(a) + Connects(b)
    ensures Backoffs(a + b) == Backoffs(a) + Backoffs(b)
    ensures ConnectsWait(a + b) <==> ConnectsWait(a) && ConnectsWait(b)
  {
    if a != [] {
      assert (a + b)[1..] == a[1..] + b;
      CountsAppend(a[1..], b);
    } else {
      assert a + b == b;
    }
  }

  lemma {:induction false} BackoffsAppend(a: seq<Step>, b: seq<Step>)
    ensures Backoffs(a + b) == Backoffs(a) + Backoffs(b)
  {
    if a != [] {
      assert (a + b)[1..] == a[1..] + b;
      BackoffsAppend(a[1..], b);
    } else {
      assert a + b == b;
    }
  }

  lemma Single(x: Step)
    ensures Connects([x]) == (if x.Connect? then 1 else 0)
    ensures Backoffs([x]) == if x.Sleep? && x.why == BeforeRetry then [x.seconds] else []
    ensures ConnectsWait([x]) <==> (x.Connect? ==> x.timeout == ConnectTimeout)
  {
    assert [x][1..] == [];
  }

  /** The short runs of calls an attempt is made of. */
  lemma PieceCounts(env: AttemptEnv)
    ensures Connects(Cleanup(env)) == 0 && Backoffs(Cleanup(env)) == [] && ConnectsWait(Cleanup(env))
    ensures Connects(Settle(env)) == 0 && Backoffs(Settle(env)) == [] && ConnectsWait(Settle(env))
    ensures Connects([Connect(ConnectTimeout)]) == 1 && Backoffs([Connect(ConnectTimeout)]) == []
            && ConnectsWait([Connect(ConnectTimeout)])
    ensures Connects([Bind]) == 0 && Backoffs([Bind]) == [] && ConnectsWait([Bind])
    ensures Connects([StartPlayback]) == 0 && Backoffs([StartPlayback]) == [] && ConnectsWait([StartPlayback])
  {
    Single(Disconnect);
    Single(Sleep(CleanupPause, AfterCleanup));
    Single(Sleep(SettlePause, AfterSettle));
    Single(Connect(ConnectTimeout));
    Single(Bind);
    Single(StartPlayback);
    CountsAppend([Disconnect], [Sleep(CleanupPause, AfterCleanup)]);
    CountsAppend([Disconnect], [Sleep(SettlePause, AfterSettle)]);
    assert [Disconnect] + [Sleep(CleanupPause, AfterCleanup)] == [Disconnect, Sleep(CleanupPause, AfterCleanup)];
    assert [Disconnect] + [Sleep(SettlePause, AfterSettle)] == [Disconnect, Sleep(SettlePause, AfterSettle)];
  }

  /**
   * An outcome as attempts produce them: one connect, with the 60 s
   * timeout, no backoff sleep, and a playback start last when all calls
   * returned.
   */
  predicate WellFormed(o: Outcome)
  {
    Connects(o.steps) == 1 && ConnectsWait(o.steps) && Backoffs(o.steps) == [] && o.steps != []
    && (o.kind == Completes ==> o.steps[|o.steps| - 1] == StartPlayback)
  }

  predicate AllWellFormed(os: seq<Outcome>)
  {
    forall i :: 0 <= i < |os| ==> WellFormed(os[i])
  }

  /** The `try` block connects once, with the 60 s timeout, and ends with the playback start when nothing raised. */
  lemma TryBlockCounts(env: AttemptEnv)
    ensures var t := TryBlock(env);
      Connects(t) == 1 && ConnectsWait(t) && Backoffs(t) == [] && t != []
      && (env.connect.None? && env.bind.None? ==> t[|t| - 1] == StartPlayback)
  {
    PieceCounts(env);
    var t := TryBlock(env);
    var head := Cleanup(env) + [Connect(ConnectTimeout)];
    CountsAppend(Cleanup(env), [Connect(ConnectTimeout)]);
    if env.connect.Some? {
      assert t == head + [];
      CountsAppend(head, []);
    } else if env.bind.Some? {
      assert t == head + ([Bind] + []);
      CountsAppend([Bind], []);
      CountsAppend(head, [Bind] + []);
    } else {
      assert t == head + ([Bind] + [StartPlayback]);
      CountsAppend([Bind], [StartPlayback]);
      CountsAppend(head, [Bind] + [StartPlayback]);
    }
  }

  lemma TriedWellFormed(env: AttemptEnv)
    ensures WellFormed(Tried(env))
  {
    PieceCounts(env);
    TryBlockCounts(env);
    CountsAppend(TryBlock(env), Settle(env));
  }

  lemma OutcomesWellFormed(envs: seq<AttemptEnv>)
    ensures AllWellFormed(Outcomes(envs))
  {
    forall i | 0 <= i < |envs|
      ensures WellFormed(Outcomes(envs)[i])
    {
      TriedWellFormed(envs[i]);
    }
  }

  /** An attempt connects once, with the 60 s timeout, and sleeps the delay only when it backs off. */
  lemma AttemptCounts(o: Outcome, attempt: nat, delay: nat)
    requires WellFormed(o)
    ensures var r := Attempt(o, attempt, delay);
      Connects(r.0) == 1 && ConnectsWait(r.0)
      && Backoffs(r.0) == (if r.1.Retry? && o.kind == Fails then [delay] else [])
  {
    Single(Sleep(delay, BeforeRetry));
    CountsAppend(o.steps, [Sleep(delay, BeforeRetry)]);
  }

  /** From attempt `k` on, at most one connect per remaining attempt, each with the 60 s timeout. */
  lemma {:induction false} RunConnects(os: seq<Outcome>, k: nat, d: nat, done: seq<Step>)
    requires |os| == MaxRetries && k <= MaxRetries && AllWellFormed(os)
    ensures var t := Run(os, k, d, done).0;
      Connects(t) <= Connects(done) + MaxRetries - k && (ConnectsWait(done) ==> ConnectsWait(t))
    decreases MaxRetries - k
  {
    if k < MaxRetries {
      var a := Attempt(os[k], k, d);
      AttemptCounts(os[k], k, d);
      CountsAppend(done, a.0);
      if a.1.Retry? {
        RunConnects(os, k + 1, a.1.delay, done + a.0);
      }
    }
  }

  /** The calls already made are a prefix that the rest of the loop does not depend on. */
  lemma {:induction false} RunDone(os: seq<Outcome>, k: nat, d: nat, done: seq<Step>)
    requires |os| == MaxRetries
    ensures Run(os, k, d, done) == (done + Run(os, k, d, []).0, Run(os, k, d, []).1)
    decreases MaxRetries - k
  {
    if k < MaxRetries {
      var a := Attempt(os[k], k, d);
      assert [] + a.0 == a.0;
      if a.1.Retry? {
        var rest := Run(os, k + 1, a.1.delay, []).0;
        RunDone(os, k + 1, a.1.delay, done + a.0);
        RunDone(os, k + 1, a.1.delay, a.0);
        assert Run(os, k, d, done) == Run(os, k + 1, a.1.delay, done + a.0);
        assert Run(os, k, d, []) == Run(os, k + 1, a.1.delay, a.0);
        assert (done + a.0) + rest == done + (a.0 + rest);
      } else {
        assert Run(os, k, d, done) == (done + a.0, a.1.end);
        assert Run(os, k, d, []) == (a.0, a.1.end);
      }
    } else {
      assert done + [] == done;
    }
  }

  /**
   * From attempt `k` on, the backoff sleeps are `d`, `2d`, …, at most one
   * per remaining attempt but the last.
   */
  lemma {:induction false} RunBackoffs(os: seq<Outcome>, k: nat, d: nat)
    requires |os| == MaxRetries && k <= MaxRetries && AllWellFormed(os)
    ensures var b := Backoffs(Run(os, k, d, []).0);
      b == Doubling(d, |b|) && |b| <= (if k < MaxRetries then MaxRetries - 1 - k else 0)
    decreases MaxRetries - k
  {
    if k < MaxRetries {
      var a := Attempt(os[k], k, d);
      AttemptCounts(os[k], k, d);
      assert [] + a.0 == a.0;
      if a.1.Retry? {
        var rest := Run(os, k + 1, a.1.delay, []).0;
        RunBackoffs(os, k + 1, a.1.delay);
        RunDone(os, k + 1, a.1.delay, a.0);
        BackoffsStep(a.0, rest, d, a.1.delay, os[k].kind == Fails);
      }
    }
  }

  lemma BackoffsStep(a: seq<Step>, rest: seq<Step>, d: nat, next: nat, backs: bool)
    requires Backoffs(a) == (if backs then [d] else [])
    requires next == if backs then 2 * d else d
    requires Backoffs(rest) == Doubling(next, |Backoffs(rest)|)
    ensures Backoffs(a + rest) == Doubling(d, |Backoffs(a + rest)|)
    ensures |Backoffs(a + rest)| == (if backs then 1 else 0) + |Backoffs(rest)|
  {
    CountsAppend(a, rest);
    if backs {
      assert Doubling(d, |Backoffs(rest)| + 1) == [d] + Doubling(2 * d, |Backoffs(rest)|);
    } else {
      assert [] + Backoffs(rest) == Backoffs(rest);
    }
  }

  /**
   * From attempt `k` on, giving up and running out both take every
   * remaining attempt and happen on the last one only; starting ends the
   * calls with the playback start.
   */
  lemma {:induction false} RunEnds(os: seq<Outcome>, k: nat, d: nat, done: seq<Step>)
    requires |os| == MaxRetries && k <= MaxRetries && AllWellFormed(os)
    ensures var r := Run(os, k, d, done);
      (r.1 == AllFailed ==> Connects(r.0) == Connects(done) + MaxRetries - k && os[MaxRetries - 1].kind == Fails)
      && (r.1 == FellThrough && k < MaxRetries ==>
            Connects(r.0) == Connects(done) + MaxRetries - k && os[MaxRetries - 1].kind == TimesOut)
    decreases MaxRetries - k
  {
    if k < MaxRetries {
      var a := Attempt(os[k], k, d);
      AttemptCounts(os[k], k, d);
      CountsAppend(done, a.0);
      if a.1.Retry? {
        RunEnds(os, k + 1, a.1.delay, done + a.0);
      }
    }
  }

  /** A loop that starts playback ends its calls with the playback start. */
  lemma {:induction false} RunStartsLast(os: seq<Outcome>, k: nat, d: nat, done: seq<Step>)
    requires |os| == MaxRetries && k <= MaxRetries && AllWellFormed(os)
    ensures var r := Run(os, k, d, done);
      r.1 == Started ==> r.0 != [] && r.0[|r.0| - 1] == StartPlayback
    decreases MaxRetries - k
  {
    if k < MaxRetries {
      var a := Attempt(os[k], k, d);
      if a.1.Retry? {
        RunStartsLast(os, k + 1, a.1.delay, done + a.0);
      } else if a.1.end == Started {
        assert WellFormed(os[k]);
        assert (done + a.0)[|done + a.0| - 1] == a.0[|a.0| - 1];
      }
    }
  }

  /** What the shape of `Run` gives for any well-formed outcomes. */
  lemma RunFacts(os: seq<Outcome>, trace: seq<Step>, end: LoopEnd)
    requires |os| == MaxRetries && AllWellFormed(os) && (trace, end) == Run(os, 0, InitialDelay, [])
    ensures Connects(trace) <= MaxRetries && ConnectsWait(trace)
    ensures Backoffs(trace) == [] || Backoffs(trace) == [10] || Backoffs(trace) == [10, 20]
    ensures end == AllFailed ==> Connects(trace) == MaxRetries && os[MaxRetries - 1].kind == Fails
    ensures end == FellThrough ==> Connects(trace) == MaxRetries && os[MaxRetries - 1].kind == TimesOut
    ensures end == Started ==> trace != [] && trace[|trace| - 1] == StartPlayback
  {
    RunConnects(os, 0, InitialDelay, []);
    RunBackoffs(os, 0, InitialDelay);
    RunEnds(os, 0, InitialDelay, []);
    RunStartsLast(os, 0, InitialDelay, []);
    var b := Backoffs(trace);
    assert b == Doubling(10, |b|);
    if |b| == 2 {
      assert Doubling(10, 2) == [10] + Doubling(20, 1);
    }
  }

  /** The facts the connection loop's contract draws from the shape of `Run`. */
  lemma LoopFacts(envs: seq<AttemptEnv>, trace: seq<Step>, end: LoopEnd)
    requires |envs| == MaxRetries && (trace, end) == Run(Outcomes(envs), 0, InitialDelay, [])
    ensures Connects(trace) <= MaxRetries && ConnectsWait(trace)
    ensures Backoffs(trace) == [] || Backoffs(trace) == [10] || Backoffs(trace) == [10, 20]
    ensures end == AllFailed ==> Connects(trace) == MaxRetries && BacksOff(envs[MaxRetries - 1])
    ensures end == FellThrough ==>
              Connects(trace) == MaxRetries && FirstFailure(envs[MaxRetries - 1]) == Some(Timeout)
    ensures end == Started ==> trace != [] && trace[|trace| - 1] == StartPlayback
  {
    var os := Outcomes(envs);
    OutcomesWellFormed(envs);
    RunFacts(os, trace, end);
    var last := envs[MaxRetries - 1];
    assert os[MaxRetries - 1].kind == KindOf(last);
    assert KindOf(last) == Fails <==> BacksOff(last);
    assert KindOf(last) == TimesOut <==> FirstFailure(last) == Some(Timeout);
  }

  /**
   * The `on_ready` connection loop: `retry_delay` starts at 10 and each
   * attempt gets the next record of `envs`.
   */
  method ConnectWithRetries(envs: seq<AttemptEnv>) returns (trace: seq<Step>, end: LoopEnd)
    requires |envs| == MaxRetries
    ensures (trace, end) == Run(Outcomes(envs), 0, InitialDelay, [])
    ensures Connects(trace) <= MaxRetries && ConnectsWait(trace)
    // the backoff sleeps are 10 s and then 20 s, never a third
    ensures Backoffs(trace) == [] || Backoffs(trace) == [10] || Backoffs(trace) == [10, 20]
    ensures end == AllFailed ==> Connects(trace) == MaxRetries && BacksOff(envs[MaxRetries - 1])
    // only a timeout on the last attempt runs the loop out without the "all failed" return
    ensures end == FellThrough ==>
              Connects(trace) == MaxRetries && FirstFailure(envs[MaxRetries - 1]) == Some(Timeout)
    ensures end == Started ==> trace != [] && trace[|trace| - 1] == StartPlayback
  {
    ghost var os := Outcomes(envs);
    var retryDelay := InitialDelay;
    var attempt: nat := 0;
    trace := [];
    while attempt < MaxRetries
      invariant attempt <= MaxRetries
      invariant Run(os, 0, InitialDelay, []) == Run(os, attempt, retryDelay, trace)
      decreases MaxRetries - attempt
    {
      var a := Attempt(Tried(envs[attempt]), attempt, retryDelay);
      trace := trace + a.0;
      if a.1.Stop? {
        end := a.1.end;
        LoopFacts(envs, trace, end);
        return;
      }
      retryDelay := a.1.delay;
      attempt := attempt + 1;
    }
    end := FellThrough;
    LoopFacts(envs, trace, end);
  }

  /**
   * Three attempts that each back off (`KindOf` is `Fails` exactly for
   * `BacksOff`): sleeps of 10 s and 20 s, three connects, and the give-up
   * return.
   */
  lemma ThreeFailuresGiveUp(os: seq<Outcome>)
    requires |os| == MaxRetries && AllWellFormed(os)
    requires os[0].kind == Fails && os[1].kind == Fails && os[2].kind == Fails
    ensures var r := Run(os, 0, InitialDelay, []);
      r.1 == AllFailed && Backoffs(r.0) == [10, 20] && Connects(r.0) == 3
  {
    var a0, a1, a2 := Attempt(os[0], 0, 10), Attempt(os[1], 1, 20), Attempt(os[2], 2, 40);
    AttemptCounts(os[0], 0, 10);
    AttemptCounts(os[1], 1, 20);
    AttemptCounts(os[2], 2, 40);
    var t0 := [] + a0.0;
    var t1 := t0 + a1.0;
    assert Run(os, 0, InitialDelay, []) == Run(os, 1, 20, t0);
    assert Run(os, 1, 20, t0) == Run(os, 2, 40, t1);
    assert Run(os, 2, 40, t1) == (t1 + a2.0, AllFailed);
    CountsAppend([], a0.0);
    CountsAppend(t0, a1.0);
    CountsAppend(t1, a2.0);
  }

  /** Three timeouts: three connects, no sleep, and the loop runs out without the give-up return. */
  lemma ThreeTimeoutsFallThrough(os: seq<Outcome>)
    requires |os| == MaxRetries && AllWellFormed(os)
    requires os[0].kind == TimesOut && os[1].kind == TimesOut && os[2].kind == TimesOut
    ensures var r := Run(os, 0, InitialDelay, []);
      r.1 == FellThrough && Backoffs(r.0) == [] && Connects(r.0) == 3
  {
    var a0, a1, a2 := Attempt(os[0], 0, 10), Attempt(os[1], 1, 10), Attempt(os[2], 2, 10);
    AttemptCounts(os[0], 0, 10);
    AttemptCounts(os[1], 1, 10);
    AttemptCounts(os[2], 2, 10);
    var t0 := [] + a0.0;
    var t1 := t0 + a1.0;
    assert Run(os, 0, InitialDelay, []) == Run(os, 1, 10, t0);
    assert Run(os, 1, 10, t0) == Run(os, 2, 10, t1);
    assert Run(os, 2, 10, t1) == (t1 + a2.0, FellThrough);
    CountsAppend([], a0.0);
    CountsAppend(t0, a1.0);
    CountsAppend(t1, a2.0);
  }

  /** A timeout leaves the delay alone: when two attempts that back off follow it, the one sleep is 10 s. */
  lemma TimeoutKeepsDelay(os: seq<Outcome>)
    requires |os| == MaxRetries && AllWellFormed(os)
    requires os[0].kind == TimesOut && os[1].kind == Fails && os[2].kind == Fails
    ensures var r := Run(os, 0, InitialDelay, []);
      r.1 == AllFailed && Backoffs(r.0) == [10]
  {
    var a0, a1, a2 := Attempt(os[0], 0, 10), Attempt(os[1], 1, 10), Attempt(os[2], 2, 20);
    AttemptCounts(os[0], 0, 10);
    AttemptCounts(os[1], 1, 10);
    AttemptCounts(os[2], 2, 20);
    var t0 := [] + a0.0;
    var t1 := t0 + a1.0;
    assert Run(os, 0, InitialDelay, []) == Run(os, 1, 10, t0);
    assert Run(os, 1, 10, t0) == Run(os, 2, 20, t1);
    assert Run(os, 2, 20, t1) == (t1 + a2.0, AllFailed);
    BackoffsAppend([], a0.0);
    BackoffsAppend(t0, a1.0);
    BackoffsAppend(t1, a2.0);
  }

  /**
   * A 4006 client error with a guild client present disconnects it and
   * settles 3 s before the usual backoff sleep.
   */
  lemma VoiceServerDownSettles(env: AttemptEnv, attempt: nat, delay: nat)
    requires FirstFailure(env).Some? && SaysVoiceServerDown(FirstFailure(env).value)
    requires env.clientAfter.Some? && !env.settleFails && attempt < MaxRetries - 1
    ensures Attempt(Tried(env), attempt, delay)
            == (TryBlock(env) + [Disconnect, Sleep(SettlePause, AfterSettle), Sleep(delay, BeforeRetry)],
                Retry(2 * delay))
  {
    assert KindOf(env) == Fails;
    assert TryBlock(env) + [Disconnect, Sleep(SettlePause, AfterSettle)] + [Sleep(delay, BeforeRetry)]
        == TryBlock(env) + [Disconnect, Sleep(SettlePause, AfterSettle), Sleep(delay, BeforeRetry)];
  }

  /** Each attempt begins by dropping a stale client, sleeping 2 s unless that raised, then connecting. */
  lemma AttemptStartsWithCleanup(env: AttemptEnv)
    ensures var s := Tried(env).steps;
      |s| >= |Cleanup(env)| + 1 && s[..|Cleanup(env)| + 1] == Cleanup(env) + [Connect(ConnectTimeout)]
  {
    var c := Cleanup(env) + [Connect(ConnectTimeout)];
    var s := Tried(env).steps;
    assert TryBlock(env)[..|c|] == c;
    assert s[..|c|] == TryBlock(env)[..|c|];
  }
}
