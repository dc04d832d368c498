/// The state machine of build/src/websocketmanager.js. Its fields, its
/// callbacks, reconnect(), send() and traseLog() are those of
/// src/websocketmanager.ts (TsSpec); it differs in two places: run() emits no
/// debug event, and the timer checks `resumeCound > maxResume` before it
/// increments the counter.
module JsSpec {
  import opened WsCommon
  import Ts = TsSpec

  /** run(): a new connection with the four callbacks attached; nothing is emitted. */
  function Run(s: Ts.State): (r: Ts.State)
    ensures r.websocket == Some(Ts.Socket(s.created, false)) && r.created == s.created + 1
    ensures r.log == s.log
  {
    s.(websocket := Some(Ts.Socket(s.created, false)), created := s.created + 1)
  }

  /** The constructor: defaults, overridden by the options that are present, then run(). */
  function Construct(url: string, options: Option<Ts.Options>): (r: Ts.State)
    ensures r.url == url
    ensures options.Some? && options.value.resumeSecond.Some? ==> r.resumeSecond == options.value.resumeSecond.value
    ensures options.None? || options.value.resumeSecond.None? ==> r.resumeSecond == Ts.DefaultResumeSecond
    ensures options.Some? ==> r.maxResume == options.value.setMaxResume
    ensures options.None? ==> r.maxResume.None?
    ensures r.resumeCound == 0 && !r.isReconnect
    ensures r.websocket == Some(Ts.Socket(0, false)) && r.created == 1
    ensures r.pending.None? && r.log == [] && r.sent == [] && r.phase.Live?
  {
    var defaults := Ts.State(url, Ts.DefaultResumeSecond, None, 0, false, None, 0, None, [], [], Live);
    var configured :=
      if options.None? then defaults
      else defaults.(
        resumeSecond := options.value.resumeSecond.GetOr(defaults.resumeSecond),
        maxResume := if options.value.setMaxResume.Some? then options.value.setMaxResume else defaults.maxResume);
    Run(configured)
  }

  /**
   * The setTimeout continuation: past the limit, traseLog; otherwise count
   * the attempt when a limit is set, emit "Retrying....", double the delay,
   * drop the connection and run() again.
   */
  function FireTimer(s: Ts.State): Ts.State {
    var s1 := s.(pending := None);
    if s1.maxResume.Some? && s1.resumeCound > s1.maxResume.value then
      Ts.TraseLog(s1, RetryLimit, LimitTitle, LimitDescription)
    else
      var s2 := if s1.maxResume.Some? then s1.(resumeCound := s1.resumeCound + 1) else s1;
      Run(s2.(log := s2.log + [Debug(Retrying)], resumeSecond := s2.resumeSecond * 2, websocket := None))
  }

  /** One input; an input that cannot occur leaves the state as it is. */
  function Step(s: Ts.State, i: Ts.Input): Ts.State {
    if !Ts.Admissible(s, i) then s
    else
      match i
      case Opened => Ts.OnOpen(s)
      case Closed => Ts.OnClose(s)
      case Errored(e) => Ts.OnError(s, e)
      case Received(m) => Ts.OnMessage(s, m)
      case SendCall(m) => Ts.Send(s, m)
      case TimerFired => FireTimer(s)
  }

  function Exec(s: Ts.State, inputs: seq<Ts.Input>): Ts.State
    decreases |inputs|
  {
    if inputs == [] then s else Exec(Step(s, inputs[0]), inputs[1..])
  }

  /** The retry counter of the compiled manager after `retries` completed retries. */
  ghost predicate CounterInv(s: Ts.State, retries: nat) {
    (s.maxResume.None? ==> s.resumeCound == 0 && !IsLimitFatal(s.phase))
    && (s.maxResume.Some? ==> s.resumeCound == retries)
    && (s.maxResume.Some? ==> s.resumeCound <= s.maxResume.value + 1 || s.resumeCound == 0)
    && (IsLimitFatal(s.phase) ==> s.maxResume.Some? && s.resumeCound > s.maxResume.value)
  }

  /**
   * What holds in every reachable state of a manager that started with
   * `init` seconds: the log and connection invariant it shares with the
   * TypeScript manager, and its own counter invariant.
   */
  ghost predicate Inv(s: Ts.State, init: int) {
    Ts.Settled(s, init) && CounterInv(s, Retries(s.log))
  }

  lemma ConstructInv(url: string, options: Option<Ts.Options>)
    ensures Inv(Construct(url, options), Ts.InitialSecond(options))
  {
  }

  lemma OpenInv(s: Ts.State, init: int)
    requires Inv(s, init)
    ensures Inv(Ts.OnOpen(s), init)
  {
    Ts.OpenSettled(s, init);
  }

  lemma MessageInv(s: Ts.State, m: Payload, init: int)
    requires Inv(s, init)
    ensures Inv(Ts.OnMessage(s, m), init)
  {
    Ts.MessageSettled(s, m, init);
  }

  lemma ErrorInv(s: Ts.State, e: ErrorEvent, init: int)
    requires Inv(s, init) && s.phase.Live?
    ensures Inv(Ts.OnError(s, e), init)
  {
    Ts.ErrorSettled(s, e, init);
  }

  lemma CloseInv(s: Ts.State, init: int)
    requires Inv(s, init) && s.phase.Live? && !s.websocket.value.closed
    ensures Inv(Ts.OnClose(s), init)
  {
    Ts.CloseSettled(s, init);
  }

  lemma FireInv(s: Ts.State, init: int)
    requires Inv(s, init) && s.phase.Live? && s.pending.Some?
    ensures Inv(FireTimer(s), init)
  {
    FireLog(s);
    if FireTimer(s).phase.Live? {
      AppendEvent(s.log, init, Debug(Retrying));
    }
  }

  /** The log part of a timer fire: one debug event, or none when it goes fatal. */
  lemma FireLog(s: Ts.State)
    requires s.phase.Live?
    ensures FireTimer(s).phase.Live? ==> FireTimer(s).log == s.log + [Debug(Retrying)]
    ensures FireTimer(s).phase.Fatal? ==> FireTimer(s).log == s.log
  {
  }

  lemma StepInv(s: Ts.State, i: Ts.Input, init: int)
    requires Inv(s, init)
    ensures Inv(Step(s, i), init)
  {
    if Ts.Admissible(s, i) {
      match i
      case Opened => OpenInv(s, init);
      case Closed => CloseInv(s, init);
      case Errored(e) => ErrorInv(s, e, init);
      case Received(m) => MessageInv(s, m, init);
      case SendCall(m) =>
      case TimerFired => FireInv(s, init);
    }
  }

  lemma {:induction false} ExecInv(s: Ts.State, inputs: seq<Ts.Input>, init: int)
    requires Inv(s, init)
    ensures Inv(Exec(s, inputs), init)
    decreases |inputs|
  {
    if inputs != [] {
      StepInv(s, inputs[0], init);
      ExecInv(Step(s, inputs[0]), inputs[1..], init);
    }
  }

  /** The url and the retry ceiling never change after construction. */
  lemma {:induction false} ExecKeepsConfig(s: Ts.State, inputs: seq<Ts.Input>)
    ensures Exec(s, inputs).url == s.url && Exec(s, inputs).maxResume == s.maxResume
    decreases |inputs|
  {
    if inputs != [] {
      ExecKeepsConfig(Step(s, inputs[0]), inputs[1..]);
    }
  }

  lemma Reachable(url: string, options: Option<Ts.Options>, inputs: seq<Ts.Input>)
    ensures Inv(Exec(Construct(url, options), inputs), Ts.InitialSecond(options))
  {
    ConstructInv(url, options);
    ExecInv(Construct(url, options), inputs, Ts.InitialSecond(options));
  }

  /** The backoff and connection facts of Ts.SettledBackoff, for every run of this manager. */
  lemma Backoff(url: string, options: Option<Ts.Options>, inputs: seq<Ts.Input>)
    ensures var s := Exec(Construct(url, options), inputs);
      s.resumeSecond == Ts.InitialSecond(options) * Pow2(Retries(s.log))
      && (forall k :: 0 <= k < |Delays(s.log)| ==> Delays(s.log)[k] == Ts.InitialSecond(options) * Pow2(k) * 1000)
      && s.created == Retries(s.log) + 1 && s.websocket.Some? && s.websocket.value.id == s.created - 1
  {
    Reachable(url, options, inputs);
    Ts.SettledBackoff(Exec(Construct(url, options), inputs), Ts.InitialSecond(options));
  }

  /** isReconnect stays false, so no `reconnect` event and no "Connect" cause is ever emitted. */
  lemma NeverReconnects(url: string, options: Option<Ts.Options>, inputs: seq<Ts.Input>)
    ensures var s := Exec(Construct(url, options), inputs);
      !s.isReconnect && NeverReconnect(s.log) && NoConnectCause(s.log)
  {
    Reachable(url, options, inputs);
  }

  /**
   * With limit K >= 0 at most K + 1 retries complete and the limit fires on
   * timer fire K + 2; with K < 0 no retry completes and the first fire is
   * fatal; without a limit the counter stays 0 and the limit never fires.
   */
  lemma LimitFiresLate(url: string, options: Option<Ts.Options>, inputs: seq<Ts.Input>)
    ensures var s := Exec(Construct(url, options), inputs);
      s.maxResume == Ts.InitialLimit(options)
      && (s.maxResume.None? ==> s.resumeCound == 0 && !IsLimitFatal(s.phase))
      && (s.maxResume.Some? ==> s.resumeCound == Retries(s.log))
      && (s.maxResume.Some? && s.maxResume.value >= 0 ==> Retries(s.log) <= s.maxResume.value + 1)
      && (s.maxResume.Some? && s.maxResume.value < 0 ==> Retries(s.log) == 0)
      && (IsLimitFatal(s.phase) && s.maxResume.value >= 0 ==> Retries(s.log) == s.maxResume.value + 1)
  {
    Reachable(url, options, inputs);
    ExecKeepsConfig(Construct(url, options), inputs);
  }

  /**
   * A timer fire of a reachable manager: fatal exactly when a limit is set
   * and the counter already exceeds it; a fatal fire changes no counter, no
   * delay and no connection; any other fire counts (with a limit), doubles
   * the backoff and opens one connection.
   */
  lemma FireOutcome(s: Ts.State, init: int)
    requires Inv(s, init) && s.phase.Live? && s.pending.Some?
    ensures var r := FireTimer(s);
      r.pending.None?
      && (r.phase.Fatal? <==> s.maxResume.Some? && Retries(s.log) > s.maxResume.value)
      && (r.phase.Fatal? ==>
            r.phase == Fatal(RetryLimit, FatalMessage(LimitTitle, LimitDescription))
            && r.resumeCound == s.resumeCound && r.resumeSecond == s.resumeSecond
            && r.created == s.created && r.log == s.log)
      && (r.phase.Live? ==>
            r.resumeCound == s.resumeCound + (if s.maxResume.Some? then 1 else 0)
            && r.resumeSecond == 2 * s.resumeSecond
            && r.created == s.created + 1 && r.websocket == Some(Ts.Socket(s.created, false))
            && r.log == s.log + [Debug(Retrying)]
            && Retries(r.log) == Retries(s.log) + 1)
  {
    RetriesAppend(s.log, Debug(Retrying));
  }

  /** Retry limit 0 from a backoff of 1 s: the first fire reconnects, the second is fatal. */
  lemma LimitZeroScenario()
    ensures var s := Exec(Construct("ws://example/test", Some(Ts.Options(Some(1), Some(0)))),
                          [Ts.Closed, Ts.TimerFired, Ts.Closed, Ts.TimerFired]);
      s.phase == Fatal(RetryLimit, FatalMessage(LimitTitle, LimitDescription))
      && s.created == 2 && s.resumeSecond == 2 && s.resumeCound == 1
  {
    var s0 := Construct("ws://example/test", Some(Ts.Options(Some(1), Some(0))));
    var s1 := Step(s0, Ts.Closed);
    var s2 := Step(s1, Ts.TimerFired);
    var s3 := Step(s2, Ts.Closed);
    var s4 := Step(s3, Ts.TimerFired);
    assert s2.phase.Live? && s2.resumeCound == 1 && s2.resumeSecond == 2;
    assert s4.phase == Fatal(RetryLimit, FatalMessage(LimitTitle, LimitDescription));
    calc {
      Exec(s0, [Ts.Closed, Ts.TimerFired, Ts.Closed, Ts.TimerFired]);
      { assert [Ts.Closed, Ts.TimerFired, Ts.Closed, Ts.TimerFired][1..] == [Ts.TimerFired, Ts.Closed, Ts.TimerFired]; }
      Exec(s1, [Ts.TimerFired, Ts.Closed, Ts.TimerFired]);
      { assert [Ts.TimerFired, Ts.Closed, Ts.TimerFired][1..] == [Ts.Closed, Ts.TimerFired]; }
      Exec(s2, [Ts.Closed, Ts.TimerFired]);
      { assert [Ts.Closed, Ts.TimerFired][1..] == [Ts.TimerFired]; }
      Exec(s3, [Ts.TimerFired]);
      s4;
    }
  }
}
