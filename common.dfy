/// Vocabulary shared by the three WebSocketManager variants: the events a
/// manager emits, the transport error it receives, the fatal error text
/// built by traseLog, and counting functions over the emitted event log.
module WsCommon {

  datatype Option<T> = None | Some(value: T) {
    /** The `??` operator: the value when present, `default` otherwise. */
    function GetOr(default: T): (r: T)
      ensures Some? ==> r == value
      ensures None? ==> r == default
    {
      if Some? then value else default
    }
  }

  /** Message content, handed through without being inspected. */
  type Payload = seq<bv8>

  /** The declared `Cause` union of the `disconnect` event. */
  type Cause = c: string | c == "Error" || c == "Disconnect" || c == "Connect" witness "Error"

  /** What a `debug` event reports; the text is kept only as far as a property needs it. */
  datatype Note =
    | RunInfo            // run(): the url, isReconnect, maxResume and resumeCound
    | RetryIn(ms: int)   // reconnect(): the delay handed to setTimeout, in ms
    | Retrying           // the timer: "[WSManagePackage] Retrying...."

  /** One `emit` call: the event name and its argument. */
  datatype Event =
    | Debug(note: Note)
    | Ready
    | Reconnect
    | Disconnect(cause: Cause)
    | Message(data: Payload)

  /** The transport's error event; `message` and `error` may be missing. */
  datatype ErrorEvent = ErrorEvent(message: Option<string>, error: Option<string>)

  /** The two ways a manager reaches traseLog. */
  datatype Origin = TransportError | RetryLimit

  /** Live, or stopped by the error traseLog throws. */
  datatype Phase = Live | Fatal(origin: Origin, message: string)

  predicate IsLimitFatal(p: Phase) {
    p.Fatal? && p.origin == RetryLimit
  }

  const UnknownTitle := "Unknown WebSocket Error"
  const UnknownCause := "Cause from Unknown Error"
  const LimitTitle := "WebSocket MaxResumeError"
  const LimitDescription := "Retry limit reached."

  /** The text of the error traseLog throws: title and description, framed by spaces and newlines. */
  function FatalMessage(title: string, description: string): (m: string)
    ensures |m| == |title| + |description| + 6
    ensures m[..|title|] == title
    ensures m[|title|..|title| + 4] == " \n\n "
    ensures m[|title| + 4..|m| - 2] == description
    ensures m[|m| - 2..] == " \n"
  {
    title + " \n\n " + description + " \n"
  }

  /** The title an error event yields: its message, or the default. */
  function ErrorTitle(e: ErrorEvent): (t: string)
    ensures e.message.Some? ==> t == e.message.value
    ensures e.message.None? ==> t == UnknownTitle
  {
    e.message.GetOr(UnknownTitle)
  }

  /** The description an error event yields: its cause, or the default. */
  function ErrorDescription(e: ErrorEvent): (d: string)
    ensures e.error.Some? ==> d == e.error.value
    ensures e.error.None? ==> d == UnknownCause
  {
    e.error.GetOr(UnknownCause)
  }

  function Pow2(n: nat): nat {
    if n == 0 then 1 else 2 * Pow2(n - 1)
  }

  /** `init` doubled n times: the backoff after n completed retries. */
  function Doubled(init: int, n: nat): int {
    if n == 0 then init else 2 * Doubled(init, n - 1)
  }

  /** Doubling n times multiplies by 2^n. */
  lemma {:induction false} DoubledIsPow2(init: int, n: nat)
    ensures Doubled(init, n) == init * Pow2(n)
  {
    if n > 0 {
      DoubledIsPow2(init, n - 1);
      calc {
        Doubled(init, n);
        2 * Doubled(init, n - 1);
        2 * (init * Pow2(n - 1));
        { assert 2 * (init * Pow2(n - 1)) == init * (2 * Pow2(n - 1)); }
        init * Pow2(n);
      }
    }
  }

  /** The delay, in ms, of the retry scheduled after n completed ones. */
  lemma DelayIsPow2(init: int, n: nat)
    ensures Doubled(init, n) * 1000 == init * Pow2(n) * 1000
  {
    DoubledIsPow2(init, n);
  }

  /** Number of completed retries: the "Retrying...." debug events in a log. */
  function Retries(log: seq<Event>): nat {
    if log == [] then 0
    else Retries(log[..|log| - 1]) + (if log[|log| - 1] == Debug(Retrying) then 1 else 0)
  }

  /** The delays, in ms, of the retries scheduled so far, in scheduling order. */
  function Delays(log: seq<Event>): seq<int> {
    if log == [] then []
    else
      var e := log[|log| - 1];
      Delays(log[..|log| - 1]) + (if e.Debug? && e.note.RetryIn? then [e.note.ms] else [])
  }

  lemma RetriesAppend(log: seq<Event>, e: Event)
    ensures Retries(log + [e]) == Retries(log) + (if e == Debug(Retrying) then 1 else 0)
  {
    assert (log + [e])[..|log|] == log;
  }

  lemma DelaysAppend(log: seq<Event>, e: Event)
    ensures Delays(log + [e]) == Delays(log) + (if e.Debug? && e.note.RetryIn? then [e.note.ms] else [])
  {
    assert (log + [e])[..|log|] == log;
  }

  /** The k-th scheduled delay (from 0) is init doubled k times, in ms. */
  ghost predicate Doubling(ds: seq<int>, init: int) {
    forall k :: 0 <= k < |ds| ==> ds[k] == Doubled(init, k) * 1000
  }

  lemma DoublingAppend(ds: seq<int>, init: int, ms: int)
    requires Doubling(ds, init) && ms == Doubled(init, |ds|) * 1000
    ensures Doubling(ds + [ms], init)
  {
  }

  /** No `reconnect` event was ever emitted. */
  ghost predicate NeverReconnect(log: seq<Event>) {
    forall i :: 0 <= i < |log| ==> log[i] != Reconnect
  }

  /** Every `disconnect` event carries "Error" or "Disconnect", never "Connect". */
  ghost predicate NoConnectCause(log: seq<Event>) {
    forall i :: 0 <= i < |log| && log[i].Disconnect? ==> log[i].cause != "Connect"
  }

  /** What every log of a manager that started with `init` seconds satisfies. */
  ghost predicate LogInv(log: seq<Event>, init: int) {
    NeverReconnect(log) && NoConnectCause(log) && Doubling(Delays(log), init)
  }

  /**
   * Emitting one more event keeps LogInv, as long as it is not `reconnect`
   * or `disconnect("Connect")` and a scheduled delay is the next doubling.
   */
  lemma AppendEvent(log: seq<Event>, init: int, e: Event)
    requires LogInv(log, init)
    requires e != Reconnect && (e.Disconnect? ==> e.cause != "Connect")
    requires e.Debug? && e.note.RetryIn? ==> e.note.ms == Doubled(init, |Delays(log)|) * 1000
    ensures LogInv(log + [e], init)
    ensures Retries(log + [e]) == Retries(log) + (if e == Debug(Retrying) then 1 else 0)
    ensures Delays(log + [e]) == Delays(log) + (if e.Debug? && e.note.RetryIn? then [e.note.ms] else [])
  {
    RetriesAppend(log, e);
    DelaysAppend(log, e);
    if e.Debug? && e.note.RetryIn? {
      DoublingAppend(Delays(log), init, e.note.ms);
    }
  }
}
