/// The class of build/src/websocketmanager.js: the fields and callbacks of
/// the TypeScript class, with the compiled run() (no debug event) and the
/// compiled timer rule. Every method is proved to do what the matching
/// function of JsSpec or TsSpec says, so the lemmas of JsSpec hold of it.
module JsManager {
  import opened WsCommon
  import Ts = TsSpec
  import JsSpec

  class WebSocketManager {
    const url: string
    var websocket: Option<Ts.Socket>
    var resumeSecond: int
    var isReconnect: bool
    var maxResume: Option<int>
    var resumeCound: int

    /** Connections created so far; the next one gets this number. */
    var created: nat
    /** The delay, in ms, of the setTimeout that has not fired yet. */
    var pending: Option<int>
    /** Everything emitted, in order. */
    ghost var log: seq<Event>
    /** Everything handed to a connection's send, in order. */
    ghost var sent: seq<Ts.Sent>
    var phase: Phase
    /** The backoff this manager started with. */
    ghost const initial: int

    ghost function Abs(): Ts.State
      reads this
    {
      Ts.State(url, resumeSecond, maxResume, resumeCound, isReconnect, websocket,
               created, pending, log, sent, phase)
    }

    ghost predicate Valid()
      reads this
    {
      JsSpec.Inv(Abs(), initial)
    }

    constructor (url: string, options: Option<Ts.Options>)
      ensures Valid() && initial == Ts.InitialSecond(options)
      ensures Abs() == JsSpec.Construct(url, options)
    {
      this.url := url;
      resumeSecond := 5;
      websocket := None;
      isReconnect := false;
      maxResume := None;
      resumeCound := 0;
      if options.Some? {
        if options.value.resumeSecond.Some? {
          resumeSecond := options.value.resumeSecond.value;
        }
        if options.value.setMaxResume.Some? {
          maxResume := options.value.setMaxResume;
        }
      }
      created, pending, log, sent, phase := 0, None, [], [], Live;
      initial := Ts.InitialSecond(options);
      new;
      Run();
      JsSpec.ConstructInv(url, options);
    }

    method Run()
      modifies this
      ensures Abs() == JsSpec.Run(old(Abs()))
    {
      websocket := Some(Ts.Socket(created, false));
      created := created + 1;
    }

    method Reconnect()
      modifies this
      ensures Abs() == Ts.Reconnect(old(Abs()))
    {
      log := log + [Debug(RetryIn(resumeSecond * 1000))];
      pending := Some(resumeSecond * 1000);
    }

    method TraseLog(origin: Origin, title: string, description: string)
      modifies this
      ensures Abs() == Ts.TraseLog(old(Abs()), origin, title, description)
    {
      phase := Fatal(origin, FatalMessage(title, description));
    }

    method OnOpen()
      requires Valid() && phase.Live? && !websocket.value.closed
      modifies this
      ensures Valid() && Abs() == Ts.OnOpen(old(Abs()))
    {
      JsSpec.OpenInv(Abs(), initial);
      log := log + [if !isReconnect then Ready else Event.Reconnect];
    }

    method OnClose()
      requires Valid() && phase.Live? && !websocket.value.closed
      modifies this
      ensures Valid() && Abs() == Ts.OnClose(old(Abs()))
    {
      JsSpec.CloseInv(Abs(), initial);
      websocket := Some(websocket.value.(closed := true));
      log := log + [Disconnect("Disconnect")];
      Reconnect();
    }

    method OnError(e: ErrorEvent)
      requires Valid() && phase.Live? && !websocket.value.closed
      modifies this
      ensures Valid() && Abs() == Ts.OnError(old(Abs()), e)
    {
      JsSpec.ErrorInv(Abs(), e, initial);
      log := log + [Disconnect("Error")];
      TraseLog(TransportError, ErrorTitle(e), ErrorDescription(e));
    }

    method OnMessage(m: Payload)
      requires Valid() && phase.Live? && !websocket.value.closed
      modifies this
      ensures Valid() && Abs() == Ts.OnMessage(old(Abs()), m)
    {
      JsSpec.MessageInv(Abs(), m, initial);
      log := log + [Message(m)];
    }

    method Send(m: Payload)
      requires Valid() && phase.Live?
      modifies this
      ensures Valid() && Abs() == Ts.Send(old(Abs()), m)
    {
      sent := sent + [Ts.Sent(websocket.value.id, m)];
    }

    method FireTimer()
      requires Valid() && phase.Live? && pending.Some?
      modifies this
      ensures Valid() && Abs() == JsSpec.FireTimer(old(Abs()))
    {
      ghost var before := Abs();
      pending := None;
      if maxResume.Some? && resumeCound > maxResume.value {
        TraseLog(RetryLimit, LimitTitle, LimitDescription);
        assert Abs() == JsSpec.FireTimer(before);
      } else {
        if maxResume.Some? {
          resumeCound := resumeCound + 1;
        }
        log := log + [Debug(Retrying)];
        resumeSecond := resumeSecond * 2;
        websocket := None;
        Run();
        assert Abs() == JsSpec.FireTimer(before);
      }
      JsSpec.FireInv(before, initial);
    }
  }
}
