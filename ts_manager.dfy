/// The class of src/websocketmanager.ts. Each transport callback and the
/// timer firing is a method; emit appends to a ghost event log, the pending
/// setTimeout is one slot, and the error traseLog throws moves the manager to
/// its terminal phase. Every method is proved to do what the matching
/// function of TsSpec says, so the lemmas there hold of the class.
module TsManager {
  import opened WsCommon
  import TsSpec

  class WebSocketManager {
    const url: string
    var websocket: Option<TsSpec.Socket>
    var resumeSecond: int
    var isReconnect: bool
    var maxResume: Option<int>
    var resumeCound: int

    /** Connections created so far; the next one gets this number. */
    var created: nat
    /** The delay, in ms, of the setTimeout that has not fired yet. */
    var pending: Option<int>
    /** Everything emitted, in order. */
    ghost var log: seq<Event>
    /** Everything handed to a connection's send, in order. */
    ghost var sent: seq<TsSpec.Sent>
    var phase: Phase
    /** The backoff this manager started with. */
    ghost const initial: int

    ghost function Abs(): TsSpec.State
      reads this
    {
      TsSpec.State(url, resumeSecond, maxResume, resumeCound, isReconnect, websocket,
                   created, pending, log, sent, phase)
    }

    ghost predicate Valid()
      reads this
    {
      TsSpec.Inv(Abs(), initial)
    }

    constructor (url: string, options: Option<TsSpec.Options>)
      ensures Valid() && initial == TsSpec.InitialSecond(options)
      ensures Abs() == TsSpec.Construct(url, options)
    {
      this.url := url;
      resumeSecond := 5;
      websocket := None;
      isReconnect := false;
      maxResume := None;
      resumeCound := 0;
      if options.Some? {
        if options.value.resumeSecond.Some? {
          resumeSecond := options.value.resumeSecond.value;
        }
        if options.value.setMaxResume.Some? {
          maxResume := options.value.setMaxResume;
        }
      }
      created, pending, log, sent, phase := 0, None, [], [], Live;
      initial := TsSpec.InitialSecond(options);
      new;
      Run();
      TsSpec.ConstructInv(url, options);
    }

    method Run()
      modifies this
      ensures Abs() == TsSpec.Run(old(Abs()))
    {
      websocket := Some(TsSpec.Socket(created, false));
      created := created + 1;
      log := log + [Debug(RunInfo)];
    }

    method Reconnect()
      modifies this
      ensures Abs() == TsSpec.Reconnect(old(Abs()))
    {
      log := log + [Debug(RetryIn(resumeSecond * 1000))];
      pending := Some(resumeSecond * 1000);
    }

    method TraseLog(origin: Origin, title: string, description: string)
      modifies this
      ensures Abs() == TsSpec.TraseLog(old(Abs()), origin, title, description)
    {
      phase := Fatal(origin, FatalMessage(title, description));
    }

    method OnOpen()
      requires Valid() && phase.Live? && !websocket.value.closed
      modifies this
      ensures Valid() && Abs() == TsSpec.OnOpen(old(Abs()))
    {
      TsSpec.OpenInv(Abs(), initial);
      log := log + [if !isReconnect then Ready else Event.Reconnect];
    }

    method OnClose()
      requires Valid() && phase.Live? && !websocket.value.closed
      modifies this
      ensures Valid() && Abs() == TsSpec.OnClose(old(Abs()))
    {
      TsSpec.CloseInv(Abs(), initial);
      websocket := Some(websocket.value.(closed := true));
      log := log + [Disconnect("Disconnect")];
      Reconnect();
    }

    method OnError(e: ErrorEvent)
      requires Valid() && phase.Live? && !websocket.value.closed
      modifies this
      ensures Valid() && Abs() == TsSpec.OnError(old(Abs()), e)
    {
      TsSpec.ErrorInv(Abs(), e, initial);
      log := log + [Disconnect("Error")];
      TraseLog(TransportError, ErrorTitle(e), ErrorDescription(e));
    }

    method OnMessage(m: Payload)
      requires Valid() && phase.Live? && !websocket.value.closed
      modifies this
      ensures Valid() && Abs() == TsSpec.OnMessage(old(Abs()), m)
    {
      TsSpec.MessageInv(Abs(), m, initial);
      log := log + [Message(m)];
    }

    method Send(m: Payload)
      requires Valid() && phase.Live?
      modifies this
      ensures Valid() && Abs() == TsSpec.Send(old(Abs()), m)
    {
      sent := sent + [TsSpec.Sent(websocket.value.id, m)];
    }

    method FireTimer()
      requires Valid() && phase.Live? && pending.Some?
      modifies this
      ensures Valid() && Abs() == TsSpec.FireTimer(old(Abs()))
    {
      ghost var before := Abs();
      pending := None;
      if maxResume.Some? {
        resumeCound := resumeCound + 1;
      }
      if maxResume.Some? && resumeCound == maxResume.value {
        TraseLog(RetryLimit, LimitTitle, LimitDescription);
        assert Abs() == TsSpec.FireTimer(before);
      } else {
        log := log + [Debug(Retrying)];
        resumeSecond := resumeSecond * 2;
        websocket := None;
        ghost var ready := Abs();
        Run();
        assert Abs() == TsSpec.Run(ready) == TsSpec.FireTimer(before);
      }
      TsSpec.FireInv(before, initial);
    }
  }
}
