/// The class of src/core.ts. Each callback run() attaches and the timer
/// firing is a method; every method is proved to do what the matching
/// function of CoreSpec says, so the lemmas there hold of the class.
module CoreManager {
  import opened WsCommon
  import CoreSpec

  class WebSocketManager {
    const url: string
    var websocket: Option<CoreSpec.Socket>
    var resumeSecond: int
    var isReconnect: bool

    /** Connections created so far; the next one gets this number. */
    var created: nat
    /** The delay, in ms, of the setTimeout that has not fired yet. */
    var pending: Option<int>
    /** Everything emitted, in order. */
    ghost var log: seq<Event>
    var phase: Phase

    ghost function Abs(): CoreSpec.State
      reads this
    {
      CoreSpec.State(url, resumeSecond, isReconnect, websocket, created, pending, log, phase)
    }

    ghost predicate Valid()
      reads this
    {
      CoreSpec.Inv(Abs())
    }

    constructor (url: string)
      ensures Valid() && Abs() == CoreSpec.Construct(url)
    {
      this.url := url;
      resumeSecond := 10;
      websocket := None;
      isReconnect := false;
      created, pending, log, phase := 0, None, [], Live;
      new;
      Run();
      CoreSpec.ConstructInv(url);
    }

    method Run()
      modifies this
      ensures Abs() == CoreSpec.Run(old(Abs()))
    {
      websocket := Some(CoreSpec.Socket(created, true, false));
      created := created + 1;
    }

    method Reconnect()
      modifies this
      ensures Abs() == CoreSpec.Reconnect(old(Abs()))
    {
      log := log + [Debug(RetryIn(resumeSecond * 1000))];
      pending := Some(resumeSecond * 1000);
    }

    method TraseLog(title: string, description: string)
      modifies this
      ensures Abs() == CoreSpec.TraseLog(old(Abs()), title, description)
    {
      phase := Fatal(TransportError, FatalMessage(title, description));
    }

    /** The callbacks exist only on the connection run() created. */
    ghost predicate Wired()
      reads this
    {
      websocket.Some? && websocket.value.wired && !websocket.value.closed
    }

    method OnOpen()
      requires Valid() && phase.Live? && Wired()
      modifies this
      ensures Valid() && Abs() == CoreSpec.OnOpen(old(Abs()))
    {
      CoreSpec.OpenInv(Abs());
      log := log + [if !isReconnect then Ready else Event.Reconnect];
    }

    method OnClose()
      requires Valid() && phase.Live? && Wired()
      modifies this
      ensures Valid() && Abs() == CoreSpec.OnClose(old(Abs()))
    {
      CoreSpec.CloseInv(Abs());
      websocket := Some(websocket.value.(closed := true));
      log := log + [Disconnect("Disconnect")];
      Reconnect();
    }

    method OnError(e: ErrorEvent)
      requires Valid() && phase.Live? && Wired()
      modifies this
      ensures Valid() && Abs() == CoreSpec.OnError(old(Abs()), e)
    {
      CoreSpec.ErrorInv(Abs(), e);
      log := log + [Disconnect("Error")];
      TraseLog(ErrorTitle(e), ErrorDescription(e));
    }

    method OnMessage(m: Payload)
      requires Valid() && phase.Live? && Wired()
      modifies this
      ensures Valid() && Abs() == CoreSpec.OnMessage(old(Abs()), m)
    {
      CoreSpec.MessageInv(Abs(), m);
      log := log + [Message(m)];
    }

    method FireTimer()
      requires Valid() && phase.Live? && pending.Some?
      modifies this
      ensures Valid() && Abs() == CoreSpec.FireTimer(old(Abs()))
    {
      CoreSpec.FireInv(Abs());
      pending := None;
      resumeSecond := resumeSecond * 2;
      websocket := Some(CoreSpec.Socket(created, false, false));
      created := created + 1;
    }
  }
}
