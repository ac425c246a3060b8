/** The host page's script state as an object: the module-level
    `boxReady` flag, the status label, the log box, the frame and the
    button elements, each mutated in place by the page's handlers. */
module Player {
  import opened Bridge
  import opened Guards
  import Text
  import Source
  import VirtualController
  import HostSpec
  import HostProps

  class Host {
    const env: HostSpec.Env
    var boxReady: bool
    var status: string
    var log: seq<LogEntry>
    var posted: seq<Message>
    var loads: seq<string>
    var pressed: set<string>

    function Snap(): HostSpec.Snapshot
      reads this
    {
      HostSpec.Snapshot(boxReady, status, log, posted, loads, pressed)
    }

    ghost predicate Valid()
      reads this
    {
      HostSpec.Consistent(env, Snap())
    }

    /** Loading the page script: listeners are registered, the buttons are
        bound, and the sandbox is booted once. `initialStatus` is the
        status label's text in the page markup. */
    constructor (env: HostSpec.Env, initialStatus: string)
      ensures this.env == env && Valid()
      ensures Snap() == HostSpec.BootSandbox(env, HostSpec.Initial(initialStatus))
    {
      this.env := env;
      boxReady := false;
      status := initialStatus;
      log := [];
      posted := [];
      loads := [];
      pressed := {};
      new;
      BootSandbox();
    }

    /** `setState(s)` */
    method SetState(s: string)
      requires Valid()
      modifies this
      ensures Valid() && Snap() == old(Snap()).(status := s)
    {
      status := s;
    }

    /** `log(msg, level)` */
    method Log(msg: string, level: Level)
      requires Valid()
      modifies this
      ensures Valid() && Snap() == HostSpec.Say(old(Snap()), msg, level)
    {
      log := log + [LogEntry(msg, level)];
    }

    /** `bootSandbox()` */
    method BootSandbox()
      requires Valid()
      modifies this
      ensures Valid() && Snap() == HostSpec.BootSandbox(env, old(Snap()))
    {
      loads := loads + [env.sandboxSrc];
      boxReady := false;
      SetState("booting");
      Log("sandbox boot → " + env.sandboxSrc, Info);
    }

    /** The `message` listener. */
    method OnMessage(m: Message)
      requires Valid()
      modifies this
      ensures Valid() && Snap() == HostSpec.Receive(old(Snap()), m)
    {
      match m
      case Ready =>
        boxReady := true;
        Log("sandbox ready", Info);
      case Log(msg, level) =>
        Log(msg, level.GetOr(Info));
      case _ =>
    }

    /** The event loop hands each of `ms` to the listener in turn. */
    method Deliver(ms: seq<Message>)
      requires Valid()
      modifies this
      ensures Valid() && Snap() == HostSpec.ReceiveAll(old(Snap()), ms)
    {
      for i := 0 to |ms|
        invariant Valid() && Snap() == HostSpec.ReceiveAll(old(Snap()), ms[..i])
      {
        assert ms[..i + 1][..i] == ms[..i];
        OnMessage(ms[i]);
      }
      assert ms[..|ms|] == ms;
    }

    /** `runCodeWhenReady(code)`: `batches[i]` reaches the listener during
        the `i`-th wait. */
    method RunCodeWhenReady(code: string, batches: seq<seq<Message>>)
      requires Valid()
      modifies this
      ensures Valid() && Snap() == HostSpec.RunCodeWhenReady(env, old(Snap()), code, batches)
    {
      var i := 0;
      while i < HostSpec.PollLimit && !boxReady
        invariant i <= HostSpec.PollLimit
        invariant Valid()
        invariant HostSpec.Poll(Snap(), batches, i) == HostSpec.Poll(old(Snap()), batches, 0)
        decreases HostSpec.PollLimit - i
      {
        Deliver(HostSpec.BatchAt(batches, i));
        i := i + 1;
      }
      if !boxReady {
        Log("iframe not ready", Error);
        return;
      }
      ghost var before := Snap();
      if env.attached {
        posted := posted + [RunCode(code)];
      }
      HostProps.KeepsConsistent(env, before, Snap());
      SetState("running");
    }

    /** `runLocal()`: `pending` reaches the listener while the file is
        read. */
    method RunLocal(file: Option<LocalFile>, pending: seq<Message>, batches: seq<seq<Message>>)
      requires Valid()
      modifies this
      ensures Valid() && Snap() == HostSpec.RunLocal(env, old(Snap()), file, pending, batches)
    {
      match CheckLocalFile(file)
      case Reject(e) =>
        Log(e.msg, e.level);
      case Accept(f) =>
        BootSandbox();
        Deliver(pending);
        var wrapped := Source.Normalize(f.text);
        RunCodeWhenReady(wrapped, batches);
        Log("実行開始(ローカル): " + f.name, Info);
    }

    /** `runFromURL()` on the input `raw`: `pending` reaches the listener
        while the fetch is under way. */
    method RunFromUrl(raw: string, fetched: FetchResult, pending: seq<Message>, batches: seq<seq<Message>>)
      requires Valid()
      modifies this
      ensures Valid() && Snap() == HostSpec.RunFromUrl(env, old(Snap()), raw, fetched, pending, batches)
    {
      match CheckUrl(env.pageProtocol, raw)
      case Reject(e) =>
        Log(e.msg, e.level);
      case Accept(url) =>
        BootSandbox();
        Log("fetch: " + url, Info);
        Deliver(pending);
        match fetched
        case NetworkFailure(reason) =>
          Log("URL読み込み失敗: " + reason, Error);
        case Response(status, statusText, body) =>
          if !IsOk(fetched) {
            Log("HTTPエラー: " + Text.Decimal(status) + " " + statusText, Error);
          } else {
            var wrapped := Source.Normalize(body);
            RunCodeWhenReady(wrapped, batches);
            Log("実行開始(URL): " + url, Info);
          }
    }

    /** `runSample()`: `pending` reaches the listener while the fetch is
        under way. */
    method RunSample(fetched: FetchResult, pending: seq<Message>, batches: seq<seq<Message>>)
      requires Valid()
      modifies this
      ensures Valid() && Snap() == HostSpec.RunSample(env, old(Snap()), fetched, pending, batches)
    {
      BootSandbox();
      Deliver(pending);
      match fetched
      case NetworkFailure(reason) =>
        Log("sample fetch failed: " + reason, Error);
      case Response(status, _, body) =>
        if !IsOk(fetched) {
          Log("sample fetch failed: HTTP " + Text.Decimal(status), Error);
        } else {
          RunCodeWhenReady(body, batches);
          Log("実行開始: sample-game.js", Info);
        }
    }

    /** The restart button's click handler. */
    method Restart()
      requires Valid()
      modifies this
      ensures Valid() && Snap() == HostSpec.Restart(env, old(Snap()))
    {
      BootSandbox();
      SetState("idle");
      Log("restart", Info);
    }

    /** A gesture `g` on the element `id`, handled by the listeners of
        `bindVKey` and their `send`. */
    method Press(id: string, g: VirtualController.Gesture)
      requires Valid()
      modifies this
      ensures Valid() && Snap() == HostSpec.Press(env, old(Snap()), id, g)
    {
      if !VirtualController.Bound(env.present, id) || !env.attached {
        return;
      }
      HostProps.PressEffect(env, Snap(), id, g);
      var down := VirtualController.IsPress(g);
      posted := posted + [VKey(VirtualController.BoundKey(env.present, id), down)];
      pressed := if down then pressed + {id} else pressed - {id};
    }
  }
}
