/** The host controller as transition functions over an abstract state,
    one per handler of the host page, and what they guarantee. The class
    in module Player carries out the same steps on mutable fields. */
module HostSpec {
  import opened Bridge
  import opened Guards
  import Text
  import Source
  import VirtualController

  /** How many 50 ms waits `runCodeWhenReady` makes at most. */
  const PollLimit: nat := 40

  /** What the page provides: the build's `BASE_URL`, the sandbox address
      that `bootSandbox` is meant to load (this model does not resolve
      URLs), `location.protocol`, whether the frame has a `contentWindow`,
      and which button elements exist. */
  datatype Env = Env(
    baseUrl: string,
    sandboxSrc: string,
    pageProtocol: string,
    attached: bool,
    present: set<string>)

  /** The host's observable state: the `boxReady` flag, the status label,
      the log box, the messages posted to the frame, the addresses the
      frame was navigated to, and the elements showing the `on` class. */
  datatype Snapshot = Snapshot(
    boxReady: bool,
    status: string,
    log: seq<LogEntry>,
    posted: seq<Message>,
    loads: seq<string>,
    pressed: set<string>)

  /** The state before the page script runs. */
  function Initial(status: string): Snapshot {
    Snapshot(false, status, [], [], [], {})
  }

  /** The invariant every handler keeps. */
  ghost predicate Consistent(env: Env, h: Snapshot) {
    VirtualController.Mirrors(env.present, h.pressed, h.posted)
  }

  /** `log(msg, level)` */
  function Say(h: Snapshot, msg: string, level: Level): Snapshot {
    h.(log := h.log + [LogEntry(msg, level)])
  }

  function BootLine(env: Env): LogEntry {
    LogEntry("sandbox boot → " + env.sandboxSrc, Info)
  }

  /** `bootSandbox()` */
  function BootSandbox(env: Env, h: Snapshot): Snapshot {
    h.(loads := h.loads + [env.sandboxSrc], boxReady := false, status := "booting",
       log := h.log + [BootLine(env)])
  }

  /** The `message` listener. */
  function Receive(h: Snapshot, m: Message): Snapshot {
    match m
    case Ready => Say(h.(boxReady := true), "sandbox ready", Info)
    case Log(msg, level) => Say(h, msg, level.GetOr(Info))
    case _ => h
  }

  /** The listener run on each of `ms` in turn. */
  function ReceiveAll(h: Snapshot, ms: seq<Message>): Snapshot {
    if ms == [] then h else Receive(ReceiveAll(h, ms[..|ms| - 1]), ms[|ms| - 1])
  }

  /** The messages that arrive during the `i`-th wait. */
  function BatchAt(batches: seq<seq<Message>>, i: nat): seq<Message> {
    if i < |batches| then batches[i] else []
  }

  /** The polling loop of `runCodeWhenReady`, from its `i`-th test on. */
  function Poll(h: Snapshot, batches: seq<seq<Message>>, i: nat): Snapshot
    decreases PollLimit - i
  {
    if i < PollLimit && !h.boxReady then Poll(ReceiveAll(h, BatchAt(batches, i)), batches, i + 1)
    else h
  }

  /** What `runCodeWhenReady` does once the loop is over. */
  function Dispatch(env: Env, h: Snapshot, code: string): Snapshot {
    if !h.boxReady then Say(h, "iframe not ready", Error)
    else h.(posted := if env.attached then h.posted + [RunCode(code)] else h.posted,
            status := "running")
  }

  /** `runCodeWhenReady(code)`, with `batches[i]` arriving during the
      `i`-th wait. */
  function RunCodeWhenReady(env: Env, h: Snapshot, code: string, batches: seq<seq<Message>>): Snapshot {
    Dispatch(env, Poll(h, batches, 0), code)
  }

  /** `runLocal()`: `pending` arrives while the file is read. */
  function RunLocal(env: Env, h: Snapshot, file: Option<LocalFile>,
                    pending: seq<Message>, batches: seq<seq<Message>>): Snapshot {
    match CheckLocalFile(file)
    case Reject(e) => h.(log := h.log + [e])
    case Accept(f) =>
      var read := ReceiveAll(BootSandbox(env, h), pending);
      var ran := RunCodeWhenReady(env, read, Source.Normalize(f.text), batches);
      Say(ran, "実行開始(ローカル): " + f.name, Info)
  }

  /** `runFromURL()` on the input `raw`: `pending` arrives while the
      fetch is under way. */
  function RunFromUrl(env: Env, h: Snapshot, raw: string, fetched: FetchResult,
                      pending: seq<Message>, batches: seq<seq<Message>>): Snapshot {
    match CheckUrl(env.pageProtocol, raw)
    case Reject(e) => h.(log := h.log + [e])
    case Accept(url) =>
      var fetching := ReceiveAll(Say(BootSandbox(env, h), "fetch: " + url, Info), pending);
      match fetched
      case NetworkFailure(reason) => Say(fetching, "URL読み込み失敗: " + reason, Error)
      case Response(status, statusText, body) =>
        if !IsOk(fetched) then
          Say(fetching, "HTTPエラー: " + Text.Decimal(status) + " " + statusText, Error)
        else
          var ran := RunCodeWhenReady(env, fetching, Source.Normalize(body), batches);
          Say(ran, "実行開始(URL): " + url, Info)
  }

  /** `runSample()`: `pending` arrives while the fetch is under way; the
      text is sent as it is, without normalisation. */
  function RunSample(env: Env, h: Snapshot, fetched: FetchResult,
                     pending: seq<Message>, batches: seq<seq<Message>>): Snapshot {
    var fetching := ReceiveAll(BootSandbox(env, h), pending);
    match fetched
    case NetworkFailure(reason) => Say(fetching, "sample fetch failed: " + reason, Error)
    case Response(status, _, body) =>
      if !IsOk(fetched) then
        Say(fetching, "sample fetch failed: HTTP " + Text.Decimal(status), Error)
      else
        Say(RunCodeWhenReady(env, fetching, body, batches), "実行開始: sample-game.js", Info)
  }

  /** The restart button. */
  function Restart(env: Env, h: Snapshot): Snapshot {
    Say(BootSandbox(env, h).(status := "idle"), "restart", Info)
  }

  /** A gesture `g` on the element `id`: the listeners of `bindVKey` call
      `send`, which does nothing without a `contentWindow`. */
  function Press(env: Env, h: Snapshot, id: string, g: VirtualController.Gesture): Snapshot {
    if !VirtualController.Bound(env.present, id) || !env.attached then h
    else
      var down := VirtualController.IsPress(g);
      h.(posted := h.posted + [VKey(VirtualController.BoundKey(env.present, id), down)],
         pressed := if down then h.pressed + {id} else h.pressed - {id})
  }

  // The boot as written. `new URL('sandbox/', BASE_URL)` parses BASE_URL
  // as an absolute URL and throws a TypeError when it cannot, before
  // `bootSandbox` changes anything. The handlers above use the boot as
  // intended, which always reaches the sandbox address.

  predicate IsAsciiAlpha(c: char) {
    ('a' <= c <= 'z') || ('A' <= c <= 'Z')
  }

  predicate IsSchemeChar(c: char) {
    IsAsciiAlpha(c) || ('0' <= c <= '9') || c == '+' || c == '-' || c == '.'
  }

  /** `s` starts with a URL scheme and its colon, which an absolute URL
      must (section "URL parsing", scheme start state, of the WHATWG URL
      Standard); without one, parsing `s` as a base fails. */
  predicate HasScheme(s: string) {
    |s| > 0 && IsAsciiAlpha(s[0])
    && exists k :: 1 <= k < |s| && s[k] == ':' && forall m :: 1 <= m < k ==> IsSchemeChar(s[m])
  }

  /** `bootSandbox()` as written: `None` is the TypeError thrown by
      `new URL('sandbox/', BASE_URL)` when the base has no scheme. */
  function BootSandboxAsWritten(env: Env, h: Snapshot): Option<Snapshot> {
    if HasScheme(env.baseUrl) then Some(BootSandbox(env, h)) else None
  }

  /** `runLocal()` as written: the guards run, then a throwing boot ends
      the handler (its promise rejects) with nothing further done. */
  function RunLocalAsWritten(env: Env, h: Snapshot, file: Option<LocalFile>,
                             pending: seq<Message>, batches: seq<seq<Message>>): Snapshot {
    match CheckLocalFile(file)
    case Reject(e) => h.(log := h.log + [e])
    case Accept(_) => if BootSandboxAsWritten(env, h).None? then h else RunLocal(env, h, file, pending, batches)
  }

  /** `runFromURL()` as written: the boot at the head of the path is
      outside the `try`, so its throw ends the handler. */
  function RunFromUrlAsWritten(env: Env, h: Snapshot, raw: string, fetched: FetchResult,
                               pending: seq<Message>, batches: seq<seq<Message>>): Snapshot {
    match CheckUrl(env.pageProtocol, raw)
    case Reject(e) => h.(log := h.log + [e])
    case Accept(_) =>
      if BootSandboxAsWritten(env, h).None? then h else RunFromUrl(env, h, raw, fetched, pending, batches)
  }

  /** `runSample()` as written: the boot comes before the `try`. */
  function RunSampleAsWritten(env: Env, h: Snapshot, fetched: FetchResult,
                              pending: seq<Message>, batches: seq<seq<Message>>): Snapshot {
    if BootSandboxAsWritten(env, h).None? then h else RunSample(env, h, fetched, pending, batches)
  }

  /** The restart handler as written: the boot throws before `setState`. */
  function RestartAsWritten(env: Env, h: Snapshot): Snapshot {
    if BootSandboxAsWritten(env, h).None? then h else Restart(env, h)
  }
}
