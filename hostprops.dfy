/** What the host controller's handlers guarantee: the readiness
    handshake, fail-closed dispatch, the acquisition guards, restart, and
    the virtual buttons. */
module HostProps {
  import opened Bridge
  import opened Guards
  import opened HostSpec
  import Text
  import Source
  import VirtualController

  /** `ready` reaches the host while the source is obtained or during one
      of the `PollLimit` waits. */
  ghost predicate ReadyArrives(pending: seq<Message>, batches: seq<seq<Message>>) {
    Ready in pending || exists k :: 0 <= k < PollLimit && k < |batches| && Ready in batches[k]
  }

  /** `r` differs from `h` only in its log and `boxReady`, and its log
      extends that of `h`. */
  ghost predicate OnlyLogAndFlag(h: Snapshot, r: Snapshot) {
    r.posted == h.posted && r.status == h.status && r.loads == h.loads
    && r.pressed == h.pressed && |h.log| <= |r.log| && r.log[..|h.log|] == h.log
  }

  /** The listener only writes the log and raises the flag; only `ready`
      raises it and nothing lowers it. */
  lemma {:induction false} ReceiveAllEffect(h: Snapshot, ms: seq<Message>)
    ensures OnlyLogAndFlag(h, ReceiveAll(h, ms))
    ensures ReceiveAll(h, ms).boxReady <==> h.boxReady || Ready in ms
  {
    if ms != [] {
      var front := ms[..|ms| - 1];
      ReceiveAllEffect(h, front);
      assert ms == front + [ms[|ms| - 1]];
      var r := ReceiveAll(h, ms);
      assert r.log[..|h.log|] == ReceiveAll(h, front).log[..|h.log|];
    }
  }

  /** After a boot the flag is down and the status reads `booting`,
      whatever came before; afterwards it is up again exactly when a
      `ready` has arrived. */
  lemma BootResets(env: Env, h: Snapshot, ms: seq<Message>)
    ensures !BootSandbox(env, h).boxReady && BootSandbox(env, h).status == "booting"
    ensures BootSandbox(env, h).loads == h.loads + [env.sandboxSrc]
    ensures ReceiveAll(BootSandbox(env, h), ms).boxReady <==> Ready in ms
  {
    ReceiveAllEffect(BootSandbox(env, h), ms);
  }

  /** The loop ends with the flag up exactly when it was up already or a
      `ready` arrived during one of the waits that remain; it changes
      nothing but the log and the flag. */
  lemma {:induction false} PollOutcome(h: Snapshot, batches: seq<seq<Message>>, i: nat)
    requires i <= PollLimit
    ensures OnlyLogAndFlag(h, Poll(h, batches, i))
    ensures Poll(h, batches, i).boxReady <==>
      h.boxReady || exists k :: i <= k < PollLimit && k < |batches| && Ready in batches[k]
    decreases PollLimit - i
  {
    if i < PollLimit && !h.boxReady {
      var next := ReceiveAll(h, BatchAt(batches, i));
      ReceiveAllEffect(h, BatchAt(batches, i));
      PollOutcome(next, batches, i + 1);
      var r := Poll(h, batches, i);
      assert r.log[..|h.log|] == r.log[..|next.log|][..|h.log|];
      if Ready in BatchAt(batches, i) {
        assert i < |batches| && Ready in batches[i];
      }
      if exists k :: i <= k < PollLimit && k < |batches| && Ready in batches[k] {
        var k :| i <= k < PollLimit && k < |batches| && Ready in batches[k];
        if k > i { assert i + 1 <= k; } else { assert Ready in BatchAt(batches, i); }
      }
    }
  }

  /** The wait is bounded: messages that would arrive after the
      `PollLimit`-th wait make no difference. */
  lemma {:induction false} PollIgnoresLateBatches(h: Snapshot, b1: seq<seq<Message>>, b2: seq<seq<Message>>, i: nat)
    requires forall k :: i <= k < PollLimit ==> BatchAt(b1, k) == BatchAt(b2, k)
    ensures Poll(h, b1, i) == Poll(h, b2, i)
    decreases PollLimit - i
  {
    if i < PollLimit && !h.boxReady {
      PollIgnoresLateBatches(ReceiveAll(h, BatchAt(b1, i)), b1, b2, i + 1);
    }
  }

  /** Fail-closed dispatch: `runCode` goes out, and the status becomes
      `running`, only when the flag is up after the loop; otherwise the
      error `iframe not ready` is logged, nothing is sent and the status
      is left as it was. */
  lemma FailClosed(env: Env, h: Snapshot, code: string, batches: seq<seq<Message>>)
    ensures var p := Poll(h, batches, 0);
      var r := RunCodeWhenReady(env, h, code, batches);
      && r.loads == h.loads && r.pressed == h.pressed
      && (p.boxReady ==>
            r.status == "running" && r.log == p.log
            && r.posted == h.posted + (if env.attached then [RunCode(code)] else []))
      && (!p.boxReady ==>
            r.status == h.status && r.posted == h.posted
            && r.log == p.log + [LogEntry("iframe not ready", Error)])
  {
    PollOutcome(h, batches, 0);
  }

  /** `runCode` is posted exactly when the frame is attached and the flag
      was up already or a `ready` arrives within the first `PollLimit`
      waits. */
  lemma RunCodeSentIffReady(env: Env, h: Snapshot, code: string, batches: seq<seq<Message>>)
    ensures var r := RunCodeWhenReady(env, h, code, batches);
      (r.posted != h.posted <==>
         env.attached && (h.boxReady || exists k :: 0 <= k < PollLimit && k < |batches| && Ready in batches[k]))
      && (r.posted == h.posted || r.posted == h.posted + [RunCode(code)])
  {
    PollOutcome(h, batches, 0);
    FailClosed(env, h, code, batches);
    var r := RunCodeWhenReady(env, h, code, batches);
    assert r.posted != h.posted ==> |r.posted| == |h.posted| + 1;
  }

  /** Boot, then the messages of the acquisition, then `runCodeWhenReady`:
      `code` is sent exactly when the frame is attached and `ready`
      arrives in time. */
  lemma BootedRun(env: Env, h: Snapshot, code: string, pending: seq<Message>, batches: seq<seq<Message>>)
    ensures var r := RunCodeWhenReady(env, ReceiveAll(BootSandbox(env, h), pending), code, batches);
      && r.posted == h.posted + (if env.attached && ReadyArrives(pending, batches) then [RunCode(code)] else [])
      && r.loads == h.loads + [env.sandboxSrc] && r.pressed == h.pressed
      && |r.log| > |h.log| && r.log[..|h.log| + 1] == h.log + [BootLine(env)]
  {
    var b := BootSandbox(env, h);
    var a := ReceiveAll(b, pending);
    BootResets(env, h, pending);
    ReceiveAllEffect(b, pending);
    RunCodeSentIffReady(env, a, code, batches);
    FailClosed(env, a, code, batches);
    PollOutcome(a, batches, 0);
    var p := Poll(a, batches, 0);
    var r := RunCodeWhenReady(env, a, code, batches);
    assert r.log[..|h.log| + 1] == a.log[..|b.log|];
  }

  /** `runLocal` without a file, or with a name not ending in `.js`,
      logs one warning and neither boots the sandbox nor sends code. */
  lemma LocalFileRejected(env: Env, h: Snapshot, file: Option<LocalFile>,
                          pending: seq<Message>, batches: seq<seq<Message>>)
    requires file.None? || !Text.EndsWith(file.value.name, ".js")
    ensures var r := RunLocal(env, h, file, pending, batches);
      r.(log := h.log) == h && |r.log| == |h.log| + 1 && r.log[..|h.log|] == h.log
      && r.log[|h.log|].level == Warn
  {
    if file.Some? {
      Text.EndsWithIff(file.value.name, ".js");
    }
  }

  /** `runLocal` with a `.js` file boots first and then sends the
      normalised text exactly when `ready` arrives in time; it ends with
      the `実行開始(ローカル)` line whether or not the code was sent. */
  lemma LocalFileRuns(env: Env, h: Snapshot, f: LocalFile, pending: seq<Message>, batches: seq<seq<Message>>)
    requires Text.EndsWith(f.name, ".js")
    ensures var r := RunLocal(env, h, Some(f), pending, batches);
      && r.posted == h.posted
           + (if env.attached && ReadyArrives(pending, batches) then [RunCode(Source.Normalize(f.text))] else [])
      && r.loads == h.loads + [env.sandboxSrc]
      && |r.log| > |h.log| + 1 && r.log[|h.log|] == BootLine(env)
      && r.log[|r.log| - 1] == LogEntry("実行開始(ローカル): " + f.name, Info)
  {
    Text.EndsWithIff(f.name, ".js");
    BootedRun(env, h, Source.Normalize(f.text), pending, batches);
    var a := ReceiveAll(BootSandbox(env, h), pending);
    var ran := RunCodeWhenReady(env, a, Source.Normalize(f.text), batches);
    assert ran.log[..|h.log| + 1][|h.log|] == BootLine(env);
  }

  /** `runFromURL` rejects an empty trimmed address with a warning and,
      on an `https:` page, an `http:` address with an error; either way
      before any boot or fetch. */
  lemma UrlRejected(env: Env, h: Snapshot, raw: string, fetched: FetchResult,
                    pending: seq<Message>, batches: seq<seq<Message>>)
    requires Text.AllSpace(raw)
      || (env.pageProtocol == "https:" && Text.StartsWith(Text.Trim(raw), "http:"))
    ensures var r := RunFromUrl(env, h, raw, fetched, pending, batches);
      r.(log := h.log) == h && |r.log| == |h.log| + 1 && r.log[..|h.log|] == h.log
      && r.log[|h.log|].level == (if Text.AllSpace(raw) then Warn else Error)
  {
    Text.StartsWithIff(Text.Trim(raw), "http:");
  }

  /** A failed fetch in `runFromURL` (a network error or a status outside
      200 to 299) is logged as an error after the boot, and no code is
      sent. */
  lemma UrlFetchFailed(env: Env, h: Snapshot, raw: string, fetched: FetchResult,
                       pending: seq<Message>, batches: seq<seq<Message>>)
    requires CheckUrl(env.pageProtocol, raw).Accept? && !IsOk(fetched)
    ensures var r := RunFromUrl(env, h, raw, fetched, pending, batches);
      && r.posted == h.posted && r.loads == h.loads + [env.sandboxSrc]
      && r.status == "booting" && r.pressed == h.pressed
      && r.log[|r.log| - 1].level == Error
      && (fetched.Response? ==>
            r.log[|r.log| - 1].msg == "HTTPエラー: " + Text.Decimal(fetched.status) + " " + fetched.statusText)
      && (fetched.NetworkFailure? ==>
            r.log[|r.log| - 1] == LogEntry("URL読み込み失敗: " + fetched.reason, Error))
  {
    var url := CheckUrl(env.pageProtocol, raw).value;
    ReceiveAllEffect(Say(BootSandbox(env, h), "fetch: " + url, Info), pending);
  }

  /** A successful fetch in `runFromURL` sends the normalised body exactly
      when `ready` arrives in time. */
  lemma UrlRuns(env: Env, h: Snapshot, raw: string, fetched: FetchResult,
                pending: seq<Message>, batches: seq<seq<Message>>)
    requires CheckUrl(env.pageProtocol, raw).Accept? && IsOk(fetched)
    ensures var r := RunFromUrl(env, h, raw, fetched, pending, batches);
      && r.posted == h.posted
           + (if env.attached && ReadyArrives(pending, batches) then [RunCode(Source.Normalize(fetched.body))] else [])
      && r.loads == h.loads + [env.sandboxSrc]
      && r.log[|r.log| - 1] == LogEntry("実行開始(URL): " + Text.Trim(raw), Info)
  {
    var url := CheckUrl(env.pageProtocol, raw).value;
    var b := Say(BootSandbox(env, h), "fetch: " + url, Info);
    ReceiveAllEffect(b, pending);
    var a := ReceiveAll(b, pending);
    assert a.boxReady <==> Ready in pending;
    RunCodeSentIffReady(env, a, Source.Normalize(fetched.body), batches);
    FailClosed(env, a, Source.Normalize(fetched.body), batches);
  }

  /** A failed fetch in `runSample` is logged as `sample fetch failed`
      with level error, and no code is sent. */
  lemma SampleFetchFailed(env: Env, h: Snapshot, fetched: FetchResult,
                          pending: seq<Message>, batches: seq<seq<Message>>)
    requires !IsOk(fetched)
    ensures var r := RunSample(env, h, fetched, pending, batches);
      && r.posted == h.posted && r.loads == h.loads + [env.sandboxSrc] && r.status == "booting"
      && r.log[|r.log| - 1].level == Error
      && (fetched.Response? ==> r.log[|r.log| - 1].msg == "sample fetch failed: HTTP " + Text.Decimal(fetched.status))
      && (fetched.NetworkFailure? ==> r.log[|r.log| - 1] == LogEntry("sample fetch failed: " + fetched.reason, Error))
  {
    ReceiveAllEffect(BootSandbox(env, h), pending);
  }

  /** A successful `runSample` sends the body as fetched, without
      normalisation, exactly when `ready` arrives in time. */
  lemma SampleRuns(env: Env, h: Snapshot, fetched: FetchResult, pending: seq<Message>, batches: seq<seq<Message>>)
    requires IsOk(fetched)
    ensures var r := RunSample(env, h, fetched, pending, batches);
      && r.posted == h.posted
           + (if env.attached && ReadyArrives(pending, batches) then [RunCode(fetched.body)] else [])
      && r.loads == h.loads + [env.sandboxSrc]
      && r.log[|r.log| - 1] == LogEntry("実行開始: sample-game.js", Info)
  {
    BootedRun(env, h, fetched.body, pending, batches);
  }

  /** Restart reboots and leaves the status at `idle`. */
  lemma RestartResets(env: Env, h: Snapshot)
    ensures var r := Restart(env, h);
      && !r.boxReady && r.status == "idle" && r.posted == h.posted && r.pressed == h.pressed
      && r.loads == h.loads + [env.sandboxSrc]
      && r.log == h.log + [BootLine(env), LogEntry("restart", Info)]
  {
  }

  /** A gesture on a bound element of an attached frame sends one `vkey`
      whose `down` is true exactly for the down family, and sets the
      element's pressed look to that value; otherwise nothing happens. */
  lemma PressEffect(env: Env, h: Snapshot, id: string, g: VirtualController.Gesture)
    requires Consistent(env, h)
    ensures var r := Press(env, h, id, g);
      && Consistent(env, r)
      && r.boxReady == h.boxReady && r.status == h.status && r.log == h.log && r.loads == h.loads
      && (VirtualController.Bound(env.present, id) && env.attached ==>
            r.posted == h.posted + [VKey(VirtualController.BoundKey(env.present, id), VirtualController.IsPress(g))]
            && (id in r.pressed <==> VirtualController.IsPress(g)))
      && (!VirtualController.Bound(env.present, id) || !env.attached ==> r == h)
  {
    if VirtualController.Bound(env.present, id) && env.attached {
      VirtualController.MirrorsAfterSend(env.present, h.pressed, h.posted, id, VirtualController.IsPress(g));
    }
  }

  /** Gestures `gs` on the element `id`, one after another. */
  function PressAll(env: Env, h: Snapshot, id: string, gs: seq<VirtualController.Gesture>): Snapshot {
    if gs == [] then h else Press(env, PressAll(env, h, id, gs[..|gs| - 1]), id, gs[|gs| - 1])
  }

  /** However many presses came before, the last gesture decides: a
      button ends up held exactly when its last gesture is of the down
      family, so a release, a cancel or a leave always frees it. */
  lemma {:induction false} LastGestureDecides(env: Env, h: Snapshot, id: string, gs: seq<VirtualController.Gesture>)
    requires Consistent(env, h) && VirtualController.Bound(env.present, id) && env.attached && gs != []
    ensures Consistent(env, PressAll(env, h, id, gs))
    ensures id in PressAll(env, h, id, gs).pressed <==> VirtualController.IsPress(gs[|gs| - 1])
    ensures VirtualController.LastVKeyDown(PressAll(env, h, id, gs).posted, VirtualController.BoundKey(env.present, id))
      <==> VirtualController.IsPress(gs[|gs| - 1])
  {
    var front := gs[..|gs| - 1];
    var before := if front == [] then h else PressAll(env, h, id, front);
    if front != [] {
      LastGestureDecides(env, h, id, front);
    }
    PressEffect(env, before, id, gs[|gs| - 1]);
  }

  /** A handler that changes neither the pressed looks nor the messages
      sent, except by one `runCode`, keeps the invariant. */
  lemma KeepsConsistent(env: Env, h: Snapshot, r: Snapshot)
    requires Consistent(env, h) && r.pressed == h.pressed
    requires r.posted == h.posted || exists c :: r.posted == h.posted + [RunCode(c)]
    ensures Consistent(env, r)
  {
    if r.posted != h.posted {
      var c :| r.posted == h.posted + [RunCode(c)];
      VirtualController.MirrorsAfterOther(env.present, h.pressed, h.posted, RunCode(c));
    }
  }

  /** A file named `game.txt` is refused with a warning before any boot. */
  lemma TxtFileScenario(env: Env, h: Snapshot, text: string)
    ensures RunLocal(env, h, Some(LocalFile("game.txt", text)), [], []) == Say(h, NotJsMessage, Warn)
  {
  }

  /** On an `https:` page, `http://example.com/g.js` is refused with the
      mixed-content error; nothing is booted or fetched. */
  lemma MixedContentScenario(env: Env, h: Snapshot, fetched: FetchResult)
    requires env.pageProtocol == "https:"
    ensures RunFromUrl(env, h, "http://example.com/g.js", fetched, [], []) == Say(h, MixedContentMessage, Error)
  {
    var url := "http://example.com/g.js";
    assert Text.TrimmedAt(url, 0, |url|) by {
      assert url[..0] == [] && url[|url|..] == [];
      assert url[0] == 'h' && url[|url| - 1] == 's';
    }
    Text.TrimUnique(url, url[0..|url|], Text.Trim(url));
    assert Text.Trim(url) == url;
    assert Text.StartsWith(url, "http:");
    assert !Text.AllSpace(url) by { assert url[0] == 'h'; }
    assert CheckUrl(env.pageProtocol, url) == Reject(LogEntry(MixedContentMessage, Error));
  }

  /** A 404 answer to `runFromURL` logs `HTTPエラー: 404 Not Found` as an
      error and sends nothing. */
  lemma NotFoundScenario(env: Env, h: Snapshot, raw: string)
    requires CheckUrl(env.pageProtocol, raw).Accept?
    ensures var r := RunFromUrl(env, h, raw, Response(404, "Not Found", ""), [], []);
      r.posted == h.posted && r.log[|r.log| - 1] == LogEntry("HTTPエラー: 404 Not Found", Error)
  {
    assert Text.Decimal(404) == "404";
  }

  /** The shipped build has `BASE_URL` equal to `/`, which has no scheme,
      so every boot as written throws. */
  lemma ShippedBaseBreaksBoot(env: Env, h: Snapshot)
    requires env.baseUrl == "/"
    ensures BootSandboxAsWritten(env, h).None?
  {
  }

  /** With a base that has no scheme, no run path and no restart ever
      loads the frame or sends anything: each changes at most the log, by
      one guard line. */
  lemma {:induction false} BrokenBootNeverRuns(env: Env, h: Snapshot, file: Option<LocalFile>, raw: string,
                                               fetched: FetchResult, pending: seq<Message>, batches: seq<seq<Message>>)
    requires !HasScheme(env.baseUrl)
    ensures var r := RunLocalAsWritten(env, h, file, pending, batches);
      r.posted == h.posted && r.loads == h.loads && r.boxReady == h.boxReady && r.status == h.status
    ensures var r := RunFromUrlAsWritten(env, h, raw, fetched, pending, batches);
      r.posted == h.posted && r.loads == h.loads && r.boxReady == h.boxReady && r.status == h.status
    ensures RunSampleAsWritten(env, h, fetched, pending, batches) == h
    ensures RestartAsWritten(env, h) == h
  {
  }

  /** With a base that has a scheme, the handlers as written are the
      handlers of this model, which boot as intended. */
  lemma WorkingBootAsIntended(env: Env, h: Snapshot, file: Option<LocalFile>, raw: string,
                              fetched: FetchResult, pending: seq<Message>, batches: seq<seq<Message>>)
    requires HasScheme(env.baseUrl)
    ensures BootSandboxAsWritten(env, h) == Some(BootSandbox(env, h))
    ensures RunLocalAsWritten(env, h, file, pending, batches) == RunLocal(env, h, file, pending, batches)
    ensures RunFromUrlAsWritten(env, h, raw, fetched, pending, batches) == RunFromUrl(env, h, raw, fetched, pending, batches)
    ensures RunSampleAsWritten(env, h, fetched, pending, batches) == RunSample(env, h, fetched, pending, batches)
    ensures RestartAsWritten(env, h) == Restart(env, h)
  {
  }
}
