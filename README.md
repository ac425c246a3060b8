# Host controller of the game player, in Dafny

This project models the host page script of the game player
(`apps/player/src/main.ts`). The script boots a sandboxed frame, waits for
the frame's `ready` handshake, and gets game source from a local file, a
URL or the bundled sample. It adds a missing default export to that source
and sends it to the frame as `runCode`. It also forwards the on-screen
virtual controller's buttons as `vkey` messages.

Where the script changes state, the model is imperative: class
`Player.Host` keeps the `boxReady` flag, the status label, the log box,
the messages posted to the frame, the frame's load history and the set of
buttons showing the `on` class. Each handler of the script is a method of
this class. Each method's `ensures` ties the new state to a pure
transition function of module `HostSpec` applied to the old state. The
lemmas of module `HostProps` prove what the script promises about those
functions. The pure parts of the script are functions:

- the default-export normalisation (`Source`);
- the acquisition guards (`Guards`);
- the button tables (`VirtualController`);
- whitespace, trimming and number formatting as JavaScript defines them
  (`Text`).

Each of these carries its own lemmas.

Things the script gets from its environment become inputs:

- **Messages from the frame.** They arrive while the script awaits, and
  each handler takes them as inputs. `pending` holds the messages that
  arrive while a file is read or a fetch is under way. `batches[i]` holds
  the messages that arrive during the `i`-th 50 ms wait of
  `runCodeWhenReady`.
- **Fetching.** A fetch is a `FetchResult`: a response with a status, a
  status text and a body, or a network failure with the rendered error.
- **The page.** Record `Env` holds the build's `BASE_URL`, the sandbox
  address a boot is meant to load, `location.protocol`, whether the frame
  has a `contentWindow`, and which button elements exist in the page.

The source and its documented intent disagree in five places. The model
follows the source in each one:

- The documented intent is that the three acquisition paths normalise the text
  identically. `runSample` sends the fetched text unchanged
  (`HostProps.SampleRuns`).
- The documented intent describes a 404 from a URL run as the error `HTTP 404`.
  The URL path logs `HTTPエラー: 404 <statusText>`. Only the sample path
  logs `sample fetch failed: HTTP 404`.
- The documented intent names the readiness-timeout outcome as a state of its own.
  The source leaves the status label as it was, which is `booting` right
  after a boot. It logs `iframe not ready`.
- After `runCodeWhenReady` returns, every run path logs its
  "実行開始…" line, even when the wait timed out and nothing was sent.
- The documented intent says the normalised text holds exactly one default export.
  The regular expression needs a space after `default`. So a text such
  as `export default{}` is not recognised, and a second default export
  is appended (`Source.UnspacedExportGetsSecondExport`).

## Model

| member | source | states |
|---|---|---|
| Text.Trim | apps/player/src/main.ts:58 | the result is the unique substring left after removing JavaScript whitespace at both ends; it is empty exactly when the input is all whitespace |
| Text.TrimUnique | apps/player/src/main.ts:58 | the trim of a string is determined uniquely, so `Trim` is `String.prototype.trim` |
| Text.StartsWithIff | apps/player/src/main.ts:60 | `startsWith(p)` holds exactly when the string is `p` followed by something |
| Text.EndsWithIff | apps/player/src/main.ts:47 | `endsWith(t)` holds exactly when the string is something followed by `t` |
| Text.DecimalRoundTrip | apps/player/src/main.ts:67 | the decimal rendering of an HTTP status reads back as the same number |
| Source.MatchesAtSound | apps/player/src/main.ts:50 | the greedy scan at one position finds a match of `export\s+default\s+` exactly when one starts there |
| Source.TestSound | apps/player/src/main.ts:50 | the executable `.test` agrees with the unanchored match predicate on every text |
| Source.Normalize | apps/player/src/main.ts:50-51 | a text with a match is returned unchanged, one without gets `\nexport default game;` appended, and the result always has a match |
| Source.NormalizeIdempotent | apps/player/src/main.ts:69-70 | normalising twice is normalising once |
| Source.UnspacedExportGetsSecondExport | apps/player/src/main.ts:50-51 | `export default{}` is not recognised and gets a second default export appended |
| Guards.CheckLocalFile | apps/player/src/main.ts:45-47 | a file is accepted exactly when one is selected and its name ends in `.js`; every rejection is a warning |
| Guards.CheckUrl | apps/player/src/main.ts:58-62 | a blank address is a warning, an `http:` address on an `https:` page is an error, and otherwise the trimmed address goes on |
| Guards.SecureUrlAccepted | apps/player/src/main.ts:60 | an address starting with `https:` never trips the mixed-content check |
| Guards.UpperCaseSchemeAccepted | apps/player/src/main.ts:60 | the check is case-sensitive: `HTTP://…` passes it |
| VirtualController.TablesInvertible | apps/player/src/main.ts:106-113 | MAP and KEY are total over the same ten names, and name, element id and key each determine the button |
| VirtualController.KeysDistinct | apps/player/src/main.ts:106-113 | two different buttons have different element ids and different keys |
| VirtualController.ButtonOfElement | apps/player/src/main.ts:106-109 | a recognised element id is the MAP entry of the button returned |
| VirtualController.ButtonOfKey | apps/player/src/main.ts:110-113 | a recognised key is the KEY entry of the button returned |
| VirtualController.ButtonNamed | apps/player/src/main.ts:106-113 | a recognised name is the name of the button returned |
| VirtualController.BoundKey | apps/player/src/main.ts:128 | a bound element sends the KEY entry of the button whose MAP entry it is |
| VirtualController.LastVKeyDownAppend | apps/player/src/main.ts:120 | posting a `vkey` for a key makes its `down` the key's latest state; other messages leave it |
| VirtualController.MirrorsAfterSend | apps/player/src/main.ts:118-122 | `send(down)` keeps every bound button's pressed look equal to the last `vkey` sent for its key |
| VirtualController.MirrorsAfterOther | apps/player/src/main.ts:39 | posting `runCode` does not disturb the pressed looks' agreement with the `vkey` messages |
| HostProps.ReceiveAllEffect | apps/player/src/main.ts:30-34 | the listener changes only the log and the flag; the flag is up afterwards exactly when it was up before or a `ready` came |
| HostProps.BootResets | apps/player/src/main.ts:21-27 | after a boot the flag is down, the status is `booting` and the frame is reloaded; afterwards only a `ready` raises the flag |
| HostProps.PollOutcome | apps/player/src/main.ts:37 | the loop ends with the flag up exactly when a `ready` arrived within the 40 waits (or it was up), changing nothing but log and flag |
| HostProps.PollIgnoresLateBatches | apps/player/src/main.ts:37 | the wait is bounded: nothing arriving after the 40th wait affects the result |
| HostProps.FailClosed | apps/player/src/main.ts:36-41 | `runCode` is sent and the status set to `running` only when the flag is up; otherwise `iframe not ready` is logged as an error, nothing is sent and the status is unchanged |
| HostProps.RunCodeSentIffReady | apps/player/src/main.ts:37-39 | `runCode` is posted exactly when the frame is attached and `ready` came in time |
| HostProps.BootedRun | apps/player/src/main.ts:48-52 | a run boots first, logs the boot line, and sends its code exactly when `ready` arrives during acquisition or the waits |
| HostProps.LocalFileRejected | apps/player/src/main.ts:44-47 | no file or a non-`.js` name logs one warning and changes nothing else: no boot, no `runCode` |
| HostProps.LocalFileRuns | apps/player/src/main.ts:48-53 | a `.js` file boots, sends its normalised text exactly when `ready` comes in time, and logs the start line either way |
| HostProps.UrlRejected | apps/player/src/main.ts:57-62 | a blank address (warning) or mixed content (error) logs one line before any boot or fetch |
| HostProps.UrlFetchFailed | apps/player/src/main.ts:63-75 | a non-ok status logs `HTTPエラー: <status> <text>` and a network failure `URL読み込み失敗: <reason>`, both as errors after the boot, and no `runCode` is sent |
| HostProps.UrlRuns | apps/player/src/main.ts:63-72 | an ok response sends the normalised body exactly when `ready` comes in time, and the `実行開始(URL)` line comes last |
| HostProps.SampleFetchFailed | apps/player/src/main.ts:79-90 | a failed sample fetch logs `sample fetch failed: HTTP <status>` or `sample fetch failed: <reason>` as an error and sends nothing |
| HostProps.SampleRuns | apps/player/src/main.ts:79-87 | an ok sample fetch sends the body unnormalised exactly when `ready` comes in time |
| HostProps.RestartResets | apps/player/src/main.ts:97 | restart reloads the frame, lowers the flag and leaves the status at `idle` |
| HostProps.PressEffect | apps/player/src/main.ts:115-126 | a gesture on a bound button of an attached frame sends one `vkey` (down exactly for the down family) and sets the pressed look to it; otherwise nothing happens |
| HostProps.LastGestureDecides | apps/player/src/main.ts:123-126 | after any sequence of gestures a button is held exactly when the last one was of the down family |
| HostProps.KeepsConsistent | apps/player/src/main.ts:39 | sending `runCode` or nothing keeps the button invariant |
| HostProps.TxtFileScenario | apps/player/src/main.ts:47 | `game.txt` is refused with the `.js` warning and nothing else happens |
| HostProps.MixedContentScenario | apps/player/src/main.ts:60-61 | `http://example.com/g.js` on an `https:` page is refused with the mixed-content error |
| HostProps.ShippedBaseBreaksBoot | apps/player/src/main.ts:22 | with `BASE_URL` equal to `/`, the boot's `new URL('sandbox/', BASE_URL)` throws |
| HostProps.BrokenBootNeverRuns | apps/player/src/main.ts:46-97 | with a base that has no scheme, no run path and no restart loads the frame, changes the flag or status, or sends anything |
| HostProps.WorkingBootAsIntended | apps/player/src/main.ts:21-27 | with a base that has a scheme, every handler as written equals the model's handler |
| HostProps.NotFoundScenario | apps/player/src/main.ts:67 | a 404 logs `HTTPエラー: 404 Not Found` as an error and sends nothing |
| Player.Host.constructor | apps/player/src/main.ts:128-131 | loading the script (flag initially down, buttons bound, one boot) leaves the initial state booted once, with no message sent and no button pressed |
| Player.Host.SetState | apps/player/src/main.ts:18 | only the status label changes |
| Player.Host.Log | apps/player/src/main.ts:10-17 | one entry is appended to the log |
| Player.Host.BootSandbox | apps/player/src/main.ts:21-27 | the new state is the boot transition of the old one |
| Player.Host.OnMessage | apps/player/src/main.ts:30-34 | the new state is the listener's transition for the message |
| Player.Host.Deliver | apps/player/src/main.ts:30-34 | each message of the batch is handled in order |
| Player.Host.RunCodeWhenReady | apps/player/src/main.ts:36-41 | the 40-step polling loop followed by dispatch yields the spec's result |
| Player.Host.RunLocal | apps/player/src/main.ts:44-54 | the new state is the `runLocal` transition |
| Player.Host.RunFromUrl | apps/player/src/main.ts:57-76 | the new state is the `runFromURL` transition |
| Player.Host.RunSample | apps/player/src/main.ts:79-91 | the new state is the `runSample` transition |
| Player.Host.Restart | apps/player/src/main.ts:97 | the new state is the restart transition |
| Player.Host.Press | apps/player/src/main.ts:115-126 | the new state is the gesture's transition, and the button invariant is kept |

## Findings

| source | as written | input that shows it | evidently intended | confidence | as-written member | corrected member |
|---|---|---|---|---|---|---|
| apps/player/src/main.ts:22 | `bootSandbox` resolves `'sandbox/'` against `BASE_URL`. The shipped base is `/` (apps/player/vite.config.ts:6), which is not an absolute URL, so `new URL` throws a TypeError before the frame is loaded. The throw escapes every run path (lines 48, 63, 80, 97). At line 131 it stops the script before the error handlers of lines 134-139 are installed | `BASE_URL = "/"` | resolve against the page, so every boot loads the sandbox, lowers the flag and sets `booting` | high; not executed | HostProps.BrokenBootNeverRuns | HostProps.BootResets |

The as-written handlers are `HostSpec.RunLocalAsWritten`, `RunFromUrlAsWritten`, `RunSampleAsWritten` and `RestartAsWritten`. `HostProps.ShippedBaseBreaksBoot` shows that the shipped base makes the boot throw. The rest of the model, `Player.Host` included, boots as intended. `HostProps.WorkingBootAsIntended` shows that with a base that has a scheme, the handlers as written are exactly the model's handlers.

## Left out

- The DOM: element lookups, `scrollTop`, `classList` beyond the `on` class, and the file-name display (apps/player/src/main.ts:100-103). These are page glue; the model keeps only the abstract state.
- The log line format and its `toLocaleTimeString` time stamp, and console output. A log entry is just a message and a level.
- Real `fetch` (with its `cache` and `mode` options), `File.text()`, `setTimeout` and iframe navigation. These are I/O and scheduling; replaced by the inputs described above.
- Failures of `f.text()` or `res.text()` after a response. The first would surface only through the global rejection handler.
- Resolving `sandbox/` and `samples/sample-game.js` against `BASE_URL`. The model checks only that the base has a scheme (see Findings); any other URL parse failure is not modelled, and with a valid base the sandbox address is an input. The sample's address is not needed, because its fetch result is an input.
- Interleaving a second run, a restart or a button gesture with a run that is awaiting. This is concurrency; the model delivers only frame messages at await points.
- A `log` message whose level is not `info`, `warn` or `error`, or whose `msg` is missing. The wire shape allows only these levels.
- DOM-event details of the listeners (`preventDefault`, `passive: false`): no effect on the state modelled.
- The global `window.onerror` and `onunhandledrejection` handlers (apps/player/src/main.ts:134-139). They are logging glue.
- JavaScript strings are UTF-16. The model's characters are Unicode scalar values, so lone surrogates are not modelled.
- The sandbox runtime, the SDK type declarations, both sample games and the build configuration. None is part of this model.
