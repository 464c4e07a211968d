# Retell voice agent: the call core in Dafny

The application is a small browser front end for calling a hosted voice agent.
Its deterministic core is modelled here:

- **Agent id from the URL path** (`AgentId`). The path is split on `/` and empty
  segments are dropped. The agent id is the segment after the first `agent_id`.
  Failing that, it is the first segment starting with `agent_`. Failing that, it
  is the fixed default agent.
- **The call hook** (`UseRetellCall`). It holds the call-state record: a
  five-valued status, duration, mute flag, volume and optional error. Beside it
  sit the 50-sample audio window and the duration timer. Each `setCallState`
  updater is a pure function. The hook itself is the class `RetellCall`, with
  one method per user command (`StartCall`, `StopCall`, `ToggleMute`,
  `SetVolume`) and per client event (`ConversationStarted`, `ConversationEnded`,
  `ErrorEvent`, and the timer ticks). Its invariant `Valid()` says:
  - the window never exceeds 50 samples;
  - an error status always carries a message;
  - the idle and connecting statuses carry none;
  - while idle, no call has been up.
- **The call-controls panel** (`CallControls`). It covers the `MM:SS` duration
  readout, the heading, and which buttons and controls each status shows.
- **The status pill** (`StatusIndicator`). It gives the icon, colour and text
  for each status.
- `JsString` states the JavaScript primitives these rely on: `split`, `join`,
  `startsWith`, `padStart`, `Number#toString` and `%`. `RetellTypes` holds the
  shared records.

Inputs stand in for everything outside the core:
- The session-token request is the `created` argument of `StartCall`.
- What the third-party call client throws is the `sdkStart` argument of
  `StartCall` and the `sdkStop` argument of `StopCall`.
- The clock is the `now` argument of the timer methods.
- The random sample values are the `sample` argument of `AudioTick`.

## Model

| member | source | states |
|---|---|---|
| `JsString.Split` | src/hooks/useRetellCall.ts:8 | `path.split('/')` yields at least one piece and no piece contains the separator |
| `JsString.JoinSplit` | src/hooks/useRetellCall.ts:8 | joining the pieces of a split with the separator gives back the original string, so the split loses nothing |
| `JsString.SplitJoin` | src/hooks/useRetellCall.ts:8 | splitting a join of separator-free pieces gives back exactly those pieces, in order |
| `JsString.SplitAroundSeparator` | src/hooks/useRetellCall.ts:8 | splitting `p + sep + q` gives the pieces of `p` followed by the pieces of `q` |
| `JsString.PadStart` | src/components/CallControls.tsx:31 | `padStart(2, '0')` gives length max(len, 2), keeps the original as a suffix, fills only with `0`, and never truncates |
| `JsString.NatToString` | src/components/CallControls.tsx:31 | `toString()` of a non-negative integer is a non-empty digit string with no leading zero; it has one digit exactly below 10 and at most two below 100 |
| `JsString.IntToString` | src/components/CallControls.tsx:31 | a negative number prints as `-` followed by exactly the `toString()` of its magnitude, with no leading zero; a non-negative one prints as its own digits |
| `JsString.DecimalValueOfNatToString` | src/components/CallControls.tsx:31 | reading back the digits of `toString()` gives the number |
| `JsString.LeadingZerosIgnored` | src/components/CallControls.tsx:31 | zeros added by `padStart` do not change the value the digits denote |
| `JsString.Remainder` | src/components/CallControls.tsx:30 | `%` gives a remainder of magnitude below the divisor, with the sign of the dividend, and the dividend minus it is a multiple of the divisor |
| `AgentId.NonEmptyOnly` | src/hooks/useRetellCall.ts:8 | a value is kept exactly when it is a non-empty piece, and nothing kept is empty |
| `AgentId.NonEmptyOnlyAppend` | src/hooks/useRetellCall.ts:8 | the filter distributes over concatenation, so it keeps the order and the repeats of the non-empty pieces |
| `AgentId.NonEmptyOnlyKeepsNonEmpty` | src/hooks/useRetellCall.ts:8 | filtering a list with no empty entry changes nothing |
| `AgentId.Segments` | src/hooks/useRetellCall.ts:7-8 | every path segment is non-empty and contains no `/` |
| `AgentId.SegmentsOfPathOf` | src/hooks/useRetellCall.ts:7-8 | the path `/s1/s2/...` built from non-empty, slash-free segments has exactly those segments, in order |
| `AgentId.SegmentsOfJoinedPaths` | src/hooks/useRetellCall.ts:7-8 | the segments of `p/q` are the segments of `p` followed by those of `q` |
| `AgentId.TrailingSlashIgnored` | src/hooks/useRetellCall.ts:7-8 | a trailing slash adds no segment |
| `AgentId.DoubledSlashIgnored` | src/hooks/useRetellCall.ts:7-8 | a doubled slash gives the same segments as a single one |
| `AgentId.AgentIdIgnoresTrailingSlash` | src/hooks/useRetellCall.ts:6-24 | a trailing slash does not change the agent id |
| `AgentId.FindIndex` | src/hooks/useRetellCall.ts:11 | `findIndex` is -1 exactly when `agent_id` is absent; otherwise it is the first position holding `agent_id` |
| `AgentId.FindWithPrefix` | src/hooks/useRetellCall.ts:17 | `find` with `startsWith` (`JsString.StartsWith`) gives nothing exactly when no segment starts with `agent_`; otherwise it gives the first segment that does |
| `AgentId.AgentIdFromPath` | src/hooks/useRetellCall.ts:6-24 | the agent id is never empty and is either a segment of the path or the default id |
| `AgentId.AgentIdFromSegments` | src/hooks/useRetellCall.ts:11-23 | given non-empty segments, the chosen id is never empty and is one of the segments or the default id |
| `AgentId.AgentIdFollowsMarker` | src/hooks/useRetellCall.ts:11-13 | if the first `agent_id` among the segments has a successor, that successor is the agent id |
| `AgentId.AgentIdFallsBackToPrefixed` | src/hooks/useRetellCall.ts:16-19 | if no segment before the last is `agent_id`, the first segment starting with `agent_` is the agent id |
| `AgentId.AgentIdDefault` | src/hooks/useRetellCall.ts:22-23 | if no segment starts with `agent_`, the id is `agent_a144835b4e555700c5bd3148fe` |
| `AgentId.MarkerAloneIsItsOwnAgent` | src/hooks/useRetellCall.ts:11-19 | the path `/agent_id` names the agent `agent_id`: the marker has no successor, and it starts with `agent_` itself |
| `AgentId.EarlierPrefixedSegmentWins` | src/hooks/useRetellCall.ts:11-19 | in `/x/agent_id`, with any slash-free `x` starting with `agent_`, the trailing marker has no successor, so `x` is the id |
| `UseRetellCall.OnConversationStarted` | src/hooks/useRetellCall.ts:56 | `conversationStarted` sets the status to connected and changes nothing else |
| `UseRetellCall.OnDurationTick` | src/hooks/useRetellCall.ts:62 | a timer tick sets the duration to the elapsed seconds and changes nothing else |
| `UseRetellCall.OnDisconnected` | src/hooks/useRetellCall.ts:68 | `conversationEnded` and `stopCall` set the status to disconnected; the error and the duration are kept |
| `UseRetellCall.OnErrorEvent` | src/hooks/useRetellCall.ts:78-82 | an `error` event sets the status to error with a non-empty message: the event's own, or `An error occurred`; duration, mute and volume are kept |
| `UseRetellCall.OnConnecting` | src/hooks/useRetellCall.ts:159 | `startCall` first sets the status to connecting and clears the error, nothing else |
| `UseRetellCall.FailureMessage` | src/hooks/useRetellCall.ts:174 | a thrown `Error` contributes its message; any other thrown value contributes `Failed to start call` |
| `UseRetellCall.OnStartFailure` | src/hooks/useRetellCall.ts:171-175 | a failed start sets the status to error with the failure's message and changes nothing else |
| `UseRetellCall.OnToggleMute` | src/hooks/useRetellCall.ts:202 | `toggleMute` flips the mute flag and changes nothing else |
| `UseRetellCall.OnSetVolume` | src/hooks/useRetellCall.ts:206 | `setVolume` replaces the volume and changes nothing else |
| `UseRetellCall.ToggleMuteTwice` | src/hooks/useRetellCall.ts:202 | toggling mute twice restores the state |
| `UseRetellCall.SetVolumeLastWins` | src/hooks/useRetellCall.ts:206 | of two volume changes, only the last one counts |
| `UseRetellCall.KeepLast` | src/hooks/useRetellCall.ts:95 | `slice(-50)` keeps the last min(len, 50) elements, in order |
| `UseRetellCall.AppendSample` | src/hooks/useRetellCall.ts:92-95 | after appending, the window has at most 50 entries and the new sample is last; the rest is an order-preserving suffix of the old window |
| `UseRetellCall.AppendSamplesKeepsNewest` | src/hooks/useRetellCall.ts:90-98 | after any run of ticks, the window holds exactly the newest 50 samples, in order |
| `UseRetellCall.ElapsedSeconds` | src/hooks/useRetellCall.ts:61 | the duration is floor((now - start) / 1000): the largest whole number of seconds not beyond the elapsed milliseconds |
| `UseRetellCall.ElapsedSecondsMonotone` | src/hooks/useRetellCall.ts:61 | the duration never decreases as the clock advances |
| `UseRetellCall.RetellCall.constructor` | src/hooks/useRetellCall.ts:27-38 | the initial state is idle, 0 s, unmuted, volume 0.8, with no error, no samples, no agent id, no client and no timer |
| `UseRetellCall.RetellCall.LoadAgentId` | src/hooks/useRetellCall.ts:41-45 | the mount effect stores the path's agent id, which is never empty |
| `UseRetellCall.RetellCall.AttachClient` | src/hooks/useRetellCall.ts:48-52 | creating the client changes only the client flag |
| `UseRetellCall.RetellCall.ConversationStarted` | src/hooks/useRetellCall.ts:54-64 | the call becomes connected, the start time is recorded and the duration timer runs |
| `UseRetellCall.RetellCall.DurationTick` | src/hooks/useRetellCall.ts:60-63 | while the timer runs, a tick records the elapsed seconds since the start; with no timer nothing changes |
| `UseRetellCall.RetellCall.ConversationEnded` | src/hooks/useRetellCall.ts:66-74 | the call becomes disconnected, the window is emptied and the timer stops |
| `UseRetellCall.RetellCall.ErrorEvent` | src/hooks/useRetellCall.ts:76-83 | an `error` event applies the error updater; the window and the timer are untouched |
| `UseRetellCall.RetellCall.AudioTick` | src/hooks/useRetellCall.ts:90-98 | a sample is appended only while connected; otherwise the window is unchanged |
| `UseRetellCall.RetellCall.StartCall` | src/hooks/useRetellCall.ts:155-177 | nothing happens without a client or an agent id; otherwise the state is connecting with no error, or error with the failure's message if either step failed |
| `UseRetellCall.RetellCall.StopCall` | src/hooks/useRetellCall.ts:179-198 | with a client, the call always ends disconnected with an empty window; the error and duration are kept; the timer stops only if the client's stop succeeded |
| `UseRetellCall.RetellCall.ToggleMute` | src/hooks/useRetellCall.ts:200-203 | applies the mute toggle and nothing else |
| `UseRetellCall.RetellCall.SetVolume` | src/hooks/useRetellCall.ts:205-207 | applies the new volume and nothing else |
| `CallControls.MinutesAndSeconds` | src/components/CallControls.tsx:29-30 | for non-negative seconds: 0 <= secs < 60 and mins * 60 + secs = seconds |
| `CallControls.FormatDuration` | src/components/CallControls.tsx:28-32 | for non-negative seconds the readout is at least five characters: digits, a colon, then exactly two digits |
| `CallControls.TwoDigits` | src/components/CallControls.tsx:31 | for a non-negative number the padded field is a digit string of at least two characters, and exactly two below 100 |
| `CallControls.TwoDigitsValue` | src/components/CallControls.tsx:31 | the padded field reads back as the number it was made from |
| `CallControls.Readout` | src/components/CallControls.tsx:31 | with digit fields of at least two and exactly two characters, the readout has its colon before the last two characters and digits on each side |
| `CallControls.FormatDurationShape` | src/components/CallControls.tsx:31 | below 6000 seconds the readout is exactly `DD:DD` |
| `CallControls.FormatDurationKeepsAllMinuteDigits` | src/components/CallControls.tsx:31 | the minutes field is never truncated: the readout's length is max(2, digits of minutes) + 3 |
| `CallControls.FormatDurationRoundTrip` | src/components/CallControls.tsx:28-32 | parsing the minutes and seconds fields back out of the readout yields the original seconds |
| `CallControls.FormatDurationInjective` | src/components/CallControls.tsx:28-32 | different non-negative durations never show the same readout |
| `CallControls.DurationReadout` | src/components/CallControls.tsx:46-50 | the readout is shown exactly while connected, and it is the formatted duration |
| `CallControls.HeadingByStatus` | src/components/CallControls.tsx:39-43 | `Heading`, the five conditional texts rendered in a row, shows exactly one text for each status |
| `CallControls.HeadingDistinct` | src/components/CallControls.tsx:39-43 | the heading tells every status apart |
| `CallControls.ErrorLineAfterFailures` | src/components/CallControls.tsx:52-56 | under `ShowsErrorText`, the truthiness test on `callState.error` (line 52), an `error` event always leaves an error line to show; a failed start leaves one exactly when its message is non-empty |
| `CallControls.ExactlyOnePrimaryButton` | src/components/CallControls.tsx:62-110 | the conditions `ShowsStartButton`, `ShowsCancelButton` and `ShowsEndButton`, gathered by `VisibleButtons`, let exactly one button show for each status: start for idle, disconnected and error; cancel for connecting; end for connected; its `onClick` (`ButtonCommand`, lines 64, 80 and 100) stops the call exactly in the last two |
| `CallControls.CallControlsOnlyWhileConnected` | src/components/CallControls.tsx:114 | the mute and volume controls (`ShowsSecondaryControls`) show exactly when the end button does, and the duration readout exactly when they do; all three only while connected |
| `StatusIndicator.StatusTextDistinct` | src/components/StatusIndicator.tsx:40-52 | `StatusText` is total and differs between any two statuses; idle falls to the default `Ready to Connect` |
| `StatusIndicator.StatusColorClasses` | src/components/StatusIndicator.tsx:25-37 | under `StatusColor`, connected, connecting and error have distinct colours; disconnected and idle share `text-gray-500`, and only they share a colour |
| `StatusIndicator.StatusIconsByStatus` | src/components/StatusIndicator.tsx:10-22 | under `StatusIcon`, error, connected and disconnected each have their own icon; idle and connecting share Wifi, and only connecting pulses |

## Left out

- `createWebCall` (the `fetch` to the remote API, the API-key lookup and JSON
  parsing) is I/O. Only its outcome enters the model, as the `created`
  argument of `StartCall`: a response, or the message of the `Error` it throws.
- The third-party call client is not part of this model. Its events become
  method calls on `RetellCall`. What its `startCall`/`stopCall` throw becomes an
  argument.
- Timers and the React lifecycle are left out. This covers `setInterval` and
  `clearInterval`, `Date.now()`, and `useEffect`. A running duration timer is a
  flag, and each tick is a method call with the current time.
- The effect keyed on the status is not modelled. It re-creates the client and
  its listeners on every status change. Its cleanup clears the duration interval
  without resetting the reference. Read as written, this detaches the live
  call: `startCall` sets connecting, so the call starts on the client created
  after that change, and `conversationStarted` sets connected, which strips
  that client's listeners and replaces it once more. The call's later
  `conversationEnded` and `error` events are then not heard, and `stopCall`
  stops a client that never started. The model takes events as free inputs,
  so it admits more event sequences than the app delivers.
- `UseRetellCall.RetellCall.ConversationStarted`: models only the event handler,
  which starts the timer. In the running app, the status change it causes
  re-runs the status-keyed effect. That effect's cleanup clears the interval the
  handler has just created, so the displayed duration would stay where it was.
  The model keeps the timer running.
- `UseRetellCall.RetellCall.DurationTick`: models one tick of a live interval.
  Because of the cleanup above, the source does not deliver ticks once the
  status has changed.
- `UseRetellCall.RetellCall.StopCall`: models only the handler. On its failure
  path the handler alone leaves the duration interval running, and the model
  keeps the timer flag set. In the running app, the status change to
  disconnected re-runs the status-keyed cleanup, which clears that interval.
  A single flag also cannot represent two intervals. That would need the
  handler at line 60 to run twice with no status change in between, which the
  model does not distinguish.
- Concurrency is not modelled: `startCall` and `stopCall` are asynchronous in
  the source. Each command is one atomic step here, so events that arrive while
  a command awaits are not interleaved into it.
- `Math.random()` sample values are a parameter. Only the window's length and
  order discipline is modelled.
- `UseRetellCall.RetellCall.StartCall`: the access token is not forwarded
  anywhere, because the client that consumes it is outside the model.
- `JsString.NatToString`, `JsString.IntToString`,
  `JsString.DecimalValueOfNatToString`: numbers are unbounded integers.
  JavaScript numbers are doubles: above 2^53 `toString()` prints the shortest
  digits that round-trip, and from 1e21 it switches to exponential notation,
  so these contracts, and the `CallControls.FormatDurationRoundTrip` built on
  them, hold only below those bounds. The hook's durations stay far below both.
- `CallControls.FormatDuration`: its properties are stated for non-negative
  integer seconds only. The hook only ever stores whole seconds, and they are
  negative only if the clock runs backwards. Fractional seconds are not modelled.
- Volume is a `real`. The slider's 0..1 range and 0.1 step are not enforced,
  because `setVolume` does not enforce them either.
- The audio visualiser's bar heights and opacities, the page layout, and
  console logging are left out. So are CSS classes other than the pill's colour
  and icon tint, and the mute button's icon swap.
