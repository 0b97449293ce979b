# ReStream-Nexus relay core in Dafny

ReStream-Nexus is a self-hosted restreaming box. OBS publishes to a local
RTMP ingest under a secret stream key. The server relays that feed, or a
looping fallback video when OBS is away, into one FFmpeg "source" producer.
One FFmpeg "master" process copies the canvas to a local preview stream and
to every enabled target (Twitch, YouTube, ...). A dashboard talks to the
server over HTTP (guarded by the stream key) and over a WebSocket that
pushes `STATE` messages and accepts `START_BROADCAST`, `STOP_BROADCAST` and
`RECONNECT_BROADCAST`. A first-run wizard under `/api/setup` stores a bcrypt
password hash and generates the stream key. Everything persistent lives in a
SQLite file with a `targets` table and a `settings` key/value table.

This project models that core and proves properties about it:

| file | module | models |
|---|---|---|
| `text.dfy` | `Text` | the JavaScript string and number primitives the core relies on: `trim`, `split`/`join`, `String(n)`, `parseInt`, `Number()`, `Buffer.toString('hex')` |
| `db.dfy` | `Db` | `backend/lib/db.ts`: the `targets` table kept in rowid order with AUTOINCREMENT ids, the `settings` table, the setup helpers |
| `probe.dfy` | `Probe` | `backend/stream/probe.ts`: collecting ffprobe's stdout and turning the parsed JSON into a probe result or null |
| `source.dfy` | `Source` | `backend/stream/source.ts`: the FFmpeg argument lists and the producer / base-input process handles |
| `master.dfy` | `Master` | `backend/stream/master.ts`: the fan-out argument list and the master process supervisor with its 2 s auto-restart |
| `manager.dfy` | `Manager` | `backend/stream/manager.ts`: the broadcast orchestrator, the fallback profile of an OBS disconnect, the timers it schedules |
| `handler.dfy` | `Ws` | `backend/ws/handler.ts`: the Cookie parser, the upgrade gate, the STATE pushes and the dashboard commands |
| `setup.dfy` | `Setup` | `backend/api/setup.ts`: the wizard endpoints |
| `server.dfy` | `Server` | `server.ts`: the `/api` key check, the routing with the warm-up page, the stream map, the RTMP publish/unpublish callbacks |

Processes are modelled as pids. Each supervisor keeps an ordered effect
log of spawns (with their full argument lists), signals and emitted
events. Process exits, probe results and `setTimeout` callbacks are
explicit methods that a caller fires in any order. The file system, the
clock, `randomBytes`, bcrypt and `JSON.parse` are parameters.

## Model

| member | source | states |
|---|---|---|
| Text.Split | backend/ws/handler.ts:11-12 | `split(c)` always yields at least one piece and no piece contains the separator |
| Text.JoinSplit | backend/ws/handler.ts:12-13 | joining the pieces of a split with the same separator gives the original string back |
| Text.SplitJoin | backend/ws/handler.ts:11 | splitting a join of separator-free pieces gives exactly those pieces |
| Text.SplitPieces | backend/stream/source.ts:29 | `split(c)` gives more than one piece exactly when `c` occurs, and the string itself when it does not |
| Text.SplitHeadTail | backend/ws/handler.ts:12-13 | `const [k, ...v] = s.split(c)` with `v.join(c)` is the text before the first `c` and everything after it |
| Text.TrimPadded | backend/ws/handler.ts:12 | `trim` drops leading whitespace and keeps a string that has no outer whitespace |
| Text.IntToString | backend/lib/db.ts:145 | `String(n)` is non-empty, has no outer whitespace and contains no 'x', ';' or '/' |
| Text.ParseIntOfIntToString | backend/lib/db.ts:140-146 | `parseInt` (with or without radix 10) reads back exactly the integer `String` wrote |
| Text.ToNumber | backend/stream/source.ts:29 | `Number()` of blank text is 0; it is NaN exactly when the trimmed text is not an optionally signed digit string |
| Text.ToNumberOfIntToString | backend/stream/source.ts:29 | `Number()` reads back exactly the integer `String` wrote |
| Text.ToNumberOfWord | backend/stream/manager.ts:125 | a word that starts with neither a sign nor a digit is NaN to `Number()` |
| Text.Hex | backend/api/setup.ts:44 | the hex text of n bytes has 2n characters, all lower-case hex digits |
| Text.UnhexHex | backend/api/setup.ts:44 | the hex encoding loses nothing: decoding it gives the bytes back |
| Text.HexInjective | backend/api/setup.ts:44 | different byte strings have different hex texts |
| Db.EnabledOf | backend/lib/db.ts:48-55 | the `WHERE enabled = 1` query returns exactly the enabled rows, in table order, keeping ids ascending |
| Db.CountWithId | backend/lib/db.ts:70-90 | the rows matched by `WHERE id = ?`; zero exactly when no row has the id |
| Db.AtMostOneRow | backend/lib/db.ts:19 | with ids ascending (primary key), at most one row matches an id |
| Db.WithoutId | backend/lib/db.ts:83-90 | `DELETE ... WHERE id = ?` keeps exactly the rows with another id, and removes as many rows as matched |
| Db.WithoutIdAscending | backend/lib/db.ts:83-90 | deleting rows keeps the remaining rows in rowid order |
| Db.Store.constructor | backend/lib/db.ts:16-36 | both tables start empty and the id sequence is at 0 |
| Db.Store.GetTargets | backend/lib/db.ts:39-46 | `SELECT * FROM targets` gives the rows in rowid order, each id one AUTOINCREMENT handed out |
| Db.Store.GetEnabledTargets | backend/lib/db.ts:48-55 | exactly the enabled rows, still in rowid order |
| Db.Store.AddTarget | backend/lib/db.ts:57-66 | the new enabled row gets the next never-issued id, is appended, and is returned; settings unchanged |
| Db.Store.UpdateTargetStatus | backend/lib/db.ts:70-80 | only the row with the id gets the new flag; the change count is 1 if it exists and 0 otherwise |
| Db.Store.RemoveTarget | backend/lib/db.ts:83-90 | exactly the row with the id goes; the change count is 1 or 0; ids stay ascending and issued |
| Db.Store.GetSetting | backend/lib/db.ts:93-100 | the stored value of the key, or null exactly when no row holds the key |
| Db.Store.SetSetting | backend/lib/db.ts:102-113 | INSERT OR REPLACE: the key now reads as the value and every other key reads as before |
| Db.Store.IsSetupComplete | backend/lib/db.ts:116-118 | setup is complete exactly when `setup_finished` is stored as "1" |
| Db.Store.SetSetupFinished | backend/lib/db.ts:120-122 | setup reads as complete afterwards; step, password hash and key are untouched |
| Db.Store.GetPasswordHash | backend/lib/db.ts:124-126 | the stored `password_hash`, or null exactly when there is none |
| Db.Store.SetPasswordHash | backend/lib/db.ts:128-130 | the hash reads back; completion, step and key are untouched |
| Db.Store.GetStreamKeyDb | backend/lib/db.ts:136-138 | the stored `stream_key`, or null exactly when there is none |
| Db.Store.SetStreamKeyDb | backend/lib/db.ts:132-138 | the key reads back; completion, step and hash are untouched |
| Db.Store.GetSetupStep | backend/lib/db.ts:140-142 | an unset or empty `setup_step` reads as step 1 |
| Db.Store.SetSetupStep | backend/lib/db.ts:140-146 | `getSetupStep` reads back exactly the step stored with `String(step)` |
| Probe.FirstIndex | backend/stream/probe.ts:49-50 | `find` as a position: no earlier element satisfies the test, and the found one does |
| Probe.FirstIndexIs | backend/stream/probe.ts:49-50 | a satisfying position with no satisfying predecessor is the one `find` returns |
| Probe.FirstIndexNone | backend/stream/probe.ts:49-52 | when nothing satisfies the test, `find` finds nothing |
| Probe.RoundRatio | backend/stream/probe.ts:57 | `Math.round(num / den)` lies within half a unit of the quotient, halves rounding up |
| Probe.RoundRatioUnique | backend/stream/probe.ts:57 | that rounding is the only integer within half a unit of the quotient |
| Probe.FrameRate | backend/stream/probe.ts:54-58 | a missing or empty `r_frame_rate` gives 30; NaN only comes from a present rate holding a '/' |
| Probe.FrameRateOfFraction | backend/stream/probe.ts:54-58 | an "n/d" rate with d > 0 gives round(n/d); a missing or empty rate gives 30 |
| Probe.Interpret | backend/stream/probe.ts:36-69 | null exactly on a non-zero exit, unparsable output, no `streams`, or no stream with a width; a result never has a zero width, height or channel count |
| Probe.VideoIsFirstWithWidth | backend/stream/probe.ts:49-63 | the video dimensions come from the first stream with a width, whatever follows it |
| Probe.NoAudioDefaults | backend/stream/probe.ts:64-65 | without a stream carrying a sample rate the result has 48000 Hz and 2 channels |
| Probe.AudioIsFirstWithSampleRate | backend/stream/probe.ts:50-64 | the sample rate is `parseInt` of the first stream carrying one |
| Probe.ConcatAppend | backend/stream/probe.ts:33-34 | gluing chunks distributes over any split of the chunk stream: nothing is lost or reordered |
| Probe.CollectOutput | backend/stream/probe.ts:33-34 | the collected output is all chunks in arrival order |
| Probe.ProbeStream | backend/stream/probe.ts:21-72 | the result is the interpretation of the parsed collected output; a failed exit always gives null |
| Source.ResolutionRoundTrip | backend/stream/source.ts:29 | a "WxH" resolution splits and converts back to W and H |
| Source.QuarterString | backend/stream/source.ts:65 | the `bitrate / 4` text is the integer quotient when the bitrate is a multiple of 4 |
| Source.ParseResolution | backend/stream/source.ts:29 | the width is always read; a height exists exactly when the text holds an 'x'; without one the whole text is the width |
| Source.SourceArgs | backend/stream/source.ts:28-73 | every producer command line ends by writing FLV without duration/filesize to stdout |
| Source.ObsModeArgs | backend/stream/source.ts:33-48 | OBS mode reads `rtmp://localhost:1935/live/<key>`, copies the codecs and never loops a file |
| Source.FallbackArgsOfResolution | backend/stream/source.ts:49-57 | a "WxH" resolution puts W and H as numbers into the scale/pad filter chain |
| Source.EncodeArgsOptions | backend/stream/source.ts:50-72 | fallback mode loops the file forever in real time, applies the filter, encodes x264 at the rate, capped at that rate, with the given buffer |
| Source.FallbackModeArgs | backend/stream/source.ts:49-73 | fallback mode with "WxH" scales and pads to W x H at the fps, caps video at the bitrate, and uses a quarter of it as the buffer |
| Source.SourceController.constructor | backend/stream/source.ts:10-11 | no producer and no base input at start |
| Source.SourceController.Kill | backend/stream/source.ts:92-98 | a held producer is SIGKILLed and forgotten; without one nothing happens |
| Source.SourceController.Stdout | backend/stream/source.ts:88-90 | there is a stdout exactly when a producer is held, and it never belongs to a killed one |
| Source.SourceController.Start | backend/stream/source.ts:17-86 | the running producer is killed first, then exactly one producer is spawned with the mode's arguments; no process is leaked |
| Source.SourceController.StartWithArg | backend/stream/source.ts:17-29 | a settings value without a `resolution` string kills the running producer and throws, spawning nothing; a settings object spawns as Start does |
| Source.SourceController.StartBaseInput | backend/stream/source.ts:100-110 | the black/silent generator is spawned only when none is held |
| Source.SourceController.KillBaseInput | backend/stream/source.ts:112-117 | a held generator is SIGKILLed and forgotten; without one nothing happens |
| Master.PublishUrl | backend/stream/master.ts:47-48 | url and stream key joined with exactly one '/', added only when the url lacks a trailing one |
| Master.PublishUrlSlashInsensitive | backend/stream/master.ts:47-48 | a trailing '/' on the target url does not change where the stream goes |
| Master.TargetLeg | backend/stream/master.ts:49-61 | each target adds a fixed-size block of output options ending with its publish url |
| Master.Legs | backend/stream/master.ts:46-62 | one block per target |
| Master.LegAt | backend/stream/master.ts:46-62 | block k of the outputs is exactly the block of target k |
| Master.MasterArgsOutputs | backend/stream/master.ts:25-62 | the command line reads the canvas, writes the preview first, then one output per given target in order, unfiltered |
| Master.BuildArgs | backend/stream/master.ts:25-62 | the array grown by `push` in the loop is that command line |
| Master.MasterArgs | backend/stream/master.ts:25-62 | the input options come first, then one fixed-size block per target, the last ending with the last target's publish url |
| Master.MasterController.AtMostOneMaster | backend/stream/master.ts:12-20 | under the supervisor invariant at most one master publishes unsignalled, and it is the held one |
| Master.MasterController.constructor | backend/stream/master.ts:12-17 | no process, flag off, no restart pending |
| Master.MasterController.Start | backend/stream/master.ts:19-68 | a no-op while a process is held; otherwise records the targets, spawns one master, sets the flag, emits 'started' |
| Master.MasterController.OnCloseAsWritten | backend/stream/master.ts:78-88 | any close clears the handle; with the flag on a restart is scheduled, otherwise 'stopped' is emitted; the close of the held process keeps the invariant |
| Master.MasterController.OnClose | backend/stream/master.ts:78-88 | with an identity check, only the held process's close clears the handle or schedules a restart, and the invariant holds |
| Master.MasterController.FireRestart | backend/stream/master.ts:84 | a scheduled restart runs startMaster with the recorded targets |
| Master.MasterController.KillAsWritten | backend/stream/master.ts:91-99 | with a process: flag off, SIGTERM, handle cleared; without one: 'stopped' only, pending restarts untouched |
| Master.MasterController.Kill | backend/stream/master.ts:91-99 | the same, and no restart stays pending, so the invariant holds |
| Master.StaleCloseScenario | backend/stream/master.ts:78-88 | the late close of a killed master leads to two unsignalled masters publishing |
| Master.StaleCloseFixed | backend/stream/master.ts:78-88 | with the identity check the same events leave exactly one master |
| Master.KillDuringRestartScenario | backend/stream/master.ts:91-99 | killMaster after a crash does not stop the pending restart, which spawns a master after the stop |
| Master.KillDuringRestartFixed | backend/stream/master.ts:91-99 | with the cancelling kill nothing respawns |
| Manager.NumberOr | backend/stream/manager.ts:127-132 | `v \|\| d` with a non-zero default is never 0 |
| Manager.ProfileSize | backend/stream/manager.ts:121-128 | the width and height of the fallback profile are never 0 |
| Manager.ProfileFps | backend/stream/manager.ts:122-129 | the fallback fps is never 0 |
| Manager.ProfileBitrate | backend/stream/manager.ts:123-130 | the fallback bitrate is never 0 |
| Manager.FallbackProfile | backend/stream/manager.ts:120-133 | every field of `manualMeta` falls back to a non-zero value |
| Manager.ProfileResolutionFromSetting | backend/stream/manager.ts:121-128 | a "WxH" setting with non-zero W and H is used as it is, whatever the probe says |
| Manager.ProfileResolutionFromProbe | backend/stream/manager.ts:121-128 | without a setting the probe's width and height are used, 1920/1080 standing in for 0 |
| Manager.ProfileFpsFromSetting | backend/stream/manager.ts:122-129 | an fps setting holding a non-zero integer is used as it is |
| Manager.ProfileFpsFromProbe | backend/stream/manager.ts:122-129 | without a setting the probe's non-zero fps is used, else 60 |
| Manager.ProfileBitrateFromSetting | backend/stream/manager.ts:123-130 | a bitrate setting holding a non-zero integer is used as it is |
| Manager.ProfileAudio | backend/stream/manager.ts:131-132 | audio comes from the probe; without one 48000 Hz and 2 channels |
| Manager.WordPairResolution | backend/stream/manager.ts:121-125 | a non-numeric word on both sides of an 'x' reads as two NaNs |
| Manager.UndefinedResolution | backend/stream/manager.ts:121-125 | without a probe the text "undefinedxundefined" reads as two NaNs |
| Manager.ProfileSizeDefault | backend/stream/manager.ts:121-128 | with no setting and no probe the size is 1920x1080 (the '1920x1080' alternative itself is never reached) |
| Manager.ProfileBitrateDefault | backend/stream/manager.ts:123-130 | with no bitrate setting the bitrate is 6000 |
| Manager.ProfileDefaults | backend/stream/manager.ts:120-133 | with nothing stored and no probe the profile is 1920x1080, 60 fps, 6000 kbit/s, 48000 Hz stereo |
| Manager.ToSourceSettings | backend/stream/manager.ts:135 | the profile's resolution text reads back as its width and height |
| Manager.FirstMp4 | backend/stream/manager.ts:73-75 | the first ".mp4" of the listing, or none exactly when the listing has none |
| Manager.ChooseVideo | backend/stream/manager.ts:72-78 | in OBS mode or with an existing active video it stays; an empty or missing one in fallback mode is replaced by the first ".mp4" of the listing, and stays when there is none |
| Manager.Orchestrator.constructor | backend/stream/manager.ts:12-16 | idle, fallback source, no targets, `fallback.mp4` as active video, no probe |
| Manager.Orchestrator.StreamKey | backend/stream/manager.ts:68 | the stored key when non-empty, else 'preview'; never empty |
| Manager.Orchestrator.GetState | backend/stream/manager.ts:138-140 | a broadcast reported off has no producer running, and when quiet no master held or pending |
| Manager.Orchestrator.LoadPersistedVideo | backend/stream/manager.ts:25-35 | a persisted file name becomes the active video only when that file exists |
| Manager.Orchestrator.StartBroadcast | backend/stream/manager.ts:61-82 | a no-op while on; from idle: on, targets stored, OBS exactly when connected, a video chosen, startMaster then the source started; a master still held keeps its old targets |
| Manager.Orchestrator.StopBroadcast | backend/stream/manager.ts:84-88 | off, source killed, killMaster as written: no master held, but a pending master restart stays pending with the master's flag as it was |
| Manager.Orchestrator.StopBroadcastFixed | backend/stream/manager.ts:84-88 | with the cancelling kill: off, nothing held, no restart pending, quiet |
| Manager.Orchestrator.UpdateTargets | backend/stream/manager.ts:90-99 | nothing when idle or unchanged; otherwise targets stored, broadcast stopped, a full restart scheduled |
| Manager.Orchestrator.SyncTargets | backend/stream/manager.ts:90-99 | updateTargets with the currently enabled rows |
| Manager.Orchestrator.HandleObsConnect | backend/stream/manager.ts:101-112 | the source becomes OBS even when idle and a probe is requested; an OBS start is scheduled only while on |
| Manager.Orchestrator.OnProbeResult | backend/stream/manager.ts:37-45 | a probe result replaces the stored one; null keeps it |
| Manager.Orchestrator.StartSource | backend/stream/manager.ts:81 | the mode becomes current and one producer runs on the active video |
| Manager.Orchestrator.DisconnectSettings | backend/stream/manager.ts:120-135 | the settings derived for the fallback source have a resolution that reads as two non-zero numbers and non-zero fps and bitrate |
| Manager.Orchestrator.HandleObsDisconnect | backend/stream/manager.ts:114-136 | nothing when idle or on fallback; otherwise fallback with the profile from the settings and the last probe |
| Manager.Orchestrator.HandleObsDisconnectAsWritten | backend/stream/manager.ts:114-136 | on with OBS, passing `manualMeta` kills the relay and throws: on, fallback, no producer; otherwise nothing |
| Manager.Orchestrator.SetActiveVideo | backend/stream/manager.ts:49-59 | an existing file becomes active and restarts the source only while on in fallback mode; a missing one changes nothing |
| Manager.Orchestrator.FireTimer | backend/stream/manager.ts:97-111 | the restart timer runs startBroadcast with the state current then; the OBS timer starts OBS only while still on with OBS as source |
| Manager.Orchestrator.FireObsTimerAsWritten | backend/stream/manager.ts:111 | the OBS timer as written starts an OBS producer whatever the state is by then |
| Manager.Orchestrator.OnMasterClose | backend/stream/master.ts:78-88 | any master exit clears the handle and schedules a restart while the flag is set; the held process's exit keeps the orchestrator quiet |
| Manager.Orchestrator.FireMasterRestart | backend/stream/master.ts:84 | a restart fires whatever the broadcast state, spawning a master for the recorded targets when none is held; while quiet only during a broadcast |
| Manager.ObsTimerAfterStopScenario | backend/stream/manager.ts:101-112 | OBS connects, the broadcast stops before the 1 s timer: as written an OBS producer then runs while idle |
| Manager.ObsTimerAfterStopFixed | backend/stream/manager.ts:101-112 | with the state re-checked nothing runs after the stop |
| Manager.MasterRestartAfterStopScenario | backend/stream/manager.ts:84-88 | a master crash then stopBroadcast: the pending restart spawns a master that publishes while idle |
| Manager.MasterRestartAfterStopFixed | backend/stream/manager.ts:84-88 | with the cancelling stop nothing is left to respawn |
| Manager.ObsDisconnectAsWrittenScenario | backend/stream/manager.ts:114-136 | OBS leaves an OBS broadcast: as written the broadcast stays on, on fallback, with no producer |
| Manager.ObsDisconnectFixed | backend/stream/manager.ts:114-136 | with the settings object passed, a fallback producer takes over |
| Ws.CookieEntryAtFirstEquals | backend/ws/handler.ts:12-13 | a cookie name ends at the first '=' of the trimmed piece and the value is everything after it |
| Ws.FromEntries | backend/ws/handler.ts:10 | `Object.fromEntries` has exactly the names of the entries as keys |
| Ws.FromEntriesLast | backend/ws/handler.ts:10-15 | a name maps to the value of its last entry |
| Ws.CookieEntries | backend/ws/handler.ts:11-14 | one entry per ';'-separated piece |
| Ws.ParseCookies | backend/ws/handler.ts:8-16 | an absent or empty header is the empty record; otherwise the keys are exactly the names found |
| Ws.ParseCookiesLastWins | backend/ws/handler.ts:8-16 | a later piece with the same name overrides an earlier one |
| Ws.PieceEntry | backend/ws/handler.ts:11-13 | a serializable "name=value" piece, with or without a leading space, parses to its pair |
| Ws.HeaderEntries | backend/ws/handler.ts:11-14 | each piece of a header written from serializable pairs parses back to its pair |
| Ws.CookieRoundTrip | backend/ws/handler.ts:8-16 | parsing a header written as browsers do gives back the pairs' record; with distinct names every pair reads back |
| Ws.SingleCookie | backend/ws/handler.ts:8-16 | a one-pair header yields its value for its name |
| Ws.UpgradeDecision | backend/ws/handler.ts:39-56 | `/_next/` upgrades are passed on; others are accepted exactly when the streamKey cookie or `?key=` equals the configured key |
| Ws.UpgradeByCookie | backend/ws/handler.ts:44-47 | a header whose last streamKey pair holds the key opens the socket, whatever else it holds |
| Ws.StreamKeyCookie | backend/ws/handler.ts:44-46 | the dashboard's `streamKey=<key>` cookie header carries the key |
| Ws.DashboardRefusedAsWritten | backend/ws/handler.ts:45-53 | the dashboard sending the stored key as cookie and query is refused when the configured key differs |
| Ws.UpgradeDecisionStored | backend/ws/handler.ts:39-56 | the corrected gate accepts exactly when a stored key exists and the cookie or `?key=` equals it |
| Ws.DashboardAcceptedStored | backend/ws/handler.ts:45-55 | with the corrected gate the dashboard's connection is accepted |
| Ws.ObsFlag.constructor | server.ts:25 | the shared OBS flag holds its initial value |
| Ws.Hub.constructor | backend/ws/handler.ts:25-26 | no clients, no reconnect pending |
| Ws.Hub.Connect | backend/ws/handler.ts:59-70 | a new open client is added and has been sent exactly the current state |
| Ws.Hub.SetReadyState | backend/ws/handler.ts:20-22 | a socket changing its readyState changes that client only, which decides whether later pushes reach it |
| Ws.Hub.BroadcastState | backend/ws/handler.ts:18-36 | the current state goes to every open client and to no other |
| Ws.Hub.Start | backend/ws/handler.ts:76-79 | START_BROADCAST: on with the enabled rows, OBS exactly when the flag is set, then a state push |
| Ws.Hub.Stop | backend/ws/handler.ts:80-82 | STOP_BROADCAST: off with nothing running, then a state push |
| Ws.Hub.OnMessage | backend/ws/handler.ts:72-96 | the three commands do what they name, RECONNECT also schedules one start; any other message changes nothing |
| Ws.Hub.FireReconnect | backend/ws/handler.ts:87-91 | the delayed start uses the rows enabled when it fires, then pushes the state |
| Setup.GeneratedKey | backend/api/setup.ts:44 | a new key is "nxs_" and 32 lower-case hex digits |
| Setup.GeneratedKeyInjective | backend/api/setup.ts:44 | different random draws give different keys |
| Setup.Status | backend/api/setup.ts:12-20 | complete setups report step 5, others the stored step |
| Setup.Password | backend/api/setup.ts:23-36 | a missing or short password is refused with nothing stored; otherwise the hash is stored and the step is 2 |
| Setup.CreateStreamKey | backend/api/setup.ts:39-51 | an existing key is kept; otherwise a generated one is stored; the answer is always the stored key |
| Setup.CreateStreamKeyTwice | backend/api/setup.ts:41-46 | asking twice answers the same key whatever the second draw |
| Setup.ObsVerified | backend/api/setup.ts:54-61 | the step becomes 3 and nothing else changes |
| Setup.GetStreamKey | backend/api/setup.ts:64-71 | the stored key, or null when there is none |
| Setup.VerifyPassword | backend/api/setup.ts:74-86 | 400 without a hash, 500 without a password, 401 on mismatch, and 200 with the stored key exactly when bcrypt matches |
| Setup.SetThenVerify | backend/api/setup.ts:74-86 | a password just set verifies and yields the stored key |
| Setup.Complete | backend/api/setup.ts:89-100 | 400 unless `setup_finished` is already "1"; otherwise step 5 |
| Setup.WizardAsWritten | backend/api/setup.ts:89-100 | a full wizard run ends with /complete answering 400 and /status reporting an unfinished setup at step 3 |
| Setup.CompleteFixed | backend/api/setup.ts:89-100 | with a hash and a key stored, setup is marked finished at step 5; otherwise 400 and nothing changes |
| Setup.WizardFixed | backend/api/setup.ts:89-100 | with the corrected handler the same run finishes setup and /status reports step 5 |
| Server.PresentedKey | server.ts:40 | the `x-stream-key` header when non-empty, else the `streamKey` cookie |
| Server.ApiAuthorized | server.ts:39-44 | a request passes exactly when a non-empty key is stored and the presented key equals it |
| Server.HeaderShadowsCookie | server.ts:40-42 | a wrong non-empty header is refused even with the right cookie |
| Server.RouteRequest | server.ts:36-80 | setup routes need no key; other /api paths need it; the warm-up page is served only before Next.js is ready and never for /api/ or /_next/ |
| Server.ApiNeverWarmUp | server.ts:68 | a path under /api/ never gets the warm-up page |
| Server.StripLive | server.ts:58 | the "/live/" prefix is removed only at the start |
| Server.LiveKeys | server.ts:54-62 | the stream map has one key per active stream path, with its prefix stripped, and no other |
| Server.PublishedKeyListed | server.ts:57-59 | the stream published at `/live/<key>` is listed under its key |
| Server.IngestPath | server.ts:111 | the ingest path is under "/live/" and lists under the stored key, or "null" without one |
| Server.NullKeyIngest | server.ts:111 | before a key is stored the ingest path compared with is "/live/null", which only a stored key "null" shares |
| Server.Relay.constructor | server.ts:24-26 | OBS off, Next.js not ready, orchestrator idle, no clients |
| Server.Relay.Route | server.ts:36-80 | an /api route is only reached with a stored key; the warm-up page only before ready |
| Server.Relay.MarkNextReady | server.ts:141-143 | once Next.js is ready no request gets the warm-up page |
| Server.Relay.Upgrade | backend/ws/handler.ts:39-70 | accepted upgrades add one client that is sent the current state; others leave the clients unchanged |
| Server.Relay.OnPublish | server.ts:109-116 | only `/live/<stored key>` marks OBS connected, runs handleObsConnect and pushes the state; any other path changes nothing |
| Server.Relay.ObsGone | server.ts:120-121 | the flag is cleared and the orchestrator falls back exactly when it was on with OBS |
| Server.Relay.OnUnpublish | server.ts:117-124 | only the same path marks OBS gone, runs handleObsDisconnect and pushes the state; any other path changes nothing |
| Server.Relay.OnManagerEvent | server.ts:103-105 | 'started' and 'stopped' push the current state to every open client |

## Left out

- Concurrency: each handler runs as one step. Interleavings between `await`s are not modelled, nor are two requests racing on the database.
- The event-bus wiring of manager 'started'/'stopped' events (`backend/stream/manager.ts:21-22`). Server.Relay.OnManagerEvent is what the subscription runs.
- The `publicIp` field of STATE messages. `backend/lib/ip.ts` is not part of this model.
- Timer durations (1 s, 2 s, 5 s). Scheduled callbacks are pending entries that may fire in any order.
- Console and stderr logging, and FFmpeg 'error' events.
- Exceptions from `kill`, which the source ignores anyway.
- A producer or base-input process exiting on its own. `backend/stream/source.ts` registers no close handler, so its handle stays set in the source as well.
- FFmpeg, ffprobe and JSON.parse themselves. ffprobe's exit code and parsed document are parameters of Probe.ProbeStream. A WebSocket message is reduced to its `type`, with None when parsing threw.
- bcrypt. The hash is a parameter of Setup.Password and the comparison a parameter of Setup.VerifyPassword. The cost factor 12 is not modelled.
- `randomBytes(16)`: a parameter of Setup.CreateStreamKey.
- `fs.existsSync` and `readdirSync`: a set of existing paths and a directory listing passed in.
- `path.join` normalisation. Manager.JoinPath joins with one '/'.
- `JSON.stringify` equality of target lists in updateTargets, modelled as equality of the row sequences.
- `targets ?? []`: target lists are never null here.
- `Number()` of decimals, exponents, hex, binary and "Infinity": the model gives NaN. Lengths are counted in characters, not UTF-16 code units.
- URL parsing. The `key` query parameter is the `queryKey` parameter of Ws.UpgradeDecision. An absent `req.url` is None.
- Express details: case-insensitive and trailing-slash matching, query strings in paths, CORS, cookie-parser, the JSON body parser, and the warm-up page's HTML. Whether a router answers a path is a parameter of Server.RouteRequest.
- The targets, videos and settings routers and the RTMP server. `backend/api/targets.ts`, `backend/api/videos.ts`, `backend/api/settings.ts` and `backend/rtmp/media-server.ts` are not part of this model. Manager.Orchestrator.SyncTargets is the call the targets router makes, and the set of active stream paths is a parameter of Server.LiveKeys.
- Database errors and every 500 answer except verify-password without a password.
- The configured `STREAM_KEY` is a constant of Server.Relay, fixed at construction.
- A failing `nextApp.prepare()`: Server.Relay.MarkNextReady is only called on success.
- Manager.Orchestrator.StartBroadcast: the source passes `lastObsMetadata` (null, or a probe result without `resolution`) as startSource's settings, so `settings.resolution.split` at `backend/stream/source.ts:29` throws a TypeError after `backend/stream/source.ts:24-26` has killed any running producer, and no producer is spawned. The model takes a `profile` settings object instead and spawns, as evidently meant; Source.SourceController.StartWithArg states the literal behaviour.
- Manager.ToSourceSettings: the "WxH" conversion of `manualMeta` is the model's. The source passes `manualMeta` unconverted at `backend/stream/manager.ts:135`, which throws at `backend/stream/source.ts:29`; Manager.Orchestrator.HandleObsDisconnectAsWritten models that.
- Manager.Orchestrator.HandleObsDisconnect: starts the fallback source with the converted profile. As written the call throws a TypeError after the OBS relay is killed (Manager.Orchestrator.HandleObsDisconnectAsWritten, and the manager.ts:135 row under Findings).
- Manager.Orchestrator.SetActiveVideo: the source calls startSource with no settings at all (`backend/stream/manager.ts:56`), so it throws a TypeError after killing the fallback producer. The model takes a `profile` settings object and spawns, as evidently meant.
- Manager.Orchestrator.FireTimer: the OBS start timer re-checks the state here, which is the corrected behaviour, and it takes a `profile` settings object. As written the timer passes no settings (`backend/stream/manager.ts:111`) and throws a TypeError after killing any running producer.
- Manager.Orchestrator.FireObsTimerAsWritten: keeps the missing re-check but takes a `profile` settings object, where the source passes none and would throw a TypeError at `backend/stream/source.ts:29` after the kill instead of spawning.
- Manager.Orchestrator.StopBroadcast: the source calls `killMaster`, which manager.ts never imports (it imports `stopMaster`, which master.ts does not export), so as written the call fails with a ReferenceError after the source has been killed, and the master keeps running. The model runs master.ts's killMaster as written (Master.MasterController.KillAsWritten) in its place; Manager.Orchestrator.StopBroadcastFixed uses the cancelling kill.
- What callers do with a rejected promise from these throwing calls is not modelled.
- Source.QuarterString: states the text only for bitrates divisible by 4. Other quotients print with a fractional part, which is not specified.
- Probe.Interpret: `r_frame_rate` pieces are converted only as integer text, so "30000/1001" is modelled but "29.97/1" gives NaN where JavaScript gives 29.97.

## Findings

| source | as written | input that shows it | evidently intended | confidence | as-written member | corrected member |
|---|---|---|---|---|---|---|
| backend/stream/master.ts:78-88 | the close handler clears `masterProcess` and may schedule a restart whichever process closed | start master 0, kill it, start master 1, then the close of 0 arrives: the handle of 1 is cleared, a restart is scheduled, and it spawns master 2 while 1 still publishes | only the close of the held process clears the handle and schedules a restart | not executed | Master.StaleCloseScenario | Master.StaleCloseFixed |
| backend/stream/master.ts:91-99 | killMaster with no process held only emits 'stopped'; a restart scheduled by a crash stays pending | start master 0, it crashes while on (restart scheduled), killMaster, then the restart fires and spawns master 1 after the stop | killMaster cancels any pending restart | not executed | Master.KillDuringRestartScenario | Master.KillDuringRestartFixed |
| backend/stream/manager.ts:111 | the 1 s OBS timer calls startSource without re-checking the broadcast (it also passes no settings, so literally it throws at source.ts:29 after the kill; the row is about the call with a settings object, as intended) | startBroadcast with OBS connected, handleObsConnect, stopBroadcast, then the timer fires: an OBS producer runs while idle | start the OBS relay only if the broadcast is still on with OBS as source | not executed | Manager.ObsTimerAfterStopScenario | Manager.ObsTimerAfterStopFixed |
| backend/api/setup.ts:91-96 | /complete answers 400 unless `setup_finished` is "1", and no handler ever writes `setup_finished` | password, stream key, OBS check, then /complete: 400, and /status still reports an unfinished setup at step 3 | with a password hash and a key stored, mark setup finished and answer 200 | not executed | Setup.WizardAsWritten | Setup.WizardFixed |
| backend/ws/handler.ts:45-47 | the upgrade compares the cookie and `?key=` with the configured STREAM_KEY (default 'SerienSkylan_StreamKey'), while the dashboard holds the key generated by setup and stored in the database | stored key "nxs_00…" sent as both cookie and `?key=`, configured key left at its default: refused | compare with the stored key, as the /api check does | not executed | Ws.DashboardRefusedAsWritten | Ws.DashboardAcceptedStored |
| backend/stream/manager.ts:135 | handleObsDisconnect passes `manualMeta`, which has no `resolution`, as startSource's settings; `settings.resolution.split` at source.ts:29 throws a TypeError after source.ts:24-26 has killed the OBS relay (manager.ts:56, :81 and :111 pass no settings object either) | a broadcast on with OBS, then OBS unpublishes: the relay is killed, no fallback producer starts, and the broadcast stays on with nothing feeding the master | pass `{resolution: "WxH", fps, bitrate}` built from the same values | not executed | Manager.ObsDisconnectAsWrittenScenario | Manager.ObsDisconnectFixed |
