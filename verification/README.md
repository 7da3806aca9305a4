# Disco, modelled in Dafny

Disco is a daemon that shows a Discord rich-presence status driven by a Lua
configuration script. The script defines eight field globals (`State`, `Details`,
`Timestamp`, `Button1`, `Button2`, `LargeImage`, `SmallImage`, `Active`) and
optionally `ClientID`. At startup each field global is classified into an update
strategy:

- **Static**: a literal value, sent once.
- **Poll**: a table `{ rate, accessor }`; the accessor is called every `rate` seconds.
- **Listen**: a coroutine; it is resumed until it yields nothing.

A field that cannot be classified is reported as "No value for ..." and skipped.
Every update goes over a channel to one receive loop. The loop keeps a presence
record. On each message it overwrites that message's field and then publishes the
record to the presence client while the record is active. Every update setting
`Active` to false also clears the client's activity, even when the record is
already inactive.

The model has six modules:

- `Wrappers` (`wrappers.dfy`): `Option` and `Result`.
- `Script` (`script.dfy`): script values and the interpreter binding's conversions
  (truthiness, optional strings and integers, unsigned rates). A function is
  represented by the outcomes of calling it, first call first. A coroutine is represented by the
  outcomes of its successive resumes.
- `Activity` (`activity.dfy`, from `src/activity.rs`): field tags, payloads and the
  three payload decoders, together with a decoding round trip.
- `Lua` (`lua.dfy`, from `src/lua.rs`): field classification, the Listen and Poll workers as loops that
  return what they send, and starting a watcher.
- `Disco` (`main.dfy`, from `src/main.rs`):
  - the watch list and the application id;
  - startup as a loop over the watch list;
  - the presence record and the payload built from it;
  - the receive loop, as a class with methods that update the record in place. The
    presence client is a class that logs the calls made to it.
- `Scenarios` (`scenarios.dfy`): whole-program consequences and concrete scripts.

Each imperative member is proved against a pure specification:
- `DiscoActivity.Process` against `PayloadOf` and `Published`;
- `Receive` against `Apply` and `Reaction`;
- `ReceiveLoop` against `Run` and `RunEffects`;
- `StartWatchers` against `StaticUpdates`, `Workers` and `MissingNames`;
- the workers and `Watch` against `Sent`, which meets `EmitsUntilFirstGap`.

The properties themselves are proved about those functions.

Behaviours worth noting:
- The application id is read from the global `ClientID`.
- A Poll table needs a non-negative integer in slot 1, and a rate of 0 is accepted. A
  table whose slot 1 is anything else is decoded whole as a Static value.
- Classification calls through any number of nested zero-argument functions. A
  worker looks through only one (`Lua.DeepIndirectionStartsIdleWorker`).
- A script without an `Active` global yields Static `false`. This is because nil is
  falsy, so startup ends with a switch-off.
- The main thread keeps its own sender (src/main.rs:111), so the receive loop's
  exit branch is never taken: after the last message the program blocks for good.

## Model

| member | source | states |
|---|---|---|
| Script.ToBool | src/lua.rs:122 | the boolean read for `Active` is false exactly for nil and `false` |
| Script.ToU64 | src/lua.rs:25-27 | a rate converts exactly when it is a non-negative integer, keeps its value and is below 2^64 |
| Script.ToString | src/activity.rs:44-47 | conversion to text succeeds exactly on a string and gives it unchanged; otherwise it is a conversion error naming the value's type |
| Script.ToOptString | src/activity.rs:41 | an optional caption is absent exactly for nil and present for a string; anything else fails |
| Script.ToOptI64 | src/activity.rs:103-104 | an optional integer is absent exactly for nil and present for an integer; anything else fails |
| Activity.DecodeImage | src/activity.rs:33-55 | a string is the asset with no caption; a table succeeds exactly when slot 1 is a string and `text` is nil or a string, giving that asset and caption; anything else is rejected as "Image" |
| Activity.DecodeButton | src/activity.rs:63-88 | a string is both label and url; a table succeeds exactly when slot 1 and `url` are strings, giving them; anything else is rejected as "Button" |
| Activity.DecodeTimestamp | src/activity.rs:96-118 | corrected decoder: an integer is a start with no end; a table succeeds exactly when `start` and `_end` are nil or integers, and each is present exactly when it is an integer; anything else is rejected as "Timestamp" |
| Activity.DecodeTimestampAsWritten | src/activity.rs:96-118 | the decoder as written agrees with the corrected one on every non-integer and rejects every integer as "integer" to "Timestamp" |
| Activity.WholeNumberTimestampRejected | src/activity.rs:107-110 | `1700000000` is rejected as written and decodes to a start time with no end when corrected |
| Activity.Decode | src/lua.rs:121-130 | the update decoded for a field always carries that field's tag; `Active` is the truthiness of the value; each other field succeeds exactly when its payload decoder does, carries exactly the payload that decoder produced, and otherwise fails with that decoder's error. `Timestamp` uses the corrected decoder, so a whole-number `Timestamp` is sent as a start time where the program reports "No value for Timestamp" (see Findings) |
| Activity.DecodeEncode | src/activity.rs:33-118 | every payload has a script form: decoding the table form of any update gives the update back |
| Activity.ShorthandsAreTables | src/activity.rs:37-47 | the string form of an image or button and the integer form of a timestamp decode as the equivalent table form does |
| Lua.Classify | src/lua.rs:20-40 | a Static strategy always holds a payload of the classified field |
| Lua.ClassifySettled | src/lua.rs:20-40 | once every zero-argument function has been called through: a call error fails, a table with an unsigned slot 1 polls at that rate, a coroutine is listened to, and anything else is Static exactly when it decodes |
| Lua.ClassifyThroughCalls | src/lua.rs:32-36 | wrapping a value in any number of zero-argument functions leaves its classification unchanged |
| Lua.DeepIndirectionStartsIdleWorker | src/lua.rs:61-91 | behind two or more calls a coroutine or poll table still classifies as before, yet neither worker finds a coroutine or accessor to run |
| Lua.ResumeStep | src/lua.rs:93-96 | a resume yields an update exactly when it returns a non-nil value that decodes; the update is that decoded value, tagged with the field |
| Lua.PollStep | src/lua.rs:74-75 | an accessor call yields an update exactly when it returns a value that decodes; the update is that decoded value, tagged with the field |
| Lua.EmissionsUnique | src/lua.rs:92-97 | what a worker sends is determined by its steps |
| Lua.UntilGap | src/lua.rs:92-97 | the updates sent before the first step that yields nothing, in order, are a valid emission of those steps |
| Lua.ListenSource | src/lua.rs:85-91 | a Listen worker finds a coroutine exactly when the global is one or is a function whose call returns one, and then runs that coroutine's resumes |
| Lua.PollSource | src/lua.rs:61-72 | a Poll worker finds an accessor exactly when slot 2 of the global table, or of the table the global function returns, is a function; its calls are that accessor's outcomes, first call first |
| Lua.Sent | src/lua.rs:50-98 | a Static strategy sends its value once; Listen and Poll send what their source's steps emit up to the first gap, nothing when there is no source, and only updates of the field |
| Lua.ListenWorker | src/lua.rs:79-98 | the Listen worker sends each resumed value in order and stops at the first nil, error, failed decode or dead coroutine; it sends nothing when the global is not a coroutine or a function returning one |
| Lua.PollWorker | src/lua.rs:55-78 | the Poll worker calls the accessor `PollSource` finds, once per tick, sends each decoded reply in order and stops at the first failing call or decode; it sends nothing when there is no accessor in slot 2 |
| Lua.Watch | src/lua.rs:43-101 | a worker is spawned exactly when the strategy is not Static, and what is sent (at once or by the worker) is exactly `Sent` of the strategy and global |
| Lua.CreateWatcher | src/lua.rs:114-131 | starting a watcher fails exactly when classification fails; otherwise it spawns a worker exactly when the strategy is not Static and sends exactly `Sent` of that strategy; every update sent carries the field's tag |
| Disco.FieldIndex | src/main.rs:113-122 | every field is in the watch list |
| Disco.FieldIndexInverse | src/main.rs:113-122 | no field is watched twice |
| Disco.NamesDistinct | src/main.rs:113-122 | no two watched fields share a global name |
| Disco.ClientId | src/main.rs:82-87 | the command-line id wins; otherwise the id is the `ClientID` global, which must be a string |
| Disco.StaticOf | src/lua.rs:50-54 | a field sends at most one update at startup, and it carries that field's tag |
| Disco.StaticOfValue | src/lua.rs:50-54 | a field sends an update at startup exactly when it classifies as Static, and that update is exactly its classified value; otherwise it sends none |
| Disco.MissingOf | src/main.rs:125-130 | a field is reported under its name exactly when it fails to resolve, and not at all when it resolves |
| Disco.WorkerOf | src/lua.rs:55-98 | a field gets at most one worker, exactly when it resolves to Poll or Listen; the worker is for that field and every update it sends carries the field's tag |
| Disco.StartWatchers | src/main.rs:124-131 | startup returns, field by field in watch-list order, the Static updates, the workers and the names that fail to resolve, exactly as `StaticUpdates`, `Workers` and `MissingNames` collect them |
| Disco.Empty | src/main.rs:181-192 | the record starts inactive with no field stored |
| Disco.Apply | src/main.rs:141-155 | a message overwrites its own field with its value and leaves every other field unchanged |
| Disco.PayloadOf | src/main.rs:194-255 | the payload holds state and details as stored. Timestamps are present exactly when stored. Buttons are present exactly when either is stored, button 1 before button 2, at most two. Assets are present exactly when an image is stored, each with its asset and caption |
| Disco.Published | src/main.rs:194-254 | processing publishes the record's payload exactly when the record is active, and does nothing otherwise |
| Disco.Reaction | src/main.rs:141-156 | a message clears exactly when it switches the presence off, and publishes the new record's payload exactly when the new record is active |
| Disco.LastWriteWins | src/main.rs:141-155 | after an update its field holds that update until another update of the same field arrives |
| Disco.StateKept | src/main.rs:148-156 | messages for other fields keep the stored state, and every payload they publish shows it |
| Disco.PublishesShowLastState | src/main.rs:148-156 | once State is set to `s`, every payload published shows `s` until another State update |
| Disco.QuietStep | src/main.rs:142-147 | while inactive, a message that is not a switch-on keeps the record inactive and clears only for a switch-off |
| Disco.SilentWhileInactive | src/main.rs:141-156 | from an inactive record, until a switch-on, nothing is published and the client sees exactly one clear per switch-off |
| Disco.ToggleRepublishes | src/main.rs:142-147 | switching off then on keeps every stored field, clears once and republishes the stored payload |
| Disco.Client.SetActivity | src/main.rs:253 | publishing appends one publish of that payload to the client's calls |
| Disco.Client.ClearActivity | src/main.rs:144 | clearing appends one clear to the client's calls |
| Disco.DiscoActivity.constructor | src/main.rs:181-192 | a new record is the empty record |
| Disco.DiscoActivity.Process | src/main.rs:194-255 | building the activity part by part publishes exactly `PayloadOf` of the record when active, and makes no call otherwise |
| Disco.DiscoActivity.Receive | src/main.rs:141-156 | one loop turn updates the record as `Apply` does and makes exactly the calls `Reaction` gives |
| Disco.ReceiveLoop | src/main.rs:135-165 | the loop leaves the record and the client's calls as the fold of all received messages in arrival order |
| Scenarios.CountOncePerField | src/main.rs:124-131 | over a watch list holding each field once, a field that sends an update at startup is counted once, and one that does not is not counted |
| Scenarios.CountWatchedOnce | src/main.rs:113-131 | over the watch list, a field that gives an item at startup is counted once, and one that gives none is not counted |
| Scenarios.StaticSentOnce | src/main.rs:124-131 | at startup a field that classifies as Static sends exactly one update and every other field sends none |
| Scenarios.StaticsAsSpecified | src/lua.rs:51-53 | every update sent at startup is the classified Static value of its own field |
| Scenarios.WorkerStartedOnce | src/main.rs:124-131 | at startup a field that classifies as Poll or Listen gets exactly one worker and every other field gets none |
| Scenarios.WorkersSendAsSpecified | src/lua.rs:55-98 | every worker started belongs to a field that classifies as Poll or Listen, and sends exactly what `Sent` gives for that field's strategy and global |
| Scenarios.StaticUpdatesInOrder | src/main.rs:113-131 | startup sends the fields' updates in the order of the watch list |
| Scenarios.CodingFieldsSet | src/lua.rs:20-40 | in `State = "Coding"`, `Active = true`, `Timestamp = { start = 1700000000 }`, each set field resolves to Static with its value |
| Scenarios.CodingFieldsUnset | src/lua.rs:37 | in that script, each unset field other than Active fails to resolve |
| Scenarios.OnlyThreeStaticStartup | src/main.rs:113-131 | a script in which only State, Timestamp and Active resolve, each to a Static value, sends exactly those three values at startup, in watch-list order |
| Scenarios.OnlyThreeStaticMissing | src/main.rs:124-131 | such a script reports exactly the other five names as missing, in watch-list order |
| Scenarios.OnlyThreeStaticNoWorker | src/main.rs:124-131 | such a script starts no worker |
| Scenarios.CodingOnlyThree | src/lua.rs:20-40 | the coding script is such a script, with the values `"Coding"`, a start of 1700000000 and `true` |
| Scenarios.CodingStartup | src/main.rs:113-131 | that script sends State, then Timestamp, then Active at startup |
| Scenarios.CodingMissing | src/main.rs:124-131 | that script reports exactly Details, Button1, Button2, LargeImage and SmallImage as missing, in that order |
| Scenarios.CodingStartsNoWorker | src/main.rs:124-131 | that script starts no worker |
| Scenarios.CodingFillsRecord | src/main.rs:141-156 | the State and Timestamp updates fill the record and publish nothing while it is inactive |
| Scenarios.CodingPublishesOnce | src/main.rs:141-156 | receiving those three updates publishes exactly once, the state and start time and no other part |
| Scenarios.MissingActiveSwitchesOff | src/main.rs:121 | without an `Active` global the last startup update is a switch-off |
| Scenarios.PollScenario | src/lua.rs:23-27 | `{ 5, function() return true end }`, followed for any number of calls, polls every 5 seconds and sends a switch-on on every one of them |
| Scenarios.RaisingAccessorSendsNothing | src/lua.rs:73-75 | a poll table whose accessor raises on its first call still classifies as Poll at its rate, but its worker sends nothing |
| Scenarios.SwitchOnTicks | src/main.rs:142-156 | repeated switch-ons from the empty record publish an all-absent payload on each one |

## Findings

| source | as written | input that shows it | evidently intended | confidence | as-written member | corrected member |
|---|---|---|---|---|---|---|
| src/activity.rs:107-110 | the scalar arm of the Timestamp decoder matches the type name "number". The binding gives "number" only to floating-point values; a whole-number literal such as `1700000000` is an "integer" and falls through to the error arm | `Timestamp = 1700000000`: a conversion error from "integer" to "Timestamp", so the field is reported as having no value | a whole number is a start time with no end, as the table form with only `start` gives | medium, not executed; rests on the binding's type names | Activity.DecodeTimestampAsWritten, Activity.WholeNumberTimestampRejected | Activity.DecodeTimestamp |

## Left out

- Threads, the channel and the sleeps are not modelled. Each worker is a method that returns the updates it sends. Startup returns them per worker. The receive loop consumes one given interleaving as a sequence; the program itself blocks for good after the last message, because main keeps its own sender.
- Lua.PollWorker: it runs for `1 + |later|` ticks, the accessor calls its `Func` value records, because the source's loop never ends on its own. The poll rate is carried but no time passes.
- The Lua interpreter is not modelled: loading and running the script, `get_lua`, the fresh interpreter each worker creates, and the panic if re-running the script fails. Script globals are a map. A function value records the outcomes of its successive calls, and a coroutine those of its resumes. Each worker's fresh interpreter is taken to give the same outcomes that the script's values describe.
- Script.ToString: numbers are not coerced to text, as the binding does. Script.ToOptI64 and Script.ToU64 do not coerce numeric strings to numbers. Floating-point numbers are not modelled. Lua strings that are not valid UTF-8, which the conversion to text rejects, cannot be represented, because a script string is a Dafny `string`.
- A worker panic (`unwrap` on a missing coroutine or accessor, a failing call, a dead channel) is modelled as that worker sending nothing more. The effect on other threads is not modelled.
- The presence client is a log of the calls made to it. The following are not modelled: creating the IPC client, connecting and the retry delay, the panic when `set_activity` fails, and the ignored error of `clear_activity`.
- The command line, the configuration path (`DISCO_CONFIG`, `--print-config-path`), reading the file and the UTF-8 check are not modelled. The `quiet` flag and every console message are also left out; the names reported as missing are returned instead of printed.
- The `unsafe` feature variant of `create_watcher` (src/lua.rs:133-166) only threads a flag to the interpreter constructor, and is not modelled separately.
- Activity.Decode: the model and everything downstream of it use the corrected Timestamp decoder, so for `Timestamp = <integer>` the model sends a start time where the program reports "No value for Timestamp"; the program's behaviour is `Activity.DecodeTimestampAsWritten`.
- src/command.rs and src/library.rs are not part of this model.
