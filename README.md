# Event hub and build configuration merge

This project models two parts of a CI build worker:

- the per-build **event hub**, an append-only log of event slots with a closed flag;
- the **configuration merge**, which lays one build configuration over another.

The hub is the producer's side of the worker's log-streaming protocol. A
subscriber can replay it from any offset. The model is sequential.

- `EventHub.Hub` is a class with two of the source's three fields: `events`, a sequence of `Slot`s, and `closed`. The lock is not modelled.
- A `Slot` is an optional event plus a flag. The flag records whether the slot's `occurred` channel has been closed.
- `EmitEvent` and `Close` update those fields in place. They are proved against the log functions `EmitSlots` and `CloseSlots`.
- `Subscribe` keeps the source's `for i := from; ; i++` loop and its four exits. Unlike the source, which re-reads `h.events` under the lock on every pass, the model reads the log once into a snapshot. It is proved equal to the specification function `Feed`.
- Blocking on an unsignalled slot becomes the ending `Blocked(i)`.
- The `stop` channel becomes a `Stop` value. It names the slot index, and the select (the wait or the send), at which `stop` wins.
- The hub invariant is `WellFormed`. It says there is at least one slot, every slot but the last is signalled and holds an event, and the last slot holds no event and is signalled exactly when the hub is closed.

`Subscribe` sends a slot's `event` field without checking whether the slot was
ever filled. So on a closed hub, the close-marker slot (signalled, never filled)
sends the zero Event. Only after that does the index pass the end and `dest` get
closed. The model keeps this. `Hub` carries the zero Event as the constant
`zero`, given to the constructor, and `Payload` sends it for an unfilled slot.

After three events and a close the log has four slots, of which slot 3 is the
close marker. So a subscriber from offset 3 receives one zero event before
`dest` is closed; only offset 4 yields nothing (`EventHub.ReplayAfterClose`).

`BuildConfig.Merge` models `Config.Merge` as its test file fixes it. The
implementation file is not part of this model, so the function follows the five
asserted examples:

- params are merged key by key, and the argument wins on a shared key;
- the image is replaced only by a non-empty one;
- the run config is replaced wholesale by one with a non-empty path;
- the inputs are replaced wholesale by a non-empty list.

The tests do not say what happens to a run config with an empty path but some
args, or to an inputs list that is empty but not nil. The model keeps the
receiver's in both cases.

## Model

| member | source | states |
|---|---|---|
| EventHub.Hub.constructor | event/hub.go:18-27 | a new hub's log is `NewLog()`, one slot, unsignalled and with no event; it is not closed and satisfies the hub invariant |
| EventHub.Hub.EmitEvent | event/hub.go:29-47 | on an open hub: the former last slot now holds the event and is signalled, a fresh open slot is appended, earlier slots are unchanged, and the emitted events grow by exactly that event; on a closed hub nothing changes; the invariant is kept |
| EventHub.Hub.Close | event/hub.go:49-61 | sets `closed` and signals the last slot without an event, keeping the slot count and the emitted events; a second Close changes nothing; the invariant is kept |
| EventHub.Hub.Subscribe | event/hub.go:63-89 | what the loop sends to `dest`, and how it ends, are exactly `Feed` of the log from `from` |
| EventHub.FeedShape | event/hub.go:63-89 | a subscription sends the values of consecutive signalled slots from `from` on, in index order, each once, and none where stop fired; `dest` is closed iff the index passed the end of the log; a stop leaves it at the slot where stop fired; blocking leaves it at the first unsignalled slot |
| EventHub.FeedSplit | event/hub.go:64-88 | through a run of signalled slots where stop does not fire, a subscription sends those slots' values and then behaves as one started after the run |
| EventHub.NewLog | event/hub.go:18-27 | the log of a new hub is well-formed, open, and has no emitted events |
| EventHub.EmitSlots | event/hub.go:37-46 | the log after an emit is one slot longer, earlier slots are unchanged, the former open slot holds the event and is signalled, and a fresh open slot ends it; on a well-formed open log the invariant is kept and the event is appended to the emitted events |
| EventHub.CloseSlots | event/hub.go:57-60 | the log after a close has the same length and earlier slots, and its last slot is signalled without being given an event; on a well-formed open log the result is well-formed and closed with the same emitted events |
| EventHub.EmitAll | event/hub.go:29-47 | a run of emits into a well-formed open log adds one slot per event, keeps the log well-formed and open, and appends exactly those events, in order |
| EventHub.Payload | event/hub.go:83-84 | the value sent for a slot is its event if it holds one, and the zero Event otherwise: the send does not check whether the slot was filled |
| EventHub.Feed | event/hub.go:64-88 | a subscription from an offset at or past the end of the log closes `dest` at once and sends nothing, as the bound check at :67-72 does |
| EventHub.FilledPayloads | event/hub.go:83-84 | the values sent for the filled slots from k on are exactly the emitted events from k on |
| EventHub.ReplayIsSuffix | event/hub.go:64-88 | on a well-formed hub, what a subscription from offset k delivers is the suffix from k of what a subscription from offset 0 delivers, with the same ending |
| EventHub.ClosedReplay | event/hub.go:64-88 | on a closed hub with n events, a subscription from k <= n delivers events k..n-1 in order, then the close marker's zero event, and then closes `dest` |
| EventHub.OpenReplay | event/hub.go:64-88 | on an open hub with n events, a subscription from k <= n delivers events k..n-1 in order and then waits on the open slot n without closing `dest` |
| EventHub.StoppedDelivery | event/hub.go:77-87 | when stop fires at slot j, in the wait or in the send of a signalled slot, the subscription has delivered exactly events from..j-1 and returns without closing `dest` |
| EventHub.ResumeAfterBlock | event/hub.go:64-88 | a subscriber that caught up and waits on the open slot, resumed on a later state of the same hub, receives in total exactly what a fresh subscription on the later state delivers, and ends the same way; this includes a stop that wins the send of the slot it waited on |
| EventHub.BuildStream | event/hub.go:18-88 | for a fresh hub that receives events es and is then closed, a subscriber from offset 0 gets es in emission order, then the zero event, and then `dest` is closed |
| EventHub.ReplayAfterClose | event/hub.go:18-88 | with three events and a repeated close, the subscriber at offset 0 gets the three events and the zero event, the one at offset 3 only the zero event, and the one at offset 4 nothing; an emit after close is not seen |
| BuildConfig.Merge | builds_test.go:10-107 | params keep receiver-only keys, add argument-only keys, and take the argument's value on shared keys; image, run config and inputs come from the argument exactly when it supplies them (non-empty image, run path, inputs), else from the receiver |
| BuildConfig.MergeEmpty | builds_test.go:12-31 | merging in a configuration that supplies nothing leaves the receiver unchanged |
| BuildConfig.MergeIdempotent | builds_test.go:10-107 | a law that follows from the field-by-field override (no test asserts it): merging a configuration over itself leaves it unchanged |
| BuildConfig.MergeIntoEmpty | builds_test.go:52-90 | merging into an empty configuration keeps everything the argument supplies, except a run config with no path |
| BuildConfig.MergeAssociative | builds_test.go:10-107 | a law that follows from the field-by-field override (no test asserts it): merging b and then c over a equals merging (b merged with c) over a |
| BuildConfig.MergeFullOverride | builds_test.go:34-106 | an argument that supplies image, run path and inputs, and covers every param key of the receiver, replaces the receiver entirely |
| BuildConfig.MergesParams | builds_test.go:12-31 | the asserted example: FOO is overridden to 3, BAR is kept, BAZ is added, and the image is preserved |
| BuildConfig.OverridesImage | builds_test.go:34-50 | the asserted example: the argument's image replaces the receiver's and the receiver's run config is kept |
| BuildConfig.OverridesRun | builds_test.go:52-71 | the asserted example: the argument's run config replaces path and args together, and its image is adopted where the receiver has none |
| BuildConfig.OverridesRunWithoutArgs | builds_test.go:73-90 | the asserted example: a run config with a path and no args replaces the receiver's, so the result has no args |
| BuildConfig.OverridesInputs | builds_test.go:92-106 | the asserted example: the argument's inputs replace the receiver's rather than being appended |

## Left out

- The `sync.RWMutex` (event/hub.go:9, :30-31, :50-51, :65-75) and all concurrency are not modelled. Operations run one at a time, and `Subscribe` reads a snapshot of the log.
- Channel blocking is not modelled. Waiting on a slot that is never signalled becomes the ending `Blocked(i)`. Sending on `dest` never blocks. A resumed wait is modelled by starting `Feed` again at the blocked index (`ResumeAfterBlock`).
- The random choice Go's `select` makes when the slot and `stop` are both ready is not modelled. The `Stop` value fixes, per subscription, the one select in which `stop` wins, and `stop` once fired stays fired.
- Slots are values in a sequence, not shared pointers. A subscriber that holds a slot pointer while the producer fills it is covered only through the snapshot and resume lemmas.
- The contents of the `Event` type are not part of this model. It is a type parameter, and its zero value is passed to the hub's constructor.
- Go's difference between a nil map or slice and an empty one is not modelled, for `Params`, `Run.Args` or `Inputs`. The test's deep equality can tell them apart.
- `Config` fields other than `Image`, `Params`, `Run` and `Inputs` are not part of this model. Nor is the file that defines `Merge`; the function follows the asserted examples only.
- The build orchestration (`builder`), the check HTTP handler (api/check/handler.go) and process startup (main.go) are not part of this model. They are I/O against a container runtime, resource plugins and flags.
