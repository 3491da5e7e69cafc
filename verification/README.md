# Street View pano activity: a Dafny model

This project models the core of the Street View pano activity, a
multi-screen view synchroniser. Each instance holds a view (pov, pano and
navigable links). One instance is configured as master. The master turns raw
input-device samples into turns and into moves to a neighbouring panorama,
publishes its view on the bus, and answers refresh requests. Every instance
mirrors the view it receives from the bus into its browser page. The page's
relay (`viewsync.js`) caches the last pov exchanged so that it drops
redundant pov sends and receives, and it shifts received povs by a
per-screen offset. Its pano cache is meant to do the same for panos but, as
written, does not (see Findings).

The model is functional. The activity state is an immutable record
`{model, linksDirty, master, activated, movementCounter, lastMoveTime}`.
Every `@Subscribe` handler is a pure function from
(state, event, now) to (new state, emitted messages). An emitted message is
either published on a bus channel (`ToBus`) or broadcast to the browser
connections (`ToBrowser`). Time (`now`, in milliseconds) and axis samples are
integers passed in. Yaw and movement are computed in `real`. Since
1.0 / 0.0032 = 312.5 is not an integer, the source's double arithmetic and
the exact arithmetic here agree on both movement thresholds: a forward push
is `y + rx <= -313` and a backward push is `y + rx >= 313`.

The support library's `StreetviewPov.translate` and
`StreetviewLinks.getNearestLink` are not part of this model. They are passed
to every handler as the two function-valued fields of a `Library` value, and
nothing is assumed about them: no heading wrap-around, no pitch clamp, no
nearest-link metric.

Files:
- `wrappers.dfy`: `Option`, standing in for a nullable reference.
- `types.dfy`: pov, pano, link, channels and emitted messages.
- `model.dfy`: `StreetviewModel`.
- `ros.dfy`: `StreetviewRos`.
- `websocket.dfy`: `StreetviewWebsocket`.
- `activity.dfy`: the handlers of `StreetviewPanoActivity` and a dispatcher
  over all of them.
- `debounce.dfy`: runs of axis samples (debounce and cooldown).
- `replication.dfy`: what a peer does with what an instance published.
- `viewsync.dfy`: the page relay.
- `browser.dfy`: what a page does with what its activity broadcasts.

Facts about the code that the model keeps:
- There is no self-origin (echo) filter: an instance handles its own bus
  messages like anyone else's. `Replication.EchoLeavesStateUnchanged` shows
  that an echo handled before any further local event leaves the state
  unchanged. `Replication.DelayedEchoReverts` shows that a later echo is not
  harmless: a master that turns twice and then hears the echo of its first
  turn goes back to the pov of that first turn.
- `linksDirty` starts false, and the links handler is the only code that
  writes it (clearing it). Setting a pano does not mark the links dirty. So
  the dirty-links guards of the move paths never block a move, and
  `StreetviewPanoActivity.Inv` records that the flag stays false.
- A pano with a null panoid that arrives from the bus still overwrites the
  model's pano. Only the push to the browser is suppressed.
- A refresh request from the browser is answered from the local model,
  whatever the role. It is not forwarded to the bus.
- The code shown does no heading normalisation or pitch clamping of its own; `translate` is left abstract.
- The page's pano receiver applies every pano it is handed, repeated or not
  (see "Findings"). `ViewSync.OnSocketPano` and `Browser` follow it as
  written; the deduplicating receiver it was evidently meant to be is
  modelled beside it as `ViewSync.RecvPano`.

## Model

| member | source | states |
|---|---|---|
| StreetviewModel.Fresh | src/main/java/com/endpoint/lg/streetview/pano/StreetviewModel.java:72-76 | a fresh model has pov heading 0.0 and pitch 0.0, a pano with a null panoid, and no links |
| StreetviewModel.SetPov | src/main/java/com/endpoint/lg/streetview/pano/StreetviewModel.java:48-54 | getting the pov after setting it returns the value set; pano and links are unchanged |
| StreetviewModel.SetPano | src/main/java/com/endpoint/lg/streetview/pano/StreetviewModel.java:56-62 | getting the pano after setting it returns the value set; pov and links are unchanged |
| StreetviewModel.SetLinks | src/main/java/com/endpoint/lg/streetview/pano/StreetviewModel.java:64-70 | getting the links after setting them returns the value set; pov and pano are unchanged |
| StreetviewRos.SendPov | src/main/java/com/endpoint/lg/streetview/pano/StreetviewRos.java:44-48 | exactly one bus message on the pov channel, carrying the pov |
| StreetviewRos.SendPano | src/main/java/com/endpoint/lg/streetview/pano/StreetviewRos.java:53-60 | nothing is sent iff the panoid is null; otherwise exactly one message on the pano channel, carrying the pano |
| StreetviewRos.SendRefresh | src/main/java/com/endpoint/lg/streetview/pano/StreetviewRos.java:65-69 | exactly one empty message on the refresh channel |
| StreetviewWebsocket.SendPov | src/main/java/com/endpoint/lg/streetview/pano/StreetviewWebsocket.java:46-52 | exactly one pov-typed browser broadcast, carrying the pov; nothing on the bus |
| StreetviewWebsocket.SendPano | src/main/java/com/endpoint/lg/streetview/pano/StreetviewWebsocket.java:58-67 | nothing is broadcast iff the panoid is null; otherwise exactly one pano-typed broadcast |
| StreetviewPanoActivity.Setup | src/main/java/com/endpoint/lg/streetview/pano/StreetviewPanoActivity.java:304-317 | after setup: a fresh model, clean links, the configured role, counter 0 and move clock at `now` |
| StreetviewPanoActivity.IsMaster | src/main/java/com/endpoint/lg/streetview/pano/StreetviewPanoActivity.java:112-114 | the instance answers that it is master exactly when it was set up as master |
| StreetviewPanoActivity.Activate | src/main/java/com/endpoint/lg/streetview/pano/StreetviewPanoActivity.java:339-342 | activation sets the activated flag and nothing else; activating twice is the same as once |
| StreetviewPanoActivity.Deactivate | src/main/java/com/endpoint/lg/streetview/pano/StreetviewPanoActivity.java:344-347 | deactivation clears the activated flag and nothing else; deactivating twice is the same as once |
| StreetviewPanoActivity.Reconfigure | src/main/java/com/endpoint/lg/streetview/pano/StreetviewPanoActivity.java:353-365 | a configuration update re-reads the master flag and changes nothing else |
| StreetviewPanoActivity.MoveToward | src/main/java/com/endpoint/lg/streetview/pano/StreetviewPanoActivity.java:132-139 | with no nearest link, nothing changes and nothing is sent; otherwise the pano becomes the link's pano and is published unless its panoid is null; only the pano changes |
| StreetviewPanoActivity.MoveForward | src/main/java/com/endpoint/lg/streetview/pano/StreetviewPanoActivity.java:141-143 | a forward move targets the current heading |
| StreetviewPanoActivity.MoveBackward | src/main/java/com/endpoint/lg/streetview/pano/StreetviewPanoActivity.java:145-147 | a backward move targets the current heading minus 180 |
| StreetviewPanoActivity.YawOf | src/main/java/com/endpoint/lg/streetview/pano/StreetviewPanoActivity.java:262 | the yaw is nonzero iff the turn axis is nonzero |
| StreetviewPanoActivity.MovementOf | src/main/java/com/endpoint/lg/streetview/pano/StreetviewPanoActivity.java:275-277 | movement exceeds the threshold iff y + rx <= -313, and is below minus the threshold iff y + rx >= 313 |
| StreetviewPanoActivity.Decide | src/main/java/com/endpoint/lg/streetview/pano/StreetviewPanoActivity.java:279-297 | within the 500 ms cooldown: counter 0, no move, clock kept; otherwise the counter goes up, down or to 0 with the push; a move resets the counter and sets the clock to `now`; a move fires iff the counter passes ±10 outside the cooldown with clean links; the counter stays within ±10 |
| StreetviewPanoActivity.Yawed | src/main/java/com/endpoint/lg/streetview/pano/StreetviewPanoActivity.java:262-266 | a nonzero raw yaw reading turns the pov by the scaled yaw through `translate`, with zero pitch change, and changes nothing else; a zero reading changes nothing |
| StreetviewPanoActivity.OnRosAbsState | src/main/java/com/endpoint/lg/streetview/pano/StreetviewPanoActivity.java:257-298 | nothing happens unless master and activated; a nonzero yaw translates the pov and publishes it first, regardless of counter and cooldown; a zero yaw leaves the pov alone; at most one pov is emitted, exactly one when the yaw is nonzero; the counter and clock follow `Decide` and the decided move is made |
| StreetviewPanoActivity.OnRosInputKey | src/main/java/com/endpoint/lg/streetview/pano/StreetviewPanoActivity.java:241-249 | nothing happens unless master and activated; a positive key value with clean links makes the forward move, anything else does nothing |
| StreetviewPanoActivity.OnRosRefresh | src/main/java/com/endpoint/lg/streetview/pano/StreetviewPanoActivity.java:227-233 | only the master answers, with its pov then its pano; a slave emits nothing; the state never changes |
| StreetviewPanoActivity.OnOutboundRos | src/main/java/com/endpoint/lg/streetview/pano/StreetviewPanoActivity.java:190-195 | a relayed bus message goes out on the master only |
| StreetviewPanoActivity.OnOutboundWebsocket | src/main/java/com/endpoint/lg/streetview/pano/StreetviewPanoActivity.java:155-158 | a relayed browser message always goes out, whatever the role |
| StreetviewPanoActivity.OnWebsocketLinks | src/main/java/com/endpoint/lg/streetview/pano/StreetviewPanoActivity.java:166-170 | the links are replaced and are clean afterwards; nothing else changes and nothing is emitted |
| StreetviewPanoActivity.OnWebsocketRefresh | src/main/java/com/endpoint/lg/streetview/pano/StreetviewPanoActivity.java:178-182 | the browser gets the pano then the pov, whatever the role; the state never changes |
| StreetviewPanoActivity.OnRosPano | src/main/java/com/endpoint/lg/streetview/pano/StreetviewPanoActivity.java:203-207 | a pano from the bus overwrites the model's pano, and the same pano is pushed to the browser unless its panoid is null |
| StreetviewPanoActivity.OnRosPov | src/main/java/com/endpoint/lg/streetview/pano/StreetviewPanoActivity.java:215-219 | a pov from the bus overwrites the model's pov and the same pov is pushed to the browser |
| StreetviewPanoActivity.Handle | src/main/java/com/endpoint/lg/streetview/pano/StreetviewPanoActivity.java:155-298 | for every event: the role never changes, a slave never publishes on the bus, no null pano is ever sent, what is published is the view left behind, and clean links with a counter within ±10 stay so |
| Debounce.RunAxis | src/main/java/com/endpoint/lg/streetview/pano/StreetviewPanoActivity.java:257-298 | over any run of samples the role, the links and the links flag are unchanged, the invariant holds and no null pano is sent |
| Debounce.ActivationGates | src/main/java/com/endpoint/lg/streetview/pano/StreetviewPanoActivity.java:257-260 | a master just set up and activated is ready to count; before activation, and after deactivation, a sample does nothing |
| Debounce.ForwardBuildUp | src/main/java/com/endpoint/lg/streetview/pano/StreetviewPanoActivity.java:275-297 | up to ten forward pushes outside the cooldown, turning or not, raise the counter by one each, keep the pano and the move clock, and emit no pano; only the turns change the pov; without turns nothing is emitted |
| Debounce.BackwardBuildUp | src/main/java/com/endpoint/lg/streetview/pano/StreetviewPanoActivity.java:275-297 | up to ten backward pushes outside the cooldown, turning or not, lower the counter by one each, keep the pano and the move clock, and emit no pano; without turns nothing is emitted |
| Debounce.DebounceForward | src/main/java/com/endpoint/lg/streetview/pano/StreetviewPanoActivity.java:262-297 | from counter 0 outside the cooldown, with eleven forward pushes, turning or not, the first ten emit no pano; the output ends with exactly the forward move toward the heading as turned by all eleven, with no pano before it; the final state is that move's, with counter 0 and the clock at the eleventh sample's time; without turns this is exactly the forward move from the start |
| Debounce.DebounceBackward | src/main/java/com/endpoint/lg/streetview/pano/StreetviewPanoActivity.java:262-297 | the same at -11 for the backward move, away from the turned heading |
| Debounce.CooldownHolds | src/main/java/com/endpoint/lg/streetview/pano/StreetviewPanoActivity.java:287-288 | within 500 ms of the last move, any samples leave the pano and the clock alone, emit no pano and hold the counter at 0 |
| Debounce.DebounceThenCooldown | src/main/java/com/endpoint/lg/streetview/pano/StreetviewPanoActivity.java:286-297 | after eleven forward pushes fire a move, further samples within 500 ms of it keep the new pano and the move clock at the move's time and emit no pano: no second move follows in the cooldown |
| Replication.PublishedDecodes | src/main/java/com/endpoint/lg/streetview/pano/StreetviewRos.java:44-69 | a published pov, non-null pano or refresh request is raised at a peer as the same pov, pano or refresh event |
| Replication.Deliver | src/main/java/com/endpoint/lg/streetview/pano/StreetviewPanoActivity.java:203-219 | a peer handling published messages ends with the last pov and the last pano published (last write wins), and nothing else of its state changes |
| Replication.PeerFollows | src/main/java/com/endpoint/lg/streetview/pano/StreetviewPanoActivity.java:203-219 | after any event at one instance, a peer receiving what it published holds its new pov (if a pov was published) and its new pano (if a pano was published) |
| Replication.EchoLeavesStateUnchanged | src/main/java/com/endpoint/lg/streetview/pano/StreetviewPanoActivity.java:203-219 | an instance receiving back its own publications before any further local event ends in exactly the state it was in, counter and move clock included |
| Replication.DelayedEchoReverts | src/main/java/com/endpoint/lg/streetview/pano/StreetviewPanoActivity.java:215-219 | with no echo filter, a master that turns twice and then receives the echo of its first turn goes back to the first turn's pov |
| Replication.RefreshSyncsPeer | src/main/java/com/endpoint/lg/streetview/pano/StreetviewPanoActivity.java:227-233 | a master's refresh answer brings any peer to the master's pov and non-null pano, and the peer pushes both to its browser; a slave's refresh changes no peer |
| ViewSync.Init | src/main/resources/activity/webapp/js/viewsync.js:23-32 | a new relay has no shifts, a null cached pov and a null cached pano |
| ViewSync.TranslatePov | src/main/resources/activity/webapp/js/viewsync.js:142-148 | the translated pov lies exactly one yaw shift and one pitch shift from its input, an unset shift counting as none |
| ViewSync.Resize | src/main/resources/activity/webapp/js/viewsync.js:38-50 | an invalid fov changes nothing and applies nothing; a valid one sets the shifts to offset times fov and re-applies the cached pov through them |
| ViewSync.SendPov | src/main/resources/activity/webapp/js/viewsync.js:55-61 | the pov is sent iff it differs from the cached one in heading or pitch, and is then cached |
| ViewSync.RecvPov | src/main/resources/activity/webapp/js/viewsync.js:152-158 | a pov is applied iff it differs from the cached one; what is applied is the translated pov, and the untranslated one is cached |
| ViewSync.SendLinks | src/main/resources/activity/webapp/js/viewsync.js:80-84 | links are always sent, once, with no caching |
| ViewSync.Refresh | src/main/resources/activity/webapp/js/viewsync.js:88-90 | a refresh request is always sent, once |
| ViewSync.OnSocketPov | src/main/resources/activity/webapp/js/viewsync.js:109-118 | an invalid pov from the socket is dropped; a valid one goes to the pov receiver |
| ViewSync.OnSocketPano | src/main/resources/activity/webapp/js/viewsync.js:100-107 | an invalid panoid from the socket is dropped; a valid one goes to `_recvPano` as written, so it is applied and cached whenever the cache is defined, repeated or not |
| ViewSync.SendPovIdempotent | src/main/resources/activity/webapp/js/viewsync.js:52-61 | sending the same pov twice sends it once if it was not cached and never otherwise |
| ViewSync.SentPovEchoIgnored | src/main/resources/activity/webapp/js/viewsync.js:152-158 | a pov the page sent and hears back is not applied again |
| ViewSync.AppliedPovFeedback | src/main/resources/activity/webapp/js/viewsync.js:142-158 | when the page reports back the pov it was told to show, the relay stays silent iff the screen has no offset |
| ViewSync.ResizeThenRecv | src/main/resources/activity/webapp/js/viewsync.js:44-45 | after a valid resize a new pov is shown shifted by yawOffset × hfov and pitchOffset × vfov |
| ViewSync.SendPanoAsWritten | src/main/resources/activity/webapp/js/viewsync.js:66-76 | as written: a panoid is sent iff it is not loosely equal to the cache; a send leaves the page's `pano` element in the cache, and otherwise nothing changes; so, until a pano is received, every later panoid is sent again |
| ViewSync.RecvPanoAsWritten | src/main/resources/activity/webapp/js/viewsync.js:162-167 | as written: the comparison reads an undefined property, so on every reachable cache (one that is not undefined) every received panoid is applied |
| ViewSync.AsWrittenPanoRepeats | src/main/resources/activity/webapp/js/viewsync.js:66-76 | as written, sending "X" twice sends it twice and receiving "X" twice applies it twice; after sending "X" and receiving "Y", sending "Y" sends nothing |
| ViewSync.AsWrittenRecvAlwaysApplies | src/main/resources/activity/webapp/js/viewsync.js:162-167 | as written, on every reachable cache state a received panoid is applied |
| ViewSync.SendPano | src/main/resources/activity/webapp/js/viewsync.js:63-76 | as intended: a panoid is sent iff it is not the cached one, and is then cached |
| ViewSync.RecvPano | src/main/resources/activity/webapp/js/viewsync.js:160-167 | as intended: a panoid is applied iff it is not the cached one, and is then cached |
| ViewSync.IntendedPanoDeduplicates | src/main/resources/activity/webapp/js/viewsync.js:63-76 | as intended, a repeated panoid is sent or applied at most once, and an echo of a sent panoid is not applied |
| Browser.Receive | src/main/resources/activity/webapp/js/viewsync.js:100-118 | one message from the activity never changes the page's configuration or shifts and shows at most one change; a message not addressed to the browsers changes nothing |
| Browser.ReceiveAll | src/main/resources/activity/webapp/js/viewsync.js:100-118 | messages from the activity never change the page's configuration or shifts, and together they show at most as many changes as there are messages |
| Browser.RefreshShowsActivityView | src/main/resources/activity/webapp/js/viewsync.js:100-118 | after the activity answers a page's refresh: an accepted non-null pano is applied and cached whenever the cache is defined, even if it was the cached one; an accepted pov is cached and shown, shifted by the page's offsets, iff it differed; whatever validation rejects is neither cached nor shown |

## Left out

- Event-bus dispatch and registration (Guava `AsyncEventBus`). Each handler is one atomic step; concurrency is not modelled.
- Activity lifecycle and window management (`onActivitySetup` beyond the state it leaves, `onActivityStartup`, the window calls of `onActivityActivate`/`Deactivate`, `ManagedWindow`). Activation is a flag in the state, set by `Activate` and cleared by `Deactivate`.
- The `StreetviewRos`/`StreetviewWebsocket` constructors, `handleMessage`, and the transport calls `sendOutputJsonBuilder`/`sendAllWebSocketJsonBuilder`. An emission is an `Emit` value in the output sequence. How a peer turns a bus message back into an event (`Replication.Inbound`) is assumed to decode pov, pano and refresh messages, and bodies built elsewhere are not decoded.
- `StreetviewPov.translate`, `StreetviewLinks.getNearestLink` and `InputAbsState`: library code that is not part of this model. The first two are parameters. No claims are made about wrap-around, clamping or the nearest-link metric.
- StreetviewPanoActivity.MovementOf: the axis sum `y + rx` is an unbounded integer, because the value type returned by `InputAbsState.getValue` is not part of this model.
- `StreetviewConfiguration.java` and `StreetviewConfigurationWebHandler.java`: configuration loading and HTTP. The role is a boolean input.
- `streetview.js` (the Maps API wrapper), `main.js`, `socket.js` and `bigl.js`: wiring, transport and logging. The `validate` module is not part of this model, so its verdicts are boolean parameters of `ViewSync.Resize`, `ViewSync.OnSocketPov` and `ViewSync.OnSocketPano`, and a `Browser.Validation` parameter of `Browser.Receive`, `Browser.ReceiveAll` and `Browser.RefreshShowsActivityView`.
- `_applyPov`/`_applyPano` and the listeners of the relay's events. Applying is the `PovChanged`/`PanoChanged` output.
- JavaScript NaN: a pov field or offset that is not a number is not modelled. Every number is a `real`, and null is an absent `Option`.
- Logging and debug output.
- Replication.EchoLeavesStateUnchanged: covers only an echo handled before any further local event, and only the typed pov, pano and refresh messages; relayed `OutboundRos` bodies are built elsewhere and are not decoded by `Replication.Inbound`.

## Findings

| source | as written | input that shows it | evidently intended | confidence | as-written member | corrected member |
|---|---|---|---|---|---|---|
| src/main/resources/activity/webapp/js/viewsync.js:71 | `sendPano` caches `pano`, which is undeclared and resolves to the page's `pano` element; the next `remotePano != panoid` compares an element with a string and is true for every real panoid | `sendPano("X")` twice from a fresh relay sends "X" twice | cache `panoid`, so that a repeated panoid is not sent again | high (not executed) | ViewSync.SendPanoAsWritten, ViewSync.AsWrittenPanoRepeats | ViewSync.SendPano, ViewSync.IntendedPanoDeduplicates |
| src/main/resources/activity/webapp/js/viewsync.js:163 | `_recvPano` compares `pano.panoid` (the element has no such property, so undefined) with the cache, which never holds undefined | `_recvPano("X")` twice from a fresh relay applies "X" twice | compare the received `panoid` with the cache | high (not executed) | ViewSync.RecvPanoAsWritten, ViewSync.AsWrittenRecvAlwaysApplies | ViewSync.RecvPano, ViewSync.IntendedPanoDeduplicates |
