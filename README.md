# SKNet and TimeAPI, modelled in Dafny

This project models two Java code bases and proves properties of the models.

**SKNet** is a small client/server session layer.
- A server hands each new connection the lowest free id below its connection limit (0 means unlimited).
- It runs a two-packet handshake and keeps a registry of connections by id.
- A receive loop per connection hands every packet to the owner's listeners and ends on a disconnect packet.
- A client connects, disconnects and closes with a disconnect round trip.
- Sockets are sequences of incoming reads plus a log of what was sent. Listener callbacks are recorded events.

**TimeAPI** is a game framework. The model covers these parts:
- **Input.** The key and scan-code binding tables, key states and the character queue of the input manager. The older input manager is modelled too, with its bindings and states.
- **Textures.** Sprite sheets cut from an image, dynamic textures that move over a sheet, and frame animations.
- **Entities.** The entity manager's named entities, groups and trash lists.
- **Audio.** The audio handler's queues of temporary and looping events, the audio manager's event builders, and the decoding of WAV headers.
- **Fonts.** Font descriptions parsed from text files, and the vertex and index layout of rendered text.
- **Shaders.** The uniform names a shader program registers, the uniform calls its `send*` methods issue, and its caching of the bound program.
- **GUI.** The selectable text input box.
- **Scripting.** The level and asset scripts: line tokenising, dispatch to `make`, `log` and `define`, parameter substitution and per-environment gating.

**How the model is built.**
- Java exceptions are results (`Result`, `Outcome`) that carry the exception's kind. The models of the library calls the code relies on (`Integer.parseInt`, `String.split` for the patterns used, `replace`, `Float.parseFloat`'s syntax, `%`, `Math.floorDiv`, `int` wrap-around) live in `Java` and `JavaStrings`.
- Objects whose fields the Java code updates are Dafny classes with the same fields. Their methods are proved against pure functions. The properties are lemmas about those functions.
- OpenGL, OpenAL and GLFW are logs of the calls made to them.
- Floating-point values are `real`. In scripts they are the text that would be parsed.

## Model

| member | source | states |
|---|---|---|
| Java.Wrap32 | TimeAPI/src/time/api/gfx/texture/DynamicTexture.java:102 | the `int` Java arithmetic gives: in 32 bits, equal to the exact value modulo 2^32, and the exact value whenever it fits |
| Java.JavaRem | TimeAPI/src/time/api/gfx/texture/DynamicTexture.java:71 | Java `%`: the remainder has the sign of the dividend, is smaller in magnitude than the divisor, and differs from the dividend by a multiple of the divisor, which together fix its value |
| Java.FloorDiv | TimeAPI/src/time/api/gfx/texture/DynamicTexture.java:72 | `Math.floorDiv`: the quotient rounded toward negative infinity, so for a positive divisor `q * b <= a < q * b + b` and for a negative one `q * b + b < a <= q * b` |
| SKNet.ReadObject | SKNet/src/sk/net/SKConnection.java:175-185 | a packet or a null comes back as read; any other object raises `IllegalStateException`; an I/O or class failure is a failed read |
| SKNet.SendResult | SKNet/src/sk/net/SKConnection.java:159-163 | writing before the output stream exists is a `NullPointerException`; it fails on a closed or failing socket and succeeds otherwise |
| SKNet.NextRead | SKNet/src/sk/net/SKConnection.java:175-185 | reading before the input stream exists is a `NullPointerException`; a closed or drained stream fails; otherwise the next object is filtered as `ReadObject` does |
| SKNet.AfterRead | SKNet/src/sk/net/SKConnection.java:175-177 | a read consumes exactly one item when the stream is open and non-empty, and nothing otherwise |
| SKNet.CheckClientReply | SKNet/src/sk/net/SKConnection.java:74-92 | the server side of the handshake succeeds exactly on a validated client packet or a swallowed I/O failure; any other reply raises `IllegalStateException` |
| SKNet.RejectServerReply | SKNet/src/sk/net/SKConnection.java:101-117 | a client-side reply that is not a server packet raises `IllegalStateException`, unless the read failed and was swallowed |
| SKNet.Swallowed | SKNet/src/sk/net/SKConnection.java:52-59 | a checked failure is printed and ignored; only a raised exception escapes |
| SKNet.ConnectedEvents | SKNet/src/sk/net/SKServer.java:90-92 | one `connected` call per listener, in list order |
| SKNet.DisconnectedEvents | SKNet/src/sk/net/SKServer.java:113-115 | one `disconnected` call per listener, in list order |
| SKNet.ReadLoop | SKNet/src/sk/net/SKCommunicationListener.java:28-62 | the receive loop ends only at an ending item and otherwise reads everything; it never delivers more than it reads |
| SKNet.ReadLoopStopsAtFirstEnd | SKNet/src/sk/net/SKCommunicationListener.java:28-42 | the loop stops at the first disconnect packet or foreign object and leaves exactly what follows it |
| SKNet.ReadLoopNoDisconnect | SKNet/src/sk/net/SKCommunicationListener.java:34-53 | no packet handed to the listeners is a disconnect packet |
| SKNet.ReadLoopStep | SKNet/src/sk/net/SKCommunicationListener.java:30-60 | one read moves the loop on: a failed read delivers nothing, a packet or null is delivered, a disconnect ends the loop, a foreign object ends it with `IllegalStateException` |
| SKNet.DispatchLog | SKNet/src/sk/net/SKCommunicationListener.java:46-54 | one dispatch to all listeners per delivered packet, in delivery order |
| SKNet.DispatchLogAppend | SKNet/src/sk/net/SKCommunicationListener.java:46-54 | dispatching two runs of packets is dispatching their concatenation |
| SKNet.ClientPacket.constructor | SKNet/src/sk/net/SKClientPacket.java:6 | a new client packet is not valid |
| SKNet.ClientPacket.Validate | SKNet/src/sk/net/SKClientPacket.java:13-15 | validation makes the packet valid |
| SKNet.ClientPacket.IsValid | SKNet/src/sk/net/SKClientPacket.java:23-25 | reports the validation flag |
| SKNet.ClientPacket.GetName | SKNet/src/sk/net/SKClientPacket.java:27-29 | the packet's fixed name |
| SKNet.Connection.constructor | SKNet/src/sk/net/SKConnection.java:32-35 | a new connection has its role and socket, id -1, no streams, no owner and no listener |
| SKNet.Connection.SendPacket | SKNet/src/sk/net/SKConnection.java:159-163 | the result is `SendResult` of the stream state, and the packet is appended to the output exactly when the write succeeds |
| SKNet.Connection.ReceivePacket | SKNet/src/sk/net/SKConnection.java:175-185 | the result is `NextRead` of the stream state and the input left is `AfterRead` |
| SKNet.Connection.Init | SKNet/src/sk/net/SKConnection.java:50-126 | the stream headers open as the socket allows; a packet of the wrong side raises `IllegalArgumentException` with nothing sent; the server side sends its packet, checks the reply and takes the id; the client side reads the server packet, takes its id, validates and sends back its own packet |
| SKNet.Connection.Close | SKNet/src/sk/net/SKConnection.java:134-142 | closing succeeds exactly when both streams exist, and otherwise raises `NullPointerException` at the first missing one; the socket ends up closed whenever the output stream exists, because closing that stream closes the socket before the input stream is touched |
| SKNet.Connection.StartListening | SKNet/src/sk/net/SKConnection.java:144-149 | a new listener is attached, bound to this connection and its role |
| SKNet.Connection.SetServer | SKNet/src/sk/net/SKConnection.java:198-203 | a client-side connection refuses with `IllegalStateException`; otherwise the server is set |
| SKNet.Connection.GetServer | SKNet/src/sk/net/SKConnection.java:214-218 | a client-side connection refuses with `IllegalStateException`; otherwise the server comes back |
| SKNet.Connection.SetClient | SKNet/src/sk/net/SKConnection.java:230-235 | a server-side connection refuses with `IllegalStateException`; otherwise the client is set |
| SKNet.Connection.GetClient | SKNet/src/sk/net/SKConnection.java:246-250 | a server-side connection refuses with `IllegalStateException`; otherwise the client comes back |
| SKNet.PrefixInKeys | SKNet/src/sk/net/SKServer.java:78-86 | a registry holding every id below n has at least n entries, so the id scan ends |
| SKNet.Server.constructor | SKNet/src/sk/net/SKServer.java:30-38 | a new server has no connections or listeners, is not running, and has timeout 10000 and at most 1000 connections |
| SKNet.Server.Start | SKNet/src/sk/net/SKServer.java:48-64 | starting with no listener raises `IllegalStateException` and changes nothing; otherwise the server runs |
| SKNet.Server.AddPacketListener | SKNet/src/sk/net/SKServer.java:134-137 | the listener is appended |
| SKNet.Server.ScanForId | SKNet/src/sk/net/SKServer.java:77-86 | the id is the lowest one with no registry entry below the limit (any id when the limit is 0), and the handshake runs only when one was found; otherwise the id is the limit itself, or 0 for a negative limit |
| SKNet.Server.AddConnection | SKNet/src/sk/net/SKServer.java:73-97 | the new connection is registered under the scanned id, replacing any entry there, the listeners are told in order and it starts listening; a handshake exception leaves the registry and the listeners untouched. Without the handshake the outcome is normal; with it the connection sends `ServerHello(id)` when its output works, the outcome is the check of the client's reply, and the connection takes the id only when that reply is a valid client hello |
| SKNet.Server.Disconnect | SKNet/src/sk/net/SKServer.java:99-105 | an unknown id is a `NullPointerException`; otherwise one disconnect packet goes out, the entry stays; only the connection's output may change, so its id, streams, closed flag, input, listener and owners are unchanged |
| SKNet.Server.Close | SKNet/src/sk/net/SKServer.java:107-125 | every listener is told first, even for an unknown id, which then raises `NullPointerException`; otherwise a disconnect packet is sent and the connection closed, and the entry stays; only the connection's output and closed flag may change, so its id, streams, input, listener and owners are unchanged |
| SKNet.Server.NotifyConnected | SKNet/src/sk/net/SKServer.java:90-92 | one `connected` call per listener, in list order |
| SKNet.Server.NotifyDisconnected | SKNet/src/sk/net/SKServer.java:113-115 | one `disconnected` call per listener, in list order |
| SKNet.Server.Dispatch | SKNet/src/sk/net/SKCommunicationListener.java:46-49 | records one dispatch of a packet to all the server's listeners |
| SKNet.Server.GetConnection | SKNet/src/sk/net/SKServer.java:173-175 | the registered connection, or null |
| SKNet.Server.SetMaxConnections | SKNet/src/sk/net/SKServer.java:227-230 | sets the limit as given, negative or zero included |
| SKNet.Server.SetTimeout | SKNet/src/sk/net/SKServer.java:273-276 | sets the timeout |
| SKNet.Client.constructor | SKNet/src/sk/net/SKClient.java:16-18 | a new client has no connection and no listeners |
| SKNet.Client.Connect | SKNet/src/sk/net/SKClient.java:34-52 | no listener raises `IllegalStateException` with nothing changed; otherwise a new client-side connection runs the handshake, then the listeners are told in order, then it starts listening; a handshake exception stops before the listeners; with a listener, the new connection is not closed, its streams exist as the socket allows, the handshake has consumed exactly the server's reply from its input, and the id and the sent hello follow the reply |
| SKNet.Client.Disconnect | SKNet/src/sk/net/SKClient.java:58-67 | without a connection, `NullPointerException`; otherwise one disconnect packet goes out, nothing is closed and no listener is told; the connection's id, streams, input, listener and owners are unchanged |
| SKNet.Client.Close | SKNet/src/sk/net/SKClient.java:75-95 | the listeners are told first; then a disconnect packet is sent and a reply read; only a disconnect reply closes the connection, any other packet raises `IllegalStateException`; only the connection's output, input and closed flag may change, so its id, streams, listener and owners are unchanged |
| SKNet.Client.AddPacketListener | SKNet/src/sk/net/SKClient.java:105-108 | the listener is appended |
| SKNet.Client.GetPacketListeners | SKNet/src/sk/net/SKClient.java:116-118 | the listeners as registered |
| SKNet.Client.NotifyConnected | SKNet/src/sk/net/SKClient.java:45-47 | one `connected` call per listener, in list order |
| SKNet.Client.NotifyDisconnected | SKNet/src/sk/net/SKClient.java:77-79 | one `disconnected` call per listener, in list order |
| SKNet.Client.Dispatch | SKNet/src/sk/net/SKCommunicationListener.java:50-53 | records one dispatch of a packet to all the client's listeners |
| SKNet.CommunicationListener.constructor | SKNet/src/sk/net/SKCommunicationListener.java:14-23 | the listener takes the connection's role and its server or its client |
| SKNet.CommunicationListener.ServerReads | SKNet/src/sk/net/SKCommunicationListener.java:28-62 | the server listeners get one dispatch per packet `ReadLoop` delivers; the loop consumes what `ReadLoop` consumes and ends as it does |
| SKNet.CommunicationListener.ServerLoop | SKNet/src/sk/net/SKCommunicationListener.java:26-64 | as `ServerReads`, then a disconnect packet closes the session through the server under the connection's id: the listeners are told, a missing registry entry escapes as `NullPointerException`, otherwise a disconnect packet goes out when the output works, after which the connection is closed, and the loop exits normally exactly when its input stream is open; every other end escapes as `NullPointerException`; after a disconnect both the loop's connection and the registry entry keep their id, streams, listener and owners; when the reads run out or a foreign object escapes, every field of the connection but its input, and the registry entry, are unchanged |
| SKNet.CommunicationListener.ClientReads | SKNet/src/sk/net/SKCommunicationListener.java:28-62 | the client listeners get one dispatch per packet `ReadLoop` delivers; the loop consumes what `ReadLoop` consumes and ends as it does |
| SKNet.CommunicationListener.ClientLoop | SKNet/src/sk/net/SKCommunicationListener.java:26-64 | as `ClientReads`, then a disconnect packet closes the session through the client: the listeners are told, a missing connection escapes as `NullPointerException`, otherwise a disconnect packet goes out when the output works and the next read must be the server's disconnect packet, which closes the connection and exits normally; any other packet escapes as `IllegalStateException`, a read that meets an I/O error exits normally without closing, and a missing input stream escapes as `NullPointerException`; after a disconnect both the loop's connection and the client's connection keep their id, streams, listener and owners; when the reads run out or a foreign object escapes, every field of the connection but its input, and the client's connection, are unchanged |
| SKNet.CommunicationListener.Run | SKNet/src/sk/net/SKCommunicationListener.java:26-64 | a closed connection stops at once and a missing input stream escapes as `NullPointerException`, both with the connection, the owner and its session unchanged; otherwise the loop of the connection's role runs, with the effects `ServerLoop` and `ClientLoop` state (a disconnect keeps every connection's id, streams, listener and owners), and the owner's registry, connection and listener list stay as they were |
| Keys.KeyRef | TimeAPI/src/time/api/input/InputManager.java:433-435 | a key code reference is `key#mods`: it holds `#` and never `$` |
| Keys.ScanRef | TimeAPI/src/time/api/input/InputManager.java:410-412 | a scan code reference is `scan$mods`: it holds `$` and never `#`, so it never collides with a key code reference |
| Keys.KeyRefInjective | TimeAPI/src/time/api/input/InputManager.java:433-435 | two key code references are equal only for the same key and modifiers |
| Keys.ScanRefInjective | TimeAPI/src/time/api/input/InputManager.java:410-412 | two scan code references are equal only for the same scan code and modifiers |
| Input.Settled | TimeAPI/src/time/api/input/InputManager.java:50-56 | a frame update leaves every key state up or down; up and down stay as they were |
| Input.SettleStates | TimeAPI/src/time/api/input/InputManager.java:50-56 | the frame update keeps the set of named keys |
| Input.SettleMeta | TimeAPI/src/time/api/input/InputManager.java:57-59 | clearing delayed meta states keeps the set of names with a meta state |
| Input.SettleStatesMeaning | TimeAPI/src/time/api/input/InputManager.java:50-56 | after the update a key is down exactly when it was pressed or down, and up otherwise |
| Input.SettleIdempotent | TimeAPI/src/time/api/input/InputManager.java:50-60 | two frame updates in a row equal one |
| Input.Lookup | TimeAPI/src/time/api/input/InputManager.java:220-232 | the scan code binding wins; no name exactly when neither the scan code nor the key code is bound |
| Input.LookupFallsBackToKey | TimeAPI/src/time/api/input/InputManager.java:220-232 | with no scan code binding, the key code binding's name is returned |
| Input.ScanBindingWins | TimeAPI/src/time/api/input/InputManager.java:220-232 | binding a scan code makes it the name looked up, whatever the key code is bound to |
| Input.FirstCodeUnit | TimeAPI/src/time/api/input/InputManager.java:260-262 | `Character.toChars(cp)[0]`: a code point outside Unicode raises `IllegalArgumentException`; a basic-plane one is its own unit; a supplementary one yields the high surrogate of its block |
| Input.RepeatOnlyDelays | TimeAPI/src/time/api/input/InputManager.java:184-186 | a repeat marks the looked-up name delayed and changes no binding, key state or pending rebind |
| Input.ReleaseCompletesRebind | TimeAPI/src/time/api/input/InputManager.java:192-198 | a release with a rebind pending binds the event's scan code to the pending name, sets that name up, clears the rebind, leaves the key bindings and the other names' states alone, and the event then looks up to the pending name |
| Input.PressAndReleaseRecorded | TimeAPI/src/time/api/input/InputManager.java:200-205 | a press or release of a bound name with a state records pressed or released for that name and changes no binding |
| Input.StaleBindingsDropped | TimeAPI/src/time/api/input/InputManager.java:206-208 | an event whose name has no state removes the event's key code and scan code bindings and nothing else, so it looks up to no name afterwards |
| Input.BindingOf | TimeAPI/src/time/api/input/InputManager.java:28-29 | a line of the binding file is accepted exactly when it matches the binding pattern; an accepted line is the saved form of its reference and name, and the reference is a key code reference |
| Input.SaveLine | TimeAPI/src/time/api/input/InputManager.java:133-137 | a saved line is the reference, one `-` and the name, in that order |
| Input.LoadLineF | TimeAPI/src/time/api/input/InputManager.java:94-101 | a line that does not match is skipped; a matching one binds its reference to its name, with the name up and not delayed; the pending rebind and the scan code bindings never change |
| Input.BindingLineSplits | TimeAPI/src/time/api/input/InputManager.java:93-97 | `split("-")` on an accepted line yields exactly its reference and its name |
| Input.SavedKeyBindingReloads | TimeAPI/src/time/api/input/InputManager.java:93-97 | a key binding saved as `key#mods-name`, with a non-negative key, modifiers below ten and a word-character name, reads back as the same binding |
| Input.SavedScanBindingLost | TimeAPI/src/time/api/input/InputManager.java:28-29 | the scan-line pattern is the key-line pattern, so a saved `scan$mods-name` line never reads back |
| Input.SavedWideModsLost | TimeAPI/src/time/api/input/InputManager.java:28 | a saved key binding whose modifier mask needs two digits never reads back |
| Input.LoadKeepsScanBindings | TimeAPI/src/time/api/input/InputManager.java:91-103 | loading a file never changes the scan code bindings or the pending rebind, and every key code reference it adds comes from one of its lines |
| Input.NumericValue | TimeAPI/src/time/api/input/InputManager.java:250-252 | `Character.getNumericValue` lies between -1 and 35 and gives a decimal digit its value |
| Input.NumericValueCaseless | TimeAPI/src/time/api/input/InputManager.java:250-252 | a letter is worth the same in either case, and at least 10 |
| Input.InputManager.constructor | TimeAPI/src/time/api/input/InputManager.java:31-43 | no pending rebind, no bindings, no states, an empty queue, and the save file off |
| Input.InputManager.Update | TimeAPI/src/time/api/input/InputManager.java:50-60 | the states become the settled states and the delayed meta states of named keys are cleared |
| Input.InputManager.Rebind | TimeAPI/src/time/api/input/InputManager.java:62-68 | the pending rebind is set only to a name that has a state |
| Input.InputManager.UpdateInput | TimeAPI/src/time/api/input/InputManager.java:177-209 | the key callback's whole effect is `KeyEvent`, whose cases the lemmas above describe |
| Input.InputManager.GetKeyName | TimeAPI/src/time/api/input/InputManager.java:220-232 | the name the current bindings give the event |
| Input.InputManager.QueueChar | TimeAPI/src/time/api/input/InputManager.java:240-242 | the code point joins the queue |
| Input.InputManager.QueueCharValue | TimeAPI/src/time/api/input/InputManager.java:250-252 | the character's numeric value, not its code point, joins the queue |
| Input.InputManager.UseSaveFile | TimeAPI/src/time/api/input/InputManager.java:456-458 | sets whether the binding file is used |
| Input.InputManager.LoadLine | TimeAPI/src/time/api/input/InputManager.java:91-101 | an accepted line binds its reference to its name, up and not delayed; any other line changes nothing |
| Input.InputManager.LoadInputs | TimeAPI/src/time/api/input/InputManager.java:74-108 | with the save file off, or no file, nothing changes; otherwise the lines are loaded front to back |
| Input.InputManager.NextCharUnicode | TimeAPI/src/time/api/input/InputManager.java:270-272 | an empty queue raises `NullPointerException`; otherwise the smallest queued value is removed and returned, not the oldest |
| Input.InputManager.NextChar | TimeAPI/src/time/api/input/InputManager.java:260-262 | the smallest queued value is removed and its first UTF-16 unit returned; an empty queue raises `NullPointerException` |
| Input.InputManager.HasNextChar | TimeAPI/src/time/api/input/InputManager.java:280-282 | true exactly when something is queued |
| Input.InputManager.ClearCharQueue | TimeAPI/src/time/api/input/InputManager.java:289-291 | the queue becomes empty |
| Input.InputManager.RemoveKey | TimeAPI/src/time/api/input/InputManager.java:298-301 | only the name's state is removed; its bindings and meta state stay |
| Input.InputManager.GetKeyState | TimeAPI/src/time/api/input/InputManager.java:309-311 | the name's state, or `null` for a name without one |
| Input.InputManager.GetMetaState | TimeAPI/src/time/api/input/InputManager.java:319-321 | the name's meta state, or `null` for a name without one |
| Input.InputManager.WasPressed | TimeAPI/src/time/api/input/InputManager.java:354-356 | true exactly when the name's state is pressed |
| Input.InputManager.WasReleased | TimeAPI/src/time/api/input/InputManager.java:365-367 | true exactly when the name's state is released |
| Input.InputManager.IsDown | TimeAPI/src/time/api/input/InputManager.java:376-378 | true exactly when the name's state is down |
| Input.InputManager.IsUp | TimeAPI/src/time/api/input/InputManager.java:387-389 | true exactly when the name's state is up |
| Input.InputManager.IsDownDelay | TimeAPI/src/time/api/input/InputManager.java:400-402 | true exactly when the name is down and its meta state is delayed |
| Input.InputManager.RegisterScan | TimeAPI/src/time/api/input/InputManager.java:419-425 | binds the reference in the scan map, sets the name up and its meta state to none |
| Input.InputManager.RegisterScanCode | TimeAPI/src/time/api/input/InputManager.java:410-412 | the same under the reference `scan$mods` |
| Input.InputManager.RegisterKey | TimeAPI/src/time/api/input/InputManager.java:442-448 | binds the reference in the key map, sets the name up and its meta state to none |
| Input.InputManager.RegisterKeyCode | TimeAPI/src/time/api/input/InputManager.java:433-435 | the same under the reference `key#mods` |
| LegacyInput.Settled | TimeAPI/src/input/InputManager.java:25-28 | a frame update leaves a key up or down, and down exactly when it was pressed or down |
| LegacyInput.SettleStates | TimeAPI/src/input/InputManager.java:22-30 | the frame update keeps the set of named keys |
| LegacyInput.SettleIdempotent | TimeAPI/src/input/InputManager.java:22-30 | two frame updates in a row equal one |
| LegacyInput.Hit | TimeAPI/src/input/InputManager.java:42-45 | a press or release changes only the bound name's state |
| LegacyInput.AfterKeyBinding | TimeAPI/src/input/InputManager.java:40-49 | the key code step leaves the scan map and the set of names alone and never adds a key binding |
| LegacyInput.AfterScanBinding | TimeAPI/src/input/InputManager.java:51-60 | the scan code step leaves the key map and the set of names alone and never adds a scan binding |
| LegacyInput.KeyEventFrame | TimeAPI/src/input/InputManager.java:32-61 | an event adds no binding and no name, and leaves the state of every name it is not bound to |
| LegacyInput.PressReachesBothBindings | TimeAPI/src/input/InputManager.java:40-60 | a press bound both by key code and by scan code marks both names pressed |
| LegacyInput.StaleScanBindingDropped | TimeAPI/src/input/InputManager.java:57-59 | a scan binding to a name without a state is removed, and no other scan binding is |
| LegacyInput.StaleKeyBindingKept | TimeAPI/src/input/InputManager.java:46-48 | a key binding to a name without a state survives, because the scan code reference is removed from the key map instead |
| LegacyInput.BoundKeyPressIsHeld | TimeAPI/src/input/InputManager.java:91-100 | after `addKey`, a press marks the name pressed and the next frame update makes it down |
| LegacyInput.InputManager.constructor | TimeAPI/src/input/InputManager.java:13-15 | no bindings and no states |
| LegacyInput.InputManager.Update | TimeAPI/src/input/InputManager.java:22-30 | the states become the settled states |
| LegacyInput.InputManager.UpdateInput | TimeAPI/src/input/InputManager.java:32-61 | the callback's whole effect is `KeyEvent`: nothing for a repeat, otherwise the key code step and then the scan code step |
| LegacyInput.InputManager.RemoveKey | TimeAPI/src/input/InputManager.java:63-67 | only the state is removed; the bindings stay |
| LegacyInput.InputManager.GetKey | TimeAPI/src/input/InputManager.java:69-71 | the name's state, or `null` for a name without one |
| LegacyInput.InputManager.AddScan | TimeAPI/src/input/InputManager.java:84-89 | binds the reference in the scan map and sets the name up |
| LegacyInput.InputManager.AddScanCode | TimeAPI/src/input/InputManager.java:80-82 | the same under `scan$mods` |
| LegacyInput.InputManager.AddKey | TimeAPI/src/input/InputManager.java:95-100 | binds the reference in the key map and sets the name up |
| LegacyInput.InputManager.AddKeyCode | TimeAPI/src/input/InputManager.java:91-93 | the same under `key#mods` |
| Textures.GenTexture | TimeAPI/src/time/api/gfx/texture/Texture.java:87-92 | a texture is made exactly when the pixel count is width times height, and keeps the pixels and size; otherwise `IllegalArgumentException` |
| Textures.RowMajor | TimeAPI/src/time/api/gfx/texture/SpriteSheet.java:58-62 | the row-major index of a pixel inside the image lies inside the raw array, within its own row |
| Textures.RowMajorLess | TimeAPI/src/time/api/gfx/texture/SpriteSheet.java:58-62 | row-major indexing preserves the order of positions, so no two pixels share an index |
| Textures.RowMajorOnto | TimeAPI/src/time/api/gfx/texture/SpriteSheet.java:58-62 | every raw index is the row-major index of some pixel |
| Textures.FrameUnique | TimeAPI/src/time/api/gfx/texture/SpriteSheet.java:64-72 | a frame's data is determined by the image and the frame's position |
| Textures.FirstMisfit | TimeAPI/src/time/api/gfx/texture/SpriteSheet.java:64-79 | when a frame reads outside the image, exactly the frames before it in row-major order have been cut, and the sheet does not fit |
| Textures.NoMisfit | TimeAPI/src/time/api/gfx/texture/SpriteSheet.java:64-74 | when every frame reads inside the image, every frame is cut and the grid fits |
| Textures.SpriteSheet.constructor | TimeAPI/src/time/api/gfx/texture/SpriteSheet.java:31-37 | a `spritesY` by `spritesX` grid of empty cells, indexed row then column, with the given frame size |
| Textures.SpriteSheet.SetTexture | TimeAPI/src/time/api/gfx/texture/SpriteSheet.java:108-112 | the one cell is set, to `null` as well, and every other cell is unchanged; a position off the grid raises `ArrayIndexOutOfBoundsException` and changes nothing |
| Textures.SpriteSheet.GetTexture | TimeAPI/src/time/api/gfx/texture/SpriteSheet.java:122-124 | the cell at row `y`, column `x`; a position off the grid raises `ArrayIndexOutOfBoundsException` |
| Textures.SpriteSheet.Unpack | TimeAPI/src/time/api/gfx/texture/SpriteSheet.java:56-62 | `pixels[i][j]` is the raw value at `j + i*totalWidth` |
| Textures.SpriteSheet.CopyRow | TimeAPI/src/time/api/gfx/texture/SpriteSheet.java:68-70 | one frame row: `ok` exactly when every read of row `y` from column `x0` lies inside the image; then the copied entries equal those pixels, and no entry of `data` outside the row changes |
| Textures.SpriteSheet.CutFrame | TimeAPI/src/time/api/gfx/texture/SpriteSheet.java:66-71 | frame (i, j) has `frameWidth*frameHeight` entries with `data[l + k*frameWidth] == pixels[k + i*frameHeight][l + j*frameWidth]`; a frame reaching outside the image raises `ArrayIndexOutOfBoundsException` |
| Textures.SpriteSheet.LoadTexture | TimeAPI/src/time/api/gfx/texture/SpriteSheet.java:46-82 | an unreadable image changes nothing; otherwise the size is recorded, the load completes exactly when the grid fits the image, each frame cut before a failure holds its slice of the image, and the later cells are unchanged |
| Textures.DynamicTexture.Empty | TimeAPI/src/time/api/gfx/texture/DynamicTexture.java:15 | no sprite sheet, at (0, 0) |
| Textures.DynamicTexture.constructor | TimeAPI/src/time/api/gfx/texture/DynamicTexture.java:33-37 | the given sheet, at (0, 0) |
| Textures.DynamicTexture.FromTexture | TimeAPI/src/time/api/gfx/texture/DynamicTexture.java:23-25 | a new 1 by 1 sheet of the texture's size holding the texture, at (0, 0) |
| Textures.DynamicTexture.SetSpriteSheet | TimeAPI/src/time/api/gfx/texture/DynamicTexture.java:46-50 | the sheet is replaced, by `null` as well, and the position kept |
| Textures.DynamicTexture.SwapTo | TimeAPI/src/time/api/gfx/texture/DynamicTexture.java:59-93 | both coordinates are set exactly, with no bounds check |
| Textures.DynamicTexture.Swap | TimeAPI/src/time/api/gfx/texture/DynamicTexture.java:70-73 | `x` becomes the truncated remainder and `y` the floor quotient of `i` by the sheet's width; no sheet is a `NullPointerException` and a zero width an `ArithmeticException`, both leaving the position |
| Textures.DynamicTexture.IncrementX | TimeAPI/src/time/api/gfx/texture/DynamicTexture.java:101-108 | true and one step right when that stays inside the sheet's width; otherwise false and `x` unchanged; with no sheet, `x` has already moved when the `NullPointerException` is raised |
| Textures.DynamicTexture.IncrementY | TimeAPI/src/time/api/gfx/texture/DynamicTexture.java:116-123 | the same against the sheet's height, touching only `y` |
| Textures.DynamicTexture.GetTexture | TimeAPI/src/time/api/gfx/texture/DynamicTexture.java:151-153 | the sheet's cell at the current position, with the sheet's errors |
| Textures.SwapIndexRoundTrip | TimeAPI/src/time/api/gfx/texture/DynamicTexture.java:70-73 | for a non-negative index the position is on the sheet's columns and `y*spritesX + x == i` |
| Textures.SwapNegativeIndex | TimeAPI/src/time/api/gfx/texture/DynamicTexture.java:70-73 | a negative index that is not a multiple of the width gives a negative `x` and `y`, because the remainder truncates while the quotient floors |
| Textures.IncrementStaysOnSheet | TimeAPI/src/time/api/gfx/texture/DynamicTexture.java:101-123 | a position inside the sheet stays inside it after an increment, and the step does not wrap |
| Textures.NextMark | TimeAPI/src/time/api/gfx/texture/Animation.java:44-48 | the next frame holds when the following entry is -1 and otherwise advances modulo the length, staying in range |
| Textures.Due | TimeAPI/src/time/api/gfx/texture/Animation.java:41 | a frame is due exactly when the accumulated time times the speed passes 1, the comparison reversed for a negative speed; never at speed 0, where `1f / speed` is infinite |
| Textures.Steps | TimeAPI/src/time/api/gfx/texture/Animation.java:39-50 | any number of advances stays in range |
| Textures.CyclesWithoutHolds | TimeAPI/src/time/api/gfx/texture/Animation.java:44-48 | with no -1 entry, n advances move the mark forward by n modulo the length |
| Textures.NextMarkWithoutHold | TimeAPI/src/time/api/gfx/texture/Animation.java:44-48 | with no -1 entry, one advance is `(mark + 1) % length` |
| Textures.HoldIsPermanent | TimeAPI/src/time/api/gfx/texture/Animation.java:44-46 | once the next entry is -1 the mark never moves again |
| Textures.Animation.Empty | TimeAPI/src/time/api/gfx/texture/Animation.java:10-19 | no texture and no indices, mark 0, speed 1, nothing accumulated |
| Textures.Animation.constructor | TimeAPI/src/time/api/gfx/texture/Animation.java:28-31 | the given texture and indices, mark 0, speed 1 |
| Textures.Animation.SetSpeed | TimeAPI/src/time/api/gfx/texture/Animation.java:69-72 | sets the speed |
| Textures.Animation.SetIndices | TimeAPI/src/time/api/gfx/texture/Animation.java:103-106 | sets the indices |
| Textures.Animation.SetDynamicTexture | TimeAPI/src/time/api/gfx/texture/Animation.java:91-94 | sets the texture, `null` included |
| Textures.ShowOutcome | TimeAPI/src/time/api/gfx/texture/Animation.java:43 | showing entry `m` succeeds exactly when the indices are set, `m` is inside them, and the texture, its sheet and a non-zero sheet width are present; otherwise it names the exception raised first: NullPointer, IndexOutOfBounds, NullPointer, Arithmetic |
| Textures.Animation.Show | TimeAPI/src/time/api/gfx/texture/Animation.java:43 | `dynTex.swap(indices[m])` raises exactly what `ShowOutcome` names; on success the texture's cursor is at sprite `indices[m]`; a failure leaves the texture unchanged |
| Textures.Animation.Update | TimeAPI/src/time/api/gfx/texture/Animation.java:39-50 | below the threshold only the accumulated time grows; once it exceeds `1/speed` it is zeroed, the outcome is `ShowOutcome` of the old mark, and on success the texture shows `indices[mark]` and the mark advances as `NextMark` says; a failure leaves the mark and the texture; the texture keeps its sprite sheet |
| Textures.Animation.SetMark | TimeAPI/src/time/api/gfx/texture/Animation.java:145-150 | the mark is set first; the outcome is `ShowOutcome` of `m`; on success the texture shows `indices[m]` and the accumulated time is zeroed; a failure keeps the accumulated time and the texture; the texture keeps its sprite sheet |
| Textures.Animation.ResetDeltaStack | TimeAPI/src/time/api/gfx/texture/Animation.java:158-162 | the accumulated time becomes 0 |
| Textures.Animation.Reset | TimeAPI/src/time/api/gfx/texture/Animation.java:170-176 | mark and accumulated time become 0; the outcome is `ShowOutcome` of entry 0; on success the texture shows `indices[0]`, and a failure leaves the texture unchanged; the texture keeps its sprite sheet |
| Entities.NewGroup | TimeAPI/src/time/api/entity/EntityManager.java:175-190 | a new group has its name, no entities, and is active and visible |
| Entities.Purge | TimeAPI/src/time/api/entity/EntityManager.java:39-45 | removing the trashed names leaves exactly the other names, each with its old value |
| Entities.PurgeAgain | TimeAPI/src/time/api/entity/EntityManager.java:13-15 | the trash is never emptied: purging twice equals purging once, and a trashed name added again is removed at the next update |
| Entities.GroupUpdates | TimeAPI/src/time/api/entity/EntityManager.java:198-203 | an active group updates each of its entities once, in order; an inactive one updates none |
| Entities.GroupDraws | TimeAPI/src/time/api/entity/EntityManager.java:210-215 | a visible group draws each of its entities once, in order; a hidden one draws none |
| Entities.EntityUpdates | TimeAPI/src/time/api/entity/EntityManager.java:47-49 | one update per entity, in iteration order |
| Entities.EntityDraws | TimeAPI/src/time/api/entity/EntityManager.java:62-64 | one draw per entity, in iteration order |
| Entities.InactiveGroupsUpdateNothing | TimeAPI/src/time/api/entity/EntityManager.java:51-53 | when no group is active, updating the groups updates no entity |
| Entities.UpdatedOnce | TimeAPI/src/time/api/entity/EntityManager.java:47-49 | each entity is updated exactly once per frame, at its place in the iteration order |
| Entities.EntityUpdatesAppend | TimeAPI/src/time/api/entity/EntityManager.java:47-49 | one more name in the iteration adds exactly that entity's update at the end |
| Entities.EntityDrawsAppend | TimeAPI/src/time/api/entity/EntityManager.java:62-64 | one more name in the iteration adds exactly that entity's draw at the end |
| Entities.AllGroupUpdatesAppend | TimeAPI/src/time/api/entity/EntityManager.java:51-53 | one more group in the iteration adds exactly that group's updates at the end |
| Entities.AllGroupDrawsAppend | TimeAPI/src/time/api/entity/EntityManager.java:66-68 | one more group in the iteration adds exactly that group's draws at the end |
| Entities.EntityManager.constructor | TimeAPI/src/time/api/entity/EntityManager.java:23-29 | no entities, no groups and empty trash lists |
| Entities.EntityManager.EmptyTrash | TimeAPI/src/time/api/entity/EntityManager.java:39-45 | every trashed entity and group name is removed, and the trash lists are kept |
| Entities.EntityManager.Update | TimeAPI/src/time/api/entity/EntityManager.java:37-54 | the trash is purged before anything is updated; then each remaining entity, then each active group's entities, are updated in iteration order |
| Entities.EntityManager.Draw | TimeAPI/src/time/api/entity/EntityManager.java:61-69 | each entity, then each visible group's entities, are drawn in iteration order, and nothing is removed |
| Entities.EntityManager.UpdateEntities | TimeAPI/src/time/api/entity/EntityManager.java:47-49 | the loop records the updates `EntityUpdates` describes |
| Entities.EntityManager.UpdateGroups | TimeAPI/src/time/api/entity/EntityManager.java:51-53 | the loop records the updates of every group in turn |
| Entities.EntityManager.UpdateGroup | TimeAPI/src/time/api/entity/EntityManager.java:198-203 | the loop records the group's updates |
| Entities.EntityManager.DrawGroup | TimeAPI/src/time/api/entity/EntityManager.java:210-215 | the loop records the group's draws |
| Entities.EntityManager.DrawEntities | TimeAPI/src/time/api/entity/EntityManager.java:62-64 | the loop records every entity's draw |
| Entities.EntityManager.DrawGroups | TimeAPI/src/time/api/entity/EntityManager.java:66-68 | the loop records the draws of every group in turn |
| Entities.EntityManager.AddEntity | TimeAPI/src/time/api/entity/EntityManager.java:79-82 | the entity is stored under its name, replacing any earlier one |
| Entities.EntityManager.TrashEntities | TimeAPI/src/time/api/entity/EntityManager.java:91-95 | the names are appended to the entity trash; the entities stay retrievable |
| Entities.EntityManager.TrashGroups | TimeAPI/src/time/api/entity/EntityManager.java:104-108 | the names are appended to the group trash |
| Entities.EntityManager.GetEntity | TimeAPI/src/time/api/entity/EntityManager.java:117-119 | the entity under the name, or `null` |
| Entities.EntityManager.AddGroups | TimeAPI/src/time/api/entity/EntityManager.java:128-134 | each name gets a new empty group, replacing an existing one; other groups are untouched |
| Entities.EntityManager.GetEntitiesFromGroup | TimeAPI/src/time/api/entity/EntityManager.java:143-145 | the group's entities, or `NullPointerException` for an unknown group |
| Entities.EntityManager.AddToGroup | TimeAPI/src/time/api/entity/EntityManager.java:155-159 | the entities are appended to the group in order; an unknown group raises `NullPointerException` unless there is nothing to add |
| Entities.EntityManager.Destroy | TimeAPI/src/time/api/entity/EntityManager.java:166-172 | the groups are emptied and the entities are left alone |
| AudioSystem.RoutingPartitions | TimeAPI/src/time/api/audio/AudioHandler.java:182-189 | every queued event lands in exactly one queue: an event of the batch reaches the loop queue exactly when it is flagged as a loop event and the temporary queue exactly when it is not, and the two queues together are the batch as a multiset |
| AudioSystem.RoutingAppend | TimeAPI/src/time/api/audio/AudioHandler.java:182-189 | routing keeps order: two batches route as the first followed by the second |
| AudioSystem.ArgValue | TimeAPI/src/time/api/audio/AudioHandler.java:73-142 | reading `PARAMS[k]` past the end raises `ArrayIndexOutOfBoundsException` |
| AudioSystem.StepCommand | TimeAPI/src/time/api/audio/AudioHandler.java:73-142 | one source call fails only on a missing parameter or a null sound |
| AudioSystem.Execute | TimeAPI/src/time/api/audio/AudioHandler.java:71-95 | the calls of a case run in order until the first failure; with no failure all of them run |
| AudioSystem.ExecuteOne | TimeAPI/src/time/api/audio/AudioHandler.java:83-91 | a one-call case succeeds exactly when its call does |
| AudioSystem.ExecuteTwo | TimeAPI/src/time/api/audio/AudioHandler.java:127-137 | a two-call case succeeds exactly when both calls do, in order |
| AudioSystem.ExecuteThree | TimeAPI/src/time/api/audio/AudioHandler.java:72-76 | a three-call case succeeds exactly when all three do, in order |
| AudioSystem.ExecuteFour | TimeAPI/src/time/api/audio/AudioHandler.java:77-82 | a four-call case succeeds exactly when all four do, in order |
| AudioSystem.TempRunOutcome | TimeAPI/src/time/api/audio/AudioHandler.java:71-95 | a temporary event completes exactly when it has the parameters its case reads and, for a play, a sound; a play sets gain `PARAMS[0]` and pitch `PARAMS[1]` then plays, and a fading play starts at gain 0 and fades to `PARAMS[0]` over `PARAMS[2]` |
| AudioSystem.LoopPlanOutcome | TimeAPI/src/time/api/audio/AudioHandler.java:112-144 | a loop event completes exactly when it has the parameters its case reads and, for a play, a sound, and a play's third call plays the event's sound |
| AudioSystem.PlansPlayAtMostOnce | TimeAPI/src/time/api/audio/AudioHandler.java:71-144 | a play case contains exactly one play call and every other case none |
| AudioSystem.TempPlanPlaysAtMostOnce | TimeAPI/src/time/api/audio/AudioHandler.java:71-95 | one temporary event starts at most one sound |
| AudioSystem.FirstFree | TimeAPI/src/time/api/audio/AudioHandler.java:69-70 | the lowest-index temporary source that is not playing, or none when all are playing |
| AudioSystem.CountFreeTake | TimeAPI/src/time/api/audio/AudioHandler.java:69-75 | taking a free source leaves one free source fewer |
| AudioSystem.TempPass | TimeAPI/src/time/api/audio/AudioHandler.java:67-106 | the pass over the temporary queue keeps the number of sources |
| AudioSystem.PlaysUseFreeSources | TimeAPI/src/time/api/audio/AudioHandler.java:67-106 | each sound started in a pass uses up one free source, so a pass starts at most as many sounds as there were free sources |
| AudioSystem.AllBusyDropsEverything | TimeAPI/src/time/api/audio/AudioHandler.java:98-105 | when every temporary source is playing the first event and all later ones are dropped, with no call made |
| AudioSystem.WellFormedTempPassSucceeds | TimeAPI/src/time/api/audio/AudioHandler.java:67-106 | a pass over events that each carry their parameters and sound never fails |
| AudioSystem.FloatToInt | TimeAPI/src/time/api/audio/AudioHandler.java:111 | the `(int)` cast of a float lies in `int` and is the floor for values from 0 to the maximum |
| AudioSystem.FloatToIntExact | TimeAPI/src/time/api/audio/AudioHandler.java:111 | a source number of magnitude at most 2^24, sent as a float parameter and cast back with `(int)`, comes back unchanged |
| AudioSystem.LoopRunExecutes | TimeAPI/src/time/api/audio/AudioHandler.java:110-144 | a loop event whose `PARAMS[0]` names a loop source runs its case on that source |
| AudioSystem.LoopPassTargetsLoopSources | TimeAPI/src/time/api/audio/AudioHandler.java:110-145 | every call made by the loop pass goes to a loop source in range |
| AudioSystem.AudioHandler.constructor | TimeAPI/src/time/api/audio/AudioHandler.java:19-30 | both queues empty, running, error 0 |
| AudioSystem.AudioHandler.Queue | TimeAPI/src/time/api/audio/AudioHandler.java:182-189 | loop events are appended to the loop queue and the rest to the temporary queue, each in order |
| AudioSystem.AudioHandler.SetError | TimeAPI/src/time/api/audio/AudioHandler.java:195-197 | sets the error code |
| AudioSystem.AudioHandler.FindFree | TimeAPI/src/time/api/audio/AudioHandler.java:69-101 | the search loop finds `FirstFree` |
| AudioSystem.AudioHandler.RunTempQueue | TimeAPI/src/time/api/audio/AudioHandler.java:67-106 | the nested loop with its terminate flag performs `TempPass` |
| AudioSystem.AudioHandler.RunLoopQueue | TimeAPI/src/time/api/audio/AudioHandler.java:110-145 | the loop performs `LoopPass` |
| AudioSystem.AudioHandler.HandleEvents | TimeAPI/src/time/api/audio/AudioHandler.java:66-148 | the temporary pass, then the loop pass; each queue is cleared after its pass whether or not its events were applied, and a failure escapes before the clearing that follows it |
| AudioSystem.FadeLoopGainEvents | TimeAPI/src/time/api/audio/AudioManager.java:43-49 | one loop fade-gain event per source, in argument order, with `PARAMS = [s, target, duration]` |
| AudioSystem.FadeLoopPitchEvents | TimeAPI/src/time/api/audio/AudioManager.java:57-63 | one loop fade-pitch event per source, in argument order, with `PARAMS = [s, target, duration]` |
| AudioSystem.LoopControlEvents | TimeAPI/src/time/api/audio/AudioManager.java:97-163 | one loop event per source, with `PARAMS = [s]`, or `[s, duration]` for the fading forms |
| AudioSystem.ManagerLoopEventsTargetSource | TimeAPI/src/time/api/audio/AudioManager.java:97-163 | a stop or pause event acts on the source it was built for: it completes on a loop source in range and fails on any other |
| AudioSystem.LibraryAudio | TimeAPI/src/time/api/audio/AudioLibrary.java:49-58 | a registered name gives its sound; any other raises `IllegalArgumentException` |
| AudioSystem.AudioManager.constructor | TimeAPI/src/time/api/audio/AudioManager.java:19 | no handler yet |
| AudioSystem.AudioManager.Start | TimeAPI/src/time/api/audio/AudioManager.java:25-31 | a new handler with empty queues |
| AudioSystem.AudioManager.QueueEach | TimeAPI/src/time/api/audio/AudioManager.java:45-48 | queues each event in turn; with no handler the first one raises `NullPointerException` |
| AudioSystem.AudioManager.FadeLoopGain | TimeAPI/src/time/api/audio/AudioManager.java:43-49 | appends `FadeLoopGainEvents` to the loop queue; the temporary queue, running flag, error code and source calls are unchanged |
| AudioSystem.AudioManager.FadeLoopPitch | TimeAPI/src/time/api/audio/AudioManager.java:57-63 | appends `FadeLoopPitchEvents` to the loop queue; the temporary queue, running flag, error code and source calls are unchanged |
| AudioSystem.AudioManager.SetLoopGain | TimeAPI/src/time/api/audio/AudioManager.java:70-73 | the same as fading the gain over zero time, with the rest of the handler unchanged |
| AudioSystem.AudioManager.SetLoopPitch | TimeAPI/src/time/api/audio/AudioManager.java:80-83 | the same as fading the pitch over zero time, with the rest of the handler unchanged |
| AudioSystem.AudioManager.StopLoop | TimeAPI/src/time/api/audio/AudioManager.java:97-123 | `STOP [s]` per source, or `STOP_FADE [s, d]` with a duration, on the loop queue; the rest of the handler is unchanged |
| AudioSystem.AudioManager.PauseLoop | TimeAPI/src/time/api/audio/AudioManager.java:137-163 | `PAUSE [s]` per source, or `PAUSE_FADE [s, d]` with a duration, on the loop queue; the rest of the handler is unchanged |
| AudioSystem.FirstMissing | TimeAPI/src/time/api/audio/AudioManager.java:173-210 | the position of the first name without a registered clip: every name before it is registered, and the name there is not |
| AudioSystem.AudioManager.PlayClips | TimeAPI/src/time/api/audio/AudioManager.java:173-210 | one temporary play event per name, in order, for the names before the first unregistered one (`FirstMissing`); an unregistered name stops the handler with error 1 and raises `IllegalArgumentException`; the loop queue and the source calls are untouched, and with every name registered so are the running flag and error code |
| AudioSystem.AudioManager.PlayLoop | TimeAPI/src/time/api/audio/AudioManager.java:190-224 | one loop play event whose `PARAMS[0]` is the source; an unregistered name stops the handler with error 1 and raises `IllegalArgumentException`; the source calls are untouched, and with the name registered so are the temporary queue, running flag and error code |
| AudioSystem.AudioManager.Destroy | TimeAPI/src/time/api/audio/AudioManager.java:230-242 | sets the handler's error and clears its running flag, and nothing else |
| AudioSystem.AllLoop | TimeAPI/src/time/api/audio/AudioHandler.java:182-189 | a batch of loop events all go to the loop queue |
| AudioSystem.LoopPlayEventRuns | TimeAPI/src/time/api/audio/AudioManager.java:190-224 | a loop play event built for a loop source in range runs on that source and starts exactly one sound |
| AudioSystem.PlayEvents | TimeAPI/src/time/api/audio/AudioManager.java:173-210 | one play event per name, in order, carrying that name's sound |
| AudioSystem.PlayEventsComplete | TimeAPI/src/time/api/audio/AudioManager.java:173-210 | the events `play` queues never fail in the temporary pass |
| AudioSystem.Int16LE | TimeAPI/src/time/api/audio/Audio.java:55-57 | `getShort` in little-endian order is a signed 16-bit value |
| AudioSystem.Int32LE | TimeAPI/src/time/api/audio/Audio.java:53 | `getInt` in little-endian order is a signed 32-bit value |
| AudioSystem.DecodeWav | TimeAPI/src/time/api/audio/Audio.java:20-67 | sample rate at byte 24, channels at 22, bits per sample at 34, samples from byte 44; MONO exactly for one channel and the 8-bit formats exactly for 8 bits; too short a file raises `IndexOutOfBoundsException` or `IllegalArgumentException`; any width but 8 or 16 raises `IllegalStateException`; no tag is checked |
| AudioSystem.LE16RoundTrip | TimeAPI/src/time/api/audio/Audio.java:55-57 | a 16-bit field written little-endian reads back as itself |
| AudioSystem.LE32RoundTrip | TimeAPI/src/time/api/audio/Audio.java:53 | a 32-bit field written little-endian reads back as itself |
| AudioSystem.DecodeCanonical | TimeAPI/src/time/api/audio/Audio.java:53-65 | a canonical RIFF WAVE file decodes to the rate, channels, width and samples it was written with, in the matching format |
| AudioSystem.CanonicalWav | TimeAPI/src/time/api/audio/Audio.java:53-65 | the header is 44 bytes with `RIFF`, `WAVE` and `data` at their offsets, and the samples follow it unchanged |
| AudioSystem.Audio.constructor | TimeAPI/src/time/api/audio/Audio.java:35-79 | a decodable file sets the fields from its header; an unreadable one leaves them zero |
| AudioSystem.Audio.CreateAudio | TimeAPI/src/time/api/audio/Audio.java:39-79 | an undecodable file's exception escapes; otherwise a new sound with the decoded header, or no data when the file cannot be read |
| Fonts.SplitPath | TimeAPI/src/time/api/gfx/font/FontType.java:22-31 | the folder and file of a font path; a path that splits into nothing (only slashes, or empty) raises `ArrayIndexOutOfBoundsException` |
| Fonts.FolderJoin | TimeAPI/src/time/api/gfx/font/FontType.java:23-28 | every segment but the last, each followed by `/`, then the last segment, is the segments joined with `/` |
| Fonts.SplitPathRestores | TimeAPI/src/time/api/gfx/font/FontType.java:22-31 | for a path not ending in `/`, folder plus file is the path |
| Fonts.BuildFolder | TimeAPI/src/time/api/gfx/font/FontType.java:25-28 | the StringBuilder loop builds `FolderOf` |
| Fonts.StringProperty | TimeAPI/src/time/api/gfx/font/FontType.java:72-74 | the piece after the first `=` with every `"` removed; a property with no such piece raises `ArrayIndexOutOfBoundsException` |
| Fonts.IntProperty | TimeAPI/src/time/api/gfx/font/FontType.java:83-85 | the piece after the first `=` parsed as an `int`, or the index or number format exception |
| Fonts.PropertySplits | TimeAPI/src/time/api/gfx/font/FontType.java:73 | `key=value` with neither holding `=` splits into the key and the value |
| Fonts.IntPropertyRoundTrip | TimeAPI/src/time/api/gfx/font/FontType.java:83-85 | `key=n` reads back as `n` for any `int` |
| Fonts.StringPropertyRoundTrip | TimeAPI/src/time/api/gfx/font/FontType.java:72-74 | `key="value"` reads back as `value` |
| Fonts.Collect | TimeAPI/src/time/api/gfx/font/FontType.java:53-55 | the eight fields are read left to right and the first failure is what escapes |
| Fonts.CollectOk | TimeAPI/src/time/api/gfx/font/FontType.java:53-55 | when every field reads, the values come out in order |
| Fonts.FieldAt | TimeAPI/src/time/api/gfx/font/FontType.java:53-55 | reading token `k` fails only on a missing token or a bad number |
| Fonts.IntFields | TimeAPI/src/time/api/gfx/font/FontType.java:53-55 | reading a run of fields yields one value per field |
| Fonts.ParseLine | TimeAPI/src/time/api/gfx/font/FontType.java:46-57 | a line whose first token is neither `page` nor `char` changes nothing; a line changes either the page or the glyphs, and never loses a glyph |
| Fonts.ParseLines | TimeAPI/src/time/api/gfx/font/FontType.java:45-58 | the lines of a file never lose a glyph or unset the page texture, and no lines change nothing |
| Fonts.LoadFont | TimeAPI/src/time/api/gfx/font/FontType.java:40-63 | the glyph table starts empty, and a missing file leaves it empty with the page unchanged; a loaded page texture is never unset |
| Fonts.ParseLinesAppend | TimeAPI/src/time/api/gfx/font/FontType.java:45-58 | the lines are read in order, the first failure stopping the rest |
| Fonts.CharTokensSplit | TimeAPI/src/time/api/gfx/font/FontType.java:46 | a `char` line splits on runs of spaces into its nine tokens |
| Fonts.CharFields | TimeAPI/src/time/api/gfx/font/FontType.java:53-55 | tokens 1 to 8 read back as the id and the seven glyph fields |
| Fonts.CharLineRoundTrip | TimeAPI/src/time/api/gfx/font/FontType.java:52-55 | a `char` line adds its glyph under the id in token 1, its fields taken from tokens 2 to 8 by position |
| Fonts.PageLineRoundTrip | TimeAPI/src/time/api/gfx/font/FontType.java:49-51 | a `page` line sets the texture to the folder plus the unquoted file in token 2 |
| Fonts.LaterCharWins | TimeAPI/src/time/api/gfx/font/FontType.java:53 | a repeated char id overwrites the earlier glyph |
| Fonts.GlyphOf | TimeAPI/src/time/api/gfx/font/FontType.java:94-96 | the glyph stored under the character's code, or `null` |
| Fonts.ReadLines | TimeAPI/src/time/api/gfx/font/FontType.java:42-58 | the line loop performs `ParseLines` from an empty glyph table |
| Fonts.FontType.constructor | TimeAPI/src/time/api/gfx/font/FontType.java:12-14 | keeps the loaded glyphs and texture |
| Fonts.FontType.GetChar | TimeAPI/src/time/api/gfx/font/FontType.java:94-96 | the glyph for the character's code, or `null` |
| Fonts.CreateFontType | TimeAPI/src/time/api/gfx/font/FontType.java:22-63 | splits the path, then loads the file from the folder; a bad path or a bad line escapes, and a missing file leaves no glyphs |
| Fonts.LoadPath | TimeAPI/src/time/api/gfx/font/FontType.java:22-31 | the path split followed by `loadFont` |
| Fonts.Font.constructor | TimeAPI/src/time/api/gfx/font/Font.java:12-14 | keeps the loaded glyphs and texture |
| Fonts.Font.GetChar | TimeAPI/src/time/api/gfx/font/Font.java:61-63 | the glyph for the character's code, or `null` |
| Fonts.CreateFont | TimeAPI/src/time/api/gfx/font/Font.java:17-51 | the same path split and parser as `FontType`: folder plus file restores the path, and only `page` and `char` lines count |
| Fonts.Resolve | TimeAPI/src/time/api/gfx/font/FontRenderer.java:91-93 | a character missing from the font is drawn as `?` |
| Fonts.Quad | TimeAPI/src/time/api/gfx/font/FontRenderer.java:96-117 | the glyph's corners run clockwise from the top left at `cursor + X_OFFSET`, `-Y_OFFSET`, with texture corners from `T_X`, `T_Y` |
| Fonts.GlyphIndices | TimeAPI/src/time/api/gfx/font/FontRenderer.java:121-126 | six indices per glyph |
| Fonts.Vertices | TimeAPI/src/time/api/gfx/font/FontRenderer.java:85 | four vertices per glyph |
| Fonts.Indices | TimeAPI/src/time/api/gfx/font/FontRenderer.java:87 | six indices per glyph |
| Fonts.VerticesOfGlyph | TimeAPI/src/time/api/gfx/font/FontRenderer.java:89-119 | glyph i's four vertices are its quad at the cursor, which is the sum of the earlier glyphs' advances |
| Fonts.IndicesOfGlyph | TimeAPI/src/time/api/gfx/font/FontRenderer.java:121-126 | glyph i's indices are `[4i+3, 4i, 4i+1, 4i+3, 4i+1, 4i+2]` |
| Fonts.IndicesInRange | TimeAPI/src/time/api/gfx/font/FontRenderer.java:85-127 | every index names one of the `4n` vertices |
| Fonts.GlyphCoversQuad | TimeAPI/src/time/api/gfx/font/FontRenderer.java:121-126 | a glyph's two triangles use exactly its own four vertices |
| Fonts.PutQuad | TimeAPI/src/time/api/gfx/font/FontRenderer.java:99-117 | writes the quad at `4i` and keeps every other entry |
| Fonts.PutIndices | TimeAPI/src/time/api/gfx/font/FontRenderer.java:121-126 | writes the glyph's indices at `6i` and keeps every other entry |
| Fonts.BuildMesh | TimeAPI/src/time/api/gfx/font/FontRenderer.java:84-133 | the loop builds the mesh exactly when every character or `?` is in the font, and `NullPointerException` otherwise |
| Fonts.MeshStep | TimeAPI/src/time/api/gfx/font/FontRenderer.java:90-126 | one glyph extends the vertices by its quad, the indices by its six, and moves the cursor by its advance |
| Fonts.TextMesh | TimeAPI/src/time/api/gfx/font/FontRenderer.java:72-75 | empty text gives an empty mesh; otherwise `4n` vertices and `6n` indices, or `NullPointerException` |
| Fonts.WidthIsCursor | TimeAPI/src/time/api/gfx/font/FontRenderer.java:246-254 | the width is the sum of the advances times the size, the cursor after the last glyph |
| Fonts.HeightIsMax | TimeAPI/src/time/api/gfx/font/FontRenderer.java:262-274 | the height is the largest `(T_HEIGHT + Y_OFFSET) * size`, or 0 when none is positive |
| Fonts.FontRenderer.constructor | TimeAPI/src/time/api/gfx/font/FontRenderer.java:59-62 | keeps the text, font and size |
| Fonts.FontRenderer.Create | TimeAPI/src/time/api/gfx/font/FontRenderer.java:59-76 | a font without a page texture raises `NullPointerException` before any mesh is built; otherwise empty text gives an empty mesh without `createFont`, and other text builds its mesh or raises `NullPointerException`; a renderer comes back exactly when the texture exists and the mesh can be built |
| Fonts.FontRenderer.ReallocateText | TimeAPI/src/time/api/gfx/font/FontRenderer.java:135-143 | the text is replaced first; empty text gives an empty mesh, other text is rebuilt, and a failed rebuild keeps the old mesh |
| Fonts.FontRenderer.GetWidth | TimeAPI/src/time/api/gfx/font/FontRenderer.java:246-254 | the summed advances, or `NullPointerException` for a character missing from the font |
| Fonts.FontRenderer.GetHeight | TimeAPI/src/time/api/gfx/font/FontRenderer.java:262-274 | the largest glyph height, or `NullPointerException` for a character missing from the font |
| Shaders.ArrayNames | TimeAPI/src/time/api/gfx/shader/ShaderProgram.java:187-190 | the element names `u[0]` … `u[length-1]`, one per index, none for a non-positive length |
| Shaders.StructNames | TimeAPI/src/time/api/gfx/shader/ShaderProgram.java:199-202 | one name `u.c` per component, in component order |
| Shaders.Locations | TimeAPI/src/time/api/gfx/shader/ShaderProgram.java:176-178 | registering a list of names maps exactly those names, each to the location `glGetUniformLocation` gives it |
| Shaders.StructArrayNamesExact | TimeAPI/src/time/api/gfx/shader/ShaderProgram.java:212-215 | a struct array registers `u[i].c` for every index below the length and every component |
| Shaders.StructArrayNamesOnly | TimeAPI/src/time/api/gfx/shader/ShaderProgram.java:212-215 | every name a struct array registers is some `u[i].c` with the index below the length and `c` a component |
| Shaders.ArrayNameInjective | TimeAPI/src/time/api/gfx/shader/ShaderProgram.java:189 | an element name `u[i]` determines both the array name and the index |
| Shaders.ArrayNamesDistinct | TimeAPI/src/time/api/gfx/shader/ShaderProgram.java:187-190 | the elements of one array are registered under pairwise different names, so none overwrites another |
| Shaders.BindCalls | TimeAPI/src/time/api/gfx/shader/ShaderProgram.java:98-103 | `bind` issues no `glUseProgram` exactly when the program is already the bound one |
| Shaders.Bound | TimeAPI/src/time/api/gfx/shader/ShaderProgram.java:98-103 | after `bind` the program is the bound one, and at most the one `glUseProgram` call was added |
| Shaders.BindIdempotent | TimeAPI/src/time/api/gfx/shader/ShaderProgram.java:98-103 | binding twice in a row is binding once |
| Shaders.SendStep | TimeAPI/src/time/api/gfx/shader/ShaderProgram.java:236-240 | one `send*`: bind, then the uniform call at the registered location; an unregistered target unboxes `null` and throws `NullPointerException` after the bind |
| Shaders.FirstMissing | TimeAPI/src/time/api/gfx/shader/ShaderProgram.java:250-254 | the first element whose name is unregistered: all before it are registered |
| Shaders.SentCalls | TimeAPI/src/time/api/gfx/shader/ShaderProgram.java:250-254 | an array send makes one uniform call per element up to the first unregistered one |
| Shaders.SentCallsAt | TimeAPI/src/time/api/gfx/shader/ShaderProgram.java:250-254 | call `j` of an array send goes to `target[j]` with element `j` |
| Shaders.SendAllOutcome | TimeAPI/src/time/api/gfx/shader/ShaderProgram.java:250-254 | an array send completes exactly when every element's name is registered, otherwise throws `NullPointerException`; a non-empty send leaves the program bound |
| Shaders.SendAllLog | TimeAPI/src/time/api/gfx/shader/ShaderProgram.java:250-254 | an array send binds only when it has elements, then makes exactly the calls of `SentCalls` |
| Shaders.Length | TimeAPI/src/time/api/gfx/shader/StructDefiner.java:37 | every `GLSLType` occupies at least one float (`FLOAT`, `INT`, `DOUBLE` 1, `VEC2` 2, `VEC3` 3, `VEC4` 4, `MAT4` 16) |
| Shaders.CopyOfRange | TimeAPI/src/time/api/gfx/shader/ShaderProgram.java:430 | `Arrays.copyOfRange`: throws `ArrayIndexOutOfBoundsException` when the start is past the end; otherwise the range, padded with zeros past the data's end |
| Shaders.ComponentCall | TimeAPI/src/time/api/gfx/shader/ShaderProgram.java:412-431 | one component's call at `target.name`'s location; an unregistered name throws `NullPointerException`, a short data array `ArrayIndexOutOfBoundsException` |
| Shaders.StructWalkAppends | TimeAPI/src/time/api/gfx/shader/ShaderProgram.java:410-434 | the component loop only appends to the calls made before it, at most one per component |
| Shaders.StructWalkOffsets | TimeAPI/src/time/api/gfx/shader/ShaderProgram.java:410-434 | the call for component `j` reads the data at the sum of the lengths of the components before it |
| Shaders.OffsetsIncrease | TimeAPI/src/time/api/gfx/shader/ShaderProgram.java:433 | the data ranges of the components are disjoint and in order |
| Shaders.WellFormedStructSent | TimeAPI/src/time/api/gfx/shader/ShaderProgram.java:405-437 | a struct whose names, registrations and data cover all components is sent without an exception, one call per component |
| Shaders.Mat4SendsFifteen | TimeAPI/src/time/api/gfx/shader/ShaderProgram.java:430 | a `MAT4` component sends only 15 values, `LENGTH - 1`, from its offset: the 16th is never sent |
| Shaders.GLContext.constructor | TimeAPI/src/time/api/gfx/shader/ShaderProgram.java:28 | no program is bound at start (`currentProgram` is 0) and no call has been made |
| Shaders.ShaderProgram.constructor | TimeAPI/src/time/api/gfx/shader/ShaderProgram.java:41-67 | a program with its id and an empty location map |
| Shaders.ShaderProgram.Bind | TimeAPI/src/time/api/gfx/shader/ShaderProgram.java:98-103 | the new GL state is `Bound` of the old one |
| Shaders.ShaderProgram.RegisterUniformLocation | TimeAPI/src/time/api/gfx/shader/ShaderProgram.java:176-178 | the location map gains (or overwrites) the one uniform |
| Shaders.ShaderProgram.RegisterUniformArrayLocations | TimeAPI/src/time/api/gfx/shader/ShaderProgram.java:187-190 | the location map gains exactly the locations of `ArrayNames` |
| Shaders.ShaderProgram.RegisterUniformStructLocation | TimeAPI/src/time/api/gfx/shader/ShaderProgram.java:199-202 | the location map gains exactly the locations of `StructNames` |
| Shaders.ShaderProgram.RegisterUniformStructArrayLocations | TimeAPI/src/time/api/gfx/shader/ShaderProgram.java:212-215 | the location map gains exactly the locations of every element's components |
| Shaders.ShaderProgram.Send | TimeAPI/src/time/api/gfx/shader/ShaderProgram.java:236-240 | `sendMatrix`, `sendFloat`, `sendVec*`: the new GL state and the outcome are `SendStep` |
| Shaders.ShaderProgram.SendInt | TimeAPI/src/time/api/gfx/shader/ShaderProgram.java:264-268 | `sendInt` is `SendStep` with a `glUniform1i` of the value |
| Shaders.ShaderProgram.SendBoolean | TimeAPI/src/time/api/gfx/shader/ShaderProgram.java:461-465 | `sendBoolean` sends `GL_TRUE` (1) or `GL_FALSE` (0) with `glUniform1i` |
| Shaders.ShaderProgram.SendArray | TimeAPI/src/time/api/gfx/shader/ShaderProgram.java:250-254 | `sendMatrixArray`, `sendFloatArray`, `sendVec*Array`: element `i` to `target[i]`, in order, up to the first exception (`SendAll`) |
| Shaders.ShaderProgram.SendIntArray | TimeAPI/src/time/api/gfx/shader/ShaderProgram.java:278-282 | `sendIntArray` is `SendAll` of the values as `glUniform1i` calls |
| Shaders.ShaderProgram.SendBooleanArray | TimeAPI/src/time/api/gfx/shader/ShaderProgram.java:475-479 | `sendBooleanArray` is `SendAll` of 1 and 0 as `glUniform1i` calls |
| Shaders.ShaderProgram.SendStruct | TimeAPI/src/time/api/gfx/shader/ShaderProgram.java:405-437 | bind, then the component loop of `StructWalk` from offset 0; the first exception ends it |
| Shaders.ShaderProgram.SendStructArray | TimeAPI/src/time/api/gfx/shader/ShaderProgram.java:447-451 | struct `i` sent to `target[i]`, in order, up to the first exception |
| Shaders.SendStructStep | TimeAPI/src/time/api/gfx/shader/ShaderProgram.java:405-437 | a struct send leaves the program bound |
| Gui.SelectHookOnce | TimeAPI/src/time/api/gfx/gui/Selectable.java:17-31 | `select(b)` enters `onSelect` exactly once, with `b`, before any event fires |
| Gui.SelectEventFires | TimeAPI/src/time/api/gfx/gui/Selectable.java:20-28 | an event fires exactly when selecting with a select event set, and it is that event; the unselect event, which nothing sets, never fires |
| Gui.AcceptsGrowsWithinCap | TimeAPI/src/time/api/gfx/gui/InputBox.java:57-59 | typing one character into a text that accepts it keeps a positive cap's bound |
| Gui.NegativeCapRefuses | TimeAPI/src/time/api/gfx/gui/InputBox.java:57 | with a negative cap the box never accepts a character |
| Gui.UnitText | TimeAPI/src/time/api/gfx/gui/InputBox.java:58 | the `char` appended is the UTF-16 unit as a character |
| Gui.Backspace | TimeAPI/src/time/api/gfx/gui/InputBox.java:81-83 | the text without its last character; an empty text is left alone |
| Gui.BackspaceUndoesTyping | TimeAPI/src/time/api/gfx/gui/InputBox.java:83 | deleting after typing a character restores the text |
| Gui.BackspaceShortens | TimeAPI/src/time/api/gfx/gui/InputBox.java:81-83 | deleting never lengthens the text or leaves the cap |
| Gui.Least | TimeAPI/src/time/api/gfx/gui/InputBox.java:58 | the character handed out next is the least in the queue |
| Gui.LeastUnique | TimeAPI/src/time/api/gfx/gui/InputBox.java:58 | the least element of a queue is unique |
| Gui.InputBox.constructor | TimeAPI/src/time/api/gfx/gui/InputBox.java:16-40 | an unselected box with no select event, empty text and cap `DEFAULT_CAP` (10) around the given renderer |
| Gui.InputBox.Create | TimeAPI/src/time/api/gfx/gui/InputBox.java:35-40 | a box comes back exactly when the font has a page texture, else `NullPointerException`; the new box is unselected, has no select event, empty text, the default cap, and a fresh renderer for the font showing that empty text |
| Gui.InputBox.IsSelected | TimeAPI/src/time/api/gfx/gui/Selectable.java:60-62 | the selection flag |
| Gui.InputBox.SetSelectEvent | TimeAPI/src/time/api/gfx/gui/Selectable.java:40-44 | the select event becomes the given one, or none for `null` |
| Gui.InputBox.OnSelect | TimeAPI/src/time/api/gfx/gui/InputBox.java:43-51 | selecting clears the character queue; a dynamic texture swaps to frame 1 when selected, 0 when not; a sprite sheet whose row width is 0 makes the swap throw |
| Gui.InputBox.Select | TimeAPI/src/time/api/gfx/gui/Selectable.java:17-31 | the flag becomes `b`, then the effects of `SelectEffects`; an exception from the hook stops the event; on success a dynamic texture shows sprite 1 when selecting and sprite 0 otherwise, of the same sheet, and a failed swap leaves it unchanged |
| Gui.InputBox.OnClick | TimeAPI/src/time/api/gfx/gui/InputBox.java:68-70 | a click toggles the selection through `select`, with its queue clearing and texture swap |
| Gui.InputBox.TypeNext | TimeAPI/src/time/api/gfx/gui/InputBox.java:58-59 | the least queued code point leaves the queue and its first UTF-16 unit is appended and re-rendered |
| Gui.InputBox.OnUpdate | TimeAPI/src/time/api/gfx/gui/InputBox.java:54-65 | while selected with a queued character: an accepting text (below the cap, or cap 0) types it, any other clears the queue; otherwise nothing changes; a positive cap's bound is kept |
| Gui.InputBox.DeleteLast | TimeAPI/src/time/api/gfx/gui/InputBox.java:81-84 | Backspace on the text and a re-render; nothing for empty text |
| Gui.InputBox.OnKeyTrigger | TimeAPI/src/time/api/gfx/gui/InputBox.java:73-93 | Enter pressed deselects a selected box, swapping a dynamic texture to sprite 0 and leaving the renderer alone; Backspace pressed or repeated deletes, selected or not, fails exactly when the shortened text cannot be drawn, and leaves the texture alone; every other key and action leaves the box, its renderer and its texture alone; no key touches the char queue |
| Gui.InputBox.SetText | TimeAPI/src/time/api/gfx/gui/InputBox.java:114-119 | the text becomes the given one, ignoring the cap, and is re-rendered |
| Gui.InputBox.GetText | TimeAPI/src/time/api/gfx/gui/InputBox.java:127-129 | the current text |
| Gui.InputBox.SetTextCap | TimeAPI/src/time/api/gfx/gui/InputBox.java:140-144 | the cap becomes the given one |
| Gui.InputBox.GetTextCap | TimeAPI/src/time/api/gfx/gui/InputBox.java:152-154 | the current cap |
| JavaStrings.NatToString | TimeAPI/src/time/api/gfx/shader/ShaderProgram.java:189 | the decimal digits of a natural number, with no leading zero, whose value is the number |
| JavaStrings.IntToString | TimeAPI/src/time/api/gfx/shader/ShaderProgram.java:189 | string concatenation of an `int`: a `-` exactly for a negative number, then digits |
| JavaStrings.ParseInt | TimeAPI/src/time/api/level/ScriptEnvironment.java:54 | `Integer.parseInt` succeeds only on an optionally signed digit string within 32 bits, otherwise throws `NumberFormatException` |
| JavaStrings.ParseIntToString | TimeAPI/src/time/api/level/ScriptEnvironment.java:54 | every 32-bit `int` printed parses back to itself |
| JavaStrings.IntToStringInjective | TimeAPI/src/time/api/gfx/shader/ShaderProgram.java:189 | different integers print differently |
| JavaStrings.ParseIntRejectsWide | TimeAPI/src/time/api/level/ScriptEnvironment.java:54 | an integer outside 32 bits printed does not parse |
| JavaStrings.RemoveChar | TimeAPI/src/time/api/level/Level.java:89 | `replace` of a one-character string by `""`: no occurrence is left, nothing is added, and a string without it is unchanged |
| JavaStrings.RemoveCharAppend | TimeAPI/src/time/api/level/Level.java:89 | removing a character distributes over concatenation |
| JavaStrings.RemoveCharIdempotent | TimeAPI/src/time/api/level/Level.java:89 | removing twice is removing once |
| JavaStrings.RemoveCharEmpty | TimeAPI/src/time/api/level/Level.java:91 | the text with spaces removed is empty exactly when it is nothing but spaces |
| JavaStrings.RunLength | TimeAPI/src/time/api/level/Level.java:96 | the length of the run of one character that starts at a position: all that character, ended by another or the end |
| JavaStrings.StripTrailingEmpty | TimeAPI/src/time/api/level/Level.java:94 | `split` with limit 0 drops exactly the trailing empty pieces |
| JavaStrings.Split | TimeAPI/src/time/api/level/ScriptEnvironment.java:49 | `split` of the empty string is one empty piece, and trailing empty pieces are gone unless nothing matched |
| JavaStrings.SplitAvoids | TimeAPI/src/time/api/level/ScriptEnvironment.java:49 | no piece of a split on one character, or on a run of it, contains that character |
| JavaStrings.JoinPair | TimeAPI/src/time/api/input/InputManager.java:96-99 | two pieces joined are the first, the separator and the second |
| JavaStrings.SplitLitJoin | TimeAPI/src/time/api/gfx/font/FontType.java:23 | splitting on one character and joining back with it restores a string that does not end in it |
| JavaStrings.SplitRunEmpty | TimeAPI/src/time/api/level/Asset.java:32 | splitting on a run of `c` gives no piece at all exactly for a non-empty string made only of `c` |
| JavaStrings.SplitJoin | TimeAPI/src/time/api/level/Level.java:94-96 | splitting the join of pieces that hold no separator gives back those pieces |
| JavaStrings.TrimStart | TimeAPI/src/time/api/level/ScriptEnvironment.java:87 | the leading blanks (`<= ' '`) removed that `Float.parseFloat` ignores |
| JavaStrings.TrimEnd | TimeAPI/src/time/api/level/ScriptEnvironment.java:87 | the trailing blanks removed that `Float.parseFloat` ignores |
| JavaStrings.IntToStringIsFloat | TimeAPI/src/time/api/level/ScriptEnvironment.java:87 | every printed integer is accepted by `Float.parseFloat` |
| JavaStrings.FloatHasDigit | TimeAPI/src/time/api/level/ScriptEnvironment.java:87 | a number `Float.parseFloat` accepts, other than `NaN` and `Infinity`, holds a digit |
| JavaStrings.ParseFloat | TimeAPI/src/time/api/level/ScriptEnvironment.java:87 | `Float.parseFloat` fails only with `NumberFormatException`; an accepted text is not blank and not a bare sign |
| Scripting.Env.TYPE | TimeAPI/src/time/api/level/ScriptEnvironment.java:10-27 | `TYPE_LEVEL` exactly for a level's environment, `TYPE_ASSET` exactly for an asset's |
| Scripting.ParseLine | TimeAPI/src/time/api/level/Level.java:89-96 | tabs dropped; exactly the blank and `#` lines are skipped; any other line without `> ` throws `ArrayIndexOutOfBoundsException` at `data[1]` |
| Scripting.ParseLineIgnoresTabs | TimeAPI/src/time/api/level/Level.java:89 | a line and the line without its tabs parse the same |
| Scripting.NoSeparatorThrows | TimeAPI/src/time/api/level/Level.java:94-96 | a line that is not skipped and holds no `>` followed by a space throws |
| Scripting.CommandLineNoTab | TimeAPI/src/time/api/level/Level.java:89 | a well-formed command line holds no tab |
| Scripting.CommandLineNotSkipped | TimeAPI/src/time/api/level/Level.java:91-92 | a well-formed command line is not skipped |
| Scripting.CommandLineSplits | TimeAPI/src/time/api/level/Level.java:94 | `> +` splits `name> args` into the name and the arguments |
| Scripting.ParseLineRoundTrip | TimeAPI/src/time/api/level/Level.java:89-96 | a command written as `name> a b …` parses back to that name and those arguments |
| Scripting.Resolve | TimeAPI/src/time/api/level/Level.java:98-106 | reflection finds a method exactly for `make` with 5 arguments, `log` with 1 and `define` with 2, with the arguments in order |
| Scripting.Spaced | TimeAPI/src/time/api/level/ScriptEnvironment.java:37-38 | each piece followed by a space |
| Scripting.SpacedJoin | TimeAPI/src/time/api/level/ScriptEnvironment.java:37-41 | the pieces each followed by a space are the pieces joined by spaces plus one space |
| Scripting.LogTextJoins | TimeAPI/src/time/api/level/ScriptEnvironment.java:35-45 | `log` prints the `|`-separated pieces joined by single spaces |
| Scripting.LogTextThrows | TimeAPI/src/time/api/level/ScriptEnvironment.java:41 | `log` throws `StringIndexOutOfBoundsException` exactly for a non-empty text of only `|`, which splits into nothing |
| Scripting.LogText | TimeAPI/src/time/api/level/ScriptEnvironment.java:35-44 | the text `log` prints: the builder cut before its last character, where the only failure is `StringIndexOutOfBoundsException` (`LogTextThrows` names exactly when, `LogTextJoins` what is printed) |
| Scripting.LogF | TimeAPI/src/time/api/level/ScriptEnvironment.java:35-45 | `log` prints the level name, or the asset's name and unique id, then the text; a throwing text prints nothing |
| Scripting.SubstituteOne | TimeAPI/src/time/api/level/ScriptEnvironment.java:53-54 | a parameter not matching `p[0-9]+` is kept; a reference throws `NumberFormatException` when its number exceeds 32 bits and `ArrayIndexOutOfBoundsException` when it is past the asset's parameters |
| Scripting.Substitute | TimeAPI/src/time/api/level/ScriptEnvironment.java:51-54 | substitution keeps the number of parameters |
| Scripting.SubstituteAllOk | TimeAPI/src/time/api/level/ScriptEnvironment.java:52-54 | when every parameter substitutes, the result is those values, in order |
| Scripting.SubstituteFirstFailure | TimeAPI/src/time/api/level/ScriptEnvironment.java:52-54 | the first parameter that fails is the exception `define` throws |
| Scripting.ParamRefResolves | TimeAPI/src/time/api/level/ScriptEnvironment.java:53-54 | `pN` is replaced by the asset's parameter `N` |
| Scripting.FloatArgsFrom | TimeAPI/src/time/api/level/ScriptEnvironment.java:87 | reading float arguments fails only with `ArrayIndexOutOfBoundsException` or `NumberFormatException` |
| Scripting.FloatArgsFromNone | TimeAPI/src/time/api/level/ScriptEnvironment.java:87 | the arguments read without exception exactly when each of them parses as a float |
| Scripting.FloatArgsFromFirst | TimeAPI/src/time/api/level/ScriptEnvironment.java:87 | the first argument that is missing or is not a float decides the exception |
| Scripting.DefineF | TimeAPI/src/time/api/level/ScriptEnvironment.java:47-164 | `define` never changes which environment it runs in, nor an asset's unique id or parameters |
| Scripting.LevelDefine | TimeAPI/src/time/api/level/ScriptEnvironment.java:56-90 | in a level, `define` throws exactly for `name` without a parameter and for `gravity` whose two parameters are missing or not floats, changing nothing then; it never touches assets or bodies; on success it renames the level only for `name` and sets the gravity to the two parameters only for `gravity` |
| Scripting.ParseBoolean | TimeAPI/src/time/api/level/ScriptEnvironment.java:133 | `Boolean.parseBoolean`: true exactly for the four letters of `true`, each in either case |
| Scripting.SetOnBody | TimeAPI/src/time/api/level/ScriptEnvironment.java:139-161 | `getBody()` is `null` exactly when the asset has no body, which throws `NullPointerException` and changes nothing; otherwise only the asset's body changes, and only the field the definer names (`mass`, `friction`, else the bounce) |
| Scripting.AssetDefine | TimeAPI/src/time/api/level/ScriptEnvironment.java:56-161 | in an asset, an exception changes neither the level nor the asset and is one of `ArrayIndexOutOfBounds`, `NumberFormat`, `NullPointer`; `texture` before any `renderer` throws `NullPointerException`; `static` and `body` give the asset a new body, appended to the bodies and to the engine, absolute exactly for `static`; the asset's id, parameters and position, the level's name, assets and gravity never change; it throws exactly on a missing `name` argument, bad or missing float arguments for `renderer`, `static`, `body` (which also needs a third argument) and `mass`/`friction`/`bounce`, a missing `texture` argument or renderer, and a body setter on an asset without a body; `name` sets the asset's name to the first argument, `renderer` gives it a renderer of the two sizes with the default texture, `texture` sets the path on its renderer, `static` and `body` make a body of the two sizes with no mass, friction or bounce, and `body` gives it the trigger flag `Boolean.parseBoolean` reads from the third argument; `mass`, `friction` and `bounce` write the argument to that field of the asset's body as `SetOnBody` states; `gravity` and unknown definers only print their refusal |
| Scripting.InvokeF | TimeAPI/src/time/api/level/Level.java:104-106 | a resolved call keeps the environment kind, the asset's unique id and its parameters |
| Scripting.RunLinesF | TimeAPI/src/time/api/level/Level.java:84-113 | a script keeps the environment kind, the asset's unique id and its parameters, and can end only with the `ArrayIndexOutOfBoundsException` of a line without `> ` |
| Scripting.SkippedLineDoesNothing | TimeAPI/src/time/api/level/Level.java:91-92 | a skipped line does nothing |
| Scripting.BadLineStops | TimeAPI/src/time/api/level/Level.java:94-96 | a line without `> ` ends the whole script, leaving the rest unread |
| Scripting.MissingMethodContinues | TimeAPI/src/time/api/level/Level.java:105-110 | a call that matches no method prints its trace and the script goes on |
| Scripting.FailedCallContinues | TimeAPI/src/time/api/level/Level.java:106-110 | a call that throws prints its trace and the script goes on from the state it left |
| Scripting.ScriptThrowsOnlyOnBadLine | TimeAPI/src/time/api/level/Level.java:84-113 | a script whose every line parses ends without exception |
| Scripting.LevelKeepsParamRefs | TimeAPI/src/time/api/level/ScriptEnvironment.java:51-54 | a level does not substitute `pN`: `define name` sets the name as written |
| Scripting.AssetKeepsLiteralName | TimeAPI/src/time/api/level/ScriptEnvironment.java:69-75 | in an asset, `define name Door` (a literal that is not a parameter reference) names the asset `Door` |
| Scripting.AssetSubstitutesName | TimeAPI/src/time/api/level/ScriptEnvironment.java:51-74 | in an asset, `define name pN` names the asset its parameter `N` |
| Scripting.WrongEnvironmentRefused | TimeAPI/src/time/api/level/ScriptEnvironment.java:85-161 | an asset-only definer in a level, or `gravity` in an asset, prints its refusal and changes nothing else |
| Scripting.UnknownDefinerRefused | TimeAPI/src/time/api/level/ScriptEnvironment.java:59-61 | an unknown definer prints `Undefined: "kind"` and changes nothing else |
| Scripting.MadeAssetStored | TimeAPI/src/time/api/level/ScriptEnvironment.java:29-33 | `make` with float coordinates and a script whose lines parse stores the asset under its unique id, with its split parameters and position |
| Scripting.MakeF | TimeAPI/src/time/api/level/ScriptEnvironment.java:29-33 | `make` fails only with `ArrayIndexOutOfBounds` or `NumberFormat`; when it succeeds the asset is stored under its unique id, keeping that id, the parameters split on runs of `|` and the position `(x, y)` |
| Scripting.AddedBodyShared | TimeAPI/src/time/api/level/ScriptEnvironment.java:121-122 | a new body is the asset's and the engine's, appended after the existing bodies, which are unchanged |
| Scripting.Console.constructor | TimeAPI/src/time/api/level/Level.java:108 | nothing printed yet |
| Scripting.Console.Print | TimeAPI/src/time/api/level/Level.java:108 | the printed line is appended |
| Scripting.Level.Empty | TimeAPI/src/time/api/level/Level.java:31-37 | no name, no assets, a new physics engine, no bodies |
| Scripting.Level.Open | TimeAPI/src/time/api/level/Level.java:27-29 | `new Level(path)`: the level is the one `LoadLevelF` gives an empty level; an exception from the script leaves no level |
| Scripting.Level.GetName | TimeAPI/src/time/api/level/Level.java:141-143 | the level's name |
| Scripting.Level.GetAsset | TimeAPI/src/time/api/level/Level.java:124-126 | the asset stored under the unique id, and none exactly when no such id is stored |
| Scripting.Level.LoadLevel | TimeAPI/src/time/api/level/Level.java:31-117 | the new state and outcome are `LoadLevelF` of the old state |
| Scripting.LoadLevelF | TimeAPI/src/time/api/level/Level.java:31-117 | loading fails only with `ArrayIndexOutOfBounds`, from a line that does not parse; a missing file leaves an empty asset manager and a new physics engine, keeps the name and completes normally |
| Scripting.Level.RunLines | TimeAPI/src/time/api/level/Level.java:84-113 | the script's lines run in place as `RunLinesF` says |
| Scripting.Level.Invoke | TimeAPI/src/time/api/level/Level.java:104-106 | one resolved call, as `InvokeF` says |
| Scripting.Level.Make | TimeAPI/src/time/api/level/ScriptEnvironment.java:29-33 | `make`, as `MakeF` says, with the asset's script from `Asset.loadAsset` |
| Scripting.Level.Log | TimeAPI/src/time/api/level/ScriptEnvironment.java:35-45 | `log`, as `LogF` says |
| Scripting.Level.Define | TimeAPI/src/time/api/level/ScriptEnvironment.java:47-164 | `define`, as `DefineF` says |
| Scripting.Level.DefineForLevel | TimeAPI/src/time/api/level/ScriptEnvironment.java:56-161 | the level's branches of the `define` switch, as `LevelDefine` says |
| Scripting.Level.NewBody | TimeAPI/src/time/api/level/ScriptEnvironment.java:121-122 | a body added, as `AddBody` says |
| Scripting.Level.DefineForAsset | TimeAPI/src/time/api/level/ScriptEnvironment.java:56-161 | the asset's branches of the `define` switch, as `AssetDefine` says |
| Scripting.Level.SetBodyField | TimeAPI/src/time/api/level/ScriptEnvironment.java:140-161 | `setMass`, `setFriction`, `setEpsilon` on the asset's body, `NullPointerException` without one |
| Scripting.BuildLogText | TimeAPI/src/time/api/level/ScriptEnvironment.java:36-41 | the StringBuilder loop computes `LogText` |
| Scripting.SubstituteParams | TimeAPI/src/time/api/level/ScriptEnvironment.java:51-54 | the substitution loop computes `Substitute` |

## Left out

- Sockets, object streams and Java serialization: a socket is a sequence of reads (packets, `null`, foreign objects, I/O errors) plus a log of sent packets.
- Threads: the accept loop, the thread per listener, the audio handler's polling loop with `Thread.sleep`, and the audio manager's start thread. Dispatch to listeners is one recorded event per packet, because any interleaving would be invented.
- SKNet.Connection.StartListening: requires the owner for the connection's role to be set. Without one, Java would raise `NullPointerException` inside the listener thread.
- SKNet.CommunicationListener.Run: requires the owner for the connection's role to be set, for the same reason.
- SKNet.CommunicationListener.Run: a drained input makes every read fail, and the Java loop would spin forever. The model returns `ReadingForever` instead.
- The role constants `SK_SERVER` and `SK_CLIENT` come from a file that is not part of this model. Roles are a two-valued datatype.
- The demo launchers and REPLs are console glue and are not modelled.
- OpenGL, OpenAL and GLFW wrappers appear only as recorded calls: textures, meshes, renderers, shader compiling and linking, audio sources. GL names and uniform locations are parameters.
- Floating-point arithmetic is not modelled: matrices, vectors, transforms, physics bodies, collisions, the audio fade interpolation, projection and mouse mapping. Reals stand in for floats, without rounding.
- The physics engine is the recorded gravity plus the list of bodies added to it.
- Reflection in level and asset scripts is the `Resolve` table of the three script methods with their arities.
- Scripting.MakeF: script nesting is bounded by a `fuel` parameter. Past it, `make` records a `TooDeep` trace instead of running the script. Java would recurse until the stack overflows.
- Scripting.AssetDefine: `define texture` records the texture path; loading the texture is left out. Body construction records the size texts; the body's transform is left out.
- Scripting.MakeF: the renderer position set from the asset's coordinates is not modelled; only the position texts are stored.
- File I/O (font, level, asset and binding files, WAV files) is left out: file contents are parameters, as lines or bytes. A missing file is a missing map entry or `None`.
- Input.InputManager.LoadInputs: creating the binding file when it is missing is file I/O and is left out.
- `saveInputs` writes a whole file, which is file I/O. Only its per-line format, `Input.SaveLine`, is modelled.
- Input.NumericValue: numeric characters outside ASCII and the fullwidth forms give -1. Java's `Character.getNumericValue` knows other scripts' digits; it gives Roman numerals their value and fractions -2.
- Input.InputManager.QueueCharValue: uses `NumericValue`, so the same limit applies.
- HashMap iteration order is not modelled. Where an effect iterates a map, the order is a parameter, or the result is proved independent of it.
- Textures.SpriteSheet.constructor: requires non-negative sprite counts. Java would raise `NegativeArraySizeException`.
- Textures.SpriteSheet.LoadTexture: requires non-negative frame sizes, for the same reason.
- Texture coordinates are in atlas pixels. The division by the texture size is floating point and is left out.
- AudioSystem.Audio.constructor: requires a decodable file. The failing decode is `CreateAudio`'s error path.
- `AudioHandler.init` runs inside the handler's thread and creates the OpenAL sources and the two event queues. The model starts from a handler whose queues and sources exist. With no audio device, the catch at TimeAPI/src/time/api/audio/AudioHandler.java:173-175 swallows the failure and leaves both queues `null`, so later `queue` calls and the `AudioManager` calls that go through them raise `NullPointerException`; the model does not capture that.
- Fonts.BuildMesh treats text as a sequence of Unicode code points. Java counts, indexes, draws and deletes UTF-16 units, so text with a character above U+FFFF (for example `"a😀"`) differs: Java builds one quad per UTF-16 unit and looks each unit up in the font, while the model builds one per code point.
- Fonts.TextMesh treats text as a sequence of Unicode code points. Java counts, indexes, draws and deletes UTF-16 units, so text with a character above U+FFFF (for example `"a😀"`) differs: Java sizes the mesh by the UTF-16 length, so such text gets more vertices and indices in Java than here.
- Fonts.FontRenderer.Create treats text as a sequence of Unicode code points. Java counts, indexes, draws and deletes UTF-16 units, so text with a character above U+FFFF (for example `"a😀"`) differs: the mesh it builds is sized and drawn per code point here and per UTF-16 unit in Java.
- Fonts.FontRenderer.ReallocateText treats text as a sequence of Unicode code points. Java counts, indexes, draws and deletes UTF-16 units, so text with a character above U+FFFF (for example `"a😀"`) differs: the rebuilt mesh is sized and drawn per code point here and per UTF-16 unit in Java.
- Fonts.FontRenderer.GetWidth treats text as a sequence of Unicode code points. Java counts, indexes, draws and deletes UTF-16 units, so text with a character above U+FFFF (for example `"a😀"`) differs: Java sums one advance per UTF-16 unit and looks up each surrogate on its own, while the model sums one per code point.
- Fonts.FontRenderer.GetHeight treats text as a sequence of Unicode code points. Java counts, indexes, draws and deletes UTF-16 units, so text with a character above U+FFFF (for example `"a😀"`) differs: Java takes the largest height over the UTF-16 units, while the model takes it over the code points.
- Gui.Backspace treats text as a sequence of Unicode code points. Java counts, indexes, draws and deletes UTF-16 units, so text with a character above U+FFFF (for example `"a😀"`) differs: Java's `substring(0, length() - 1)` removes one UTF-16 unit and leaves a lone high surrogate, while the model removes the whole code point.
- Gui.InputBox.OnUpdate treats text as a sequence of Unicode code points. Java counts, indexes, draws and deletes UTF-16 units, so text with a character above U+FFFF (for example `"a😀"`) differs: the length cap is counted in code points here and in UTF-16 units in Java.
- Gui.InputBox.DeleteLast treats text as a sequence of Unicode code points. Java counts, indexes, draws and deletes UTF-16 units, so text with a character above U+FFFF (for example `"a😀"`) differs: it deletes through `Backspace`, so a code point above U+FFFF is removed whole here and half in Java.
- Gui.InputBox.OnKeyTrigger treats text as a sequence of Unicode code points. Java counts, indexes, draws and deletes UTF-16 units, so text with a character above U+FFFF (for example `"a😀"`) differs: Backspace deletes through `DeleteLast`, so a code point above U+FFFF is removed whole here and half in Java.
- Gui.InputBox.TypeNext: for a queued code point above U+FFFF, Java appends its first UTF-16 unit, a lone high surrogate. A Dafny character cannot hold one, so the model appends nothing.
- The input box's geometry (`setPosition`, the quad renderer, the body) is floating point and is left out.
- The GUI widgets with no logic of their own (`GUI`, `GUIElement`, `Button`, `CheckBox`) are not modelled.
- `ShaderProgram.destroy` and `getID` are bare GL calls and are not modelled.
- `initAttributes` (vertex attribute upload) is not modelled.
- JavaStrings.ParseInt: accepts only the ASCII digits `0`-`9`. Java's `Integer.parseInt` also takes the decimal digits of other scripts (for example Arabic-Indic or fullwidth digits), which the model refuses with `NumberFormatException`. Fonts.IntProperty parses through it and shares the limit.
- AudioSystem.FloatToIntExact: holds only for magnitudes up to 2^24. Above that an `int` stored in a `float` parameter is rounded in Java, and the model's reals do not round.
- `PhysicsEngine.setGravity`, the entity position calls (`setPosition`, `getX`, `getY`) and the no-argument `EntityManager` constructor come from files that are not part of this model. They are given recording semantics: the gravity texts are stored, the position texts are stored, and a new manager holds no entities.
- Entities.EntityManager.GetEntitiesFromGroup: returns the group's entities as a value. Java returns the group's own `ArrayList`, so a caller that adds to or removes from it changes the group; the model does not capture that aliasing.
- The pending rebind test compares the name with `""` by value. Java compares references; the two agree for the literal `""` the manager stores, but a pending name that is a computed empty string would count as pending in Java.
