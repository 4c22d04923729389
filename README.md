# Home screen of the Pokémon WebSocket client, in Dafny

The client's home screen (`HomeViewController`) holds one WebSocket. The user
types a command line and taps Send. The line is lowered and matched against a
small grammar: `list`, `get id|name|region <value>` and `exit`. A recognised
lookup is turned into a `Pokemon_PokemonQuery` (`id`, `name`, `region`, ""
meaning "not given") and written to the socket. `exit` asks the socket to
disconnect. Every other line is rejected with a console message. All of this
sits behind the `isConnected` flag. Socket events flip that flag
(`connected` on; `disconnected`, `cancelled` and `error` off). Inbound text
and decoded protobuf messages are shown in the response label.

The project has four modules:

- `Strings` (strings.dfy): Swift's `hasPrefix`, `components(separatedBy: " ")`
  and `lowercased()` on `seq<char>`. The split has its inverse `JoinWithSpace`,
  and both round trips are proved.
- `Commands` (commands.dfy): the query record, the three selectable fields,
  the printed messages and `Parse`. `Parse` is the recognition that
  `sendCommand` does once connected. Lemmas characterise the grammar
  exactly.
- `Session` (session.dfy): the screen's observable state as a value. It holds
  the flag, the label text, the queries written, the disconnect requests and
  the printed lines. The functions `Deliver` (`handleWebSocketEvent`),
  `Submit` (`sendCommand`) and `Tap` (`sendButtonTapped`) give the new state.
  `Run` gives the state after a sequence of inputs. Lemmas cover the guard,
  each command, the event table and whole input sequences.
- `Home` (home.dfy): the controller as a class that updates `isConnected`
  and the label in place, next to a `WebSocket` class that records what it is
  asked to write and how often it is asked to disconnect. Each method of the
  controller is proved to change the state exactly as the matching function
  of `Session` says.

Points where the code's behaviour is easy to misread:

- Rejected lines are only printed. The label is not touched.
- The connection guard comes before every command, `exit` and invalid lines
  included.
- `exit` does not clear the flag. Only a later closing event does.
- A `get` line is split on single spaces with empty pieces kept, not on runs
  of whitespace.
- The first piece only has to start with `get`, so "getx id 7" looks up id "7".
- The whole line is lowered before matching, the value included.

## Model

| member | source | states |
|---|---|---|
| Strings.HasPrefix | swift-protobuf/Home/HomeViewController.swift:188 | a line starts with a word exactly when the word's length fits and the line's first characters are that word |
| Strings.SplitOnSpace | swift-protobuf/Home/HomeViewController.swift:189 | the split always has at least one piece and no piece holds a space |
| Strings.JoinSplit | swift-protobuf/Home/HomeViewController.swift:189 | joining the pieces with single spaces gives back the original line, so nothing is lost, empty pieces included |
| Strings.SplitJoin | swift-protobuf/Home/HomeViewController.swift:189 | splitting space-free words joined by single spaces gives back exactly those words |
| Strings.SplitAfterWord | swift-protobuf/Home/HomeViewController.swift:189 | a space-free word in front of a line merges into the line's first piece |
| Strings.SplitCount | swift-protobuf/Home/HomeViewController.swift:189-190 | the number of pieces is the number of spaces plus one, so a double space adds an empty piece |
| Strings.Lower | swift-protobuf/Home/HomeViewController.swift:167 | lowering keeps the length and lowers each character on its own |
| Strings.LowerAppend | swift-protobuf/Home/HomeViewController.swift:167 | lowering a concatenation concatenates the lowered parts |
| Strings.LowerKeepsSpaces | swift-protobuf/Home/HomeViewController.swift:167 | a lowered line has a space exactly where the line had one |
| Commands.FieldNamed | swift-protobuf/Home/HomeViewController.swift:195-204 | a word selects a field exactly when it is that field's name (`id`, `name`, `region`), and no field otherwise |
| Commands.QueryFor | swift-protobuf/Home/HomeViewController.swift:111-116 | a query built from one named field holds the value in that field and "" in the other two |
| Commands.QueriesSelective | swift-protobuf/Home/HomeViewController.swift:185-201 | the `list` query and every `get` query with a space-free value fill at most one field |
| Commands.Parse | swift-protobuf/Home/HomeViewController.swift:184-212 | the result is `ListAll` exactly for "list" and `Exit` exactly for "exit"; a lookup comes only from a line starting with `get` and has a space-free value; every other line is rejected with one of the two printed messages, and a line that neither is `list` or `exit` nor starts with `get` always with "Invalid command" |
| Commands.GetLineSplits | swift-protobuf/Home/HomeViewController.swift:189-190 | three space-free words joined by single spaces split into exactly those three pieces |
| Commands.GetLineIff | swift-protobuf/Home/HomeViewController.swift:188-201 | a line is a lookup of field f for value v exactly when it is a head word starting with `get`, then f's name, then v, with single spaces and no other space |
| Commands.GetWrongArity | swift-protobuf/Home/HomeViewController.swift:189-193 | a line starting with `get` that does not hold exactly two spaces is a format error |
| Commands.GetUnknownField | swift-protobuf/Home/HomeViewController.swift:195-204 | a well-shaped `get` line whose middle word names no field is rejected as an invalid command |
| Session.Describe | swift-protobuf/Home/HomeViewController.swift:156 | the error text is never empty; with a description present it is that description wrapped in the optional's debug form |
| Session.Deliver | swift-protobuf/Home/HomeViewController.swift:123-161 | events never write, disconnect or print; `connected` sets the flag; `disconnected`, `cancelled` and `error` clear it; other events keep it; the lifecycle events `connected`, `disconnected` and `cancelled` keep the label; text is shown verbatim; a decoded list shows its description and a decoded error message shows that message; a decode failure shows the fixed prefix followed by the error; a transport error shows the error's described text; an empty payload and any unlisted event change nothing |
| Session.Submit | swift-protobuf/Home/HomeViewController.swift:178-213 | a command never changes the flag or the label; while disconnected it only prints the guard message; it appends at most one query; it asks for a disconnect only for `exit` while connected; every written query stays single-field |
| Session.Tap | swift-protobuf/Home/HomeViewController.swift:166-173 | a field with no text or empty text changes nothing; otherwise the lowered text is submitted |
| Session.RunConnectivity | swift-protobuf/Home/HomeViewController.swift:124-157 | after any sequence of inputs the flag is set exactly when some `connected` event had no closing event after it, or the screen was connected already and no closing event came |
| Session.NothingSentUntilConnected | swift-protobuf/Home/HomeViewController.swift:179-182 | from disconnected, no input sequence without a `connected` event writes anything or asks for a disconnect, and the flag stays off |
| Session.RunStaysSelective | swift-protobuf/Home/HomeViewController.swift:184-205 | every query ever written fills at most one field and has no space in it |
| Session.CommandsLeaveLabel | swift-protobuf/Home/HomeViewController.swift:178-213 | typed and tapped commands alone never change the label or the flag |
| Session.SubmitList | swift-protobuf/Home/HomeViewController.swift:185-186 | connected, `list` writes one query with every field "" and changes nothing else |
| Session.SubmitGet | swift-protobuf/Home/HomeViewController.swift:188-201 | connected, a `get` line writes one query with the value in the named field and "" in the other two, and changes nothing else |
| Session.SubmitRejected | swift-protobuf/Home/HomeViewController.swift:179-211 | a rejected line only prints its message, or the guard message when disconnected: no write, no disconnect, same flag and label |
| Session.SubmitExit | swift-protobuf/Home/HomeViewController.swift:207-208 | connected, `exit` asks for one disconnect and writes nothing; the flag stays set until a `disconnected` event clears it |
| Session.TapGet | swift-protobuf/Home/HomeViewController.swift:166-201 | any capitalisation of a `get` line sends the lowered value in the named field, so matching is case-insensitive over the whole line |
| Session.NamedLookup | swift-protobuf/Home/HomeViewController.swift:188-199 | connected, "get name pikachu" writes exactly `{id:"", name:"pikachu", region:""}` |
| Session.MissingValue | swift-protobuf/Home/HomeViewController.swift:189-192 | connected, "get id" writes nothing and prints the format error |
| Session.ErrorThenList | swift-protobuf/Home/HomeViewController.swift:154-182 | after an `error` event, `list` writes nothing and prints the not-connected message |
| Home.WebSocket.Write | swift-protobuf/Home/HomeViewController.swift:119 | the written query is appended to the socket's log; the disconnect count stays |
| Home.WebSocket.Disconnect | swift-protobuf/Home/HomeViewController.swift:208 | one more disconnect request; nothing is written |
| Home.HomeViewController.constructor | swift-protobuf/Home/HomeViewController.swift:47-60 | the screen starts disconnected with an empty label and keeps the socket it is given |
| Home.HomeViewController.SendWebSocketQueryBy | swift-protobuf/Home/HomeViewController.swift:111-121 | exactly one query, holding the three given fields (each "" by default), is written |
| Home.HomeViewController.HandleWebSocketEvent | swift-protobuf/Home/HomeViewController.swift:123-161 | the flag, label and socket now stand as `Session.Deliver` gives for the event |
| Home.HomeViewController.SendButtonTapped | swift-protobuf/Home/HomeViewController.swift:166-173 | the screen and socket now stand as `Session.Tap` gives for the field's text |
| Home.HomeViewController.SendCommand | swift-protobuf/Home/HomeViewController.swift:178-213 | the screen and socket now stand as `Session.Submit` gives for the command |

## Left out

- View construction and layout (`commandField`, `sendButton`, `responseLabel`, `configureUI`) are pure presentation. The text field is an input to `SendButtonTapped` and the label is a string field.
- `viewDidLoad` and `configureWebSocket` (setting the delegate, `socket.connect()`) and the `didReceive` forwarding are transport wiring. The model takes events as calls of `HandleWebSocketEvent`.
- swift-protobuf/AppDelegate.swift (window, URL, timeout, certificate pinner) is application bootstrap with no logic.
- The Starscream transport is left out. A write or a disconnect is recorded in the `WebSocket` log. Nothing is sent and no event follows by itself.
- Protobuf wire encoding and decoding are generated library code and are not part of this model. A write records the `Query` value. A binary frame arrives already decoded, as a `DecodeResult`.
- Home.HomeViewController.SendWebSocketQueryBy: always writes the query. The `try?` failure path of `serializedData()` is not modelled, because the generated serializer is not part of this model.
- Strings.Lower: lowers only ASCII A–Z. Unicode case mapping of `lowercased()` is not modelled.
- Session.Describe: the description is wrapped as given. The debug escaping of special characters inside it is not modelled.
- `list.pokemon.description` and the `\(error)` interpolation are library formatting. They arrive as ready strings inside `DecodeResult`.
- The label starts as "". UIKit's initial `nil` text is not distinguished from the empty string.
- `print` is modelled as a log of the printed lines. Standard output itself is not.
- String comparison is code-point equality. Swift's canonical-equivalence comparison of `String` is not modelled.
- Threading and the delegate queue are left out. Events and taps are taken one at a time, in order.
