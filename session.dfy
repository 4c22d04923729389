/** The observable behaviour of the home screen as a function of its inputs:
    the connection flag, the response label's text, the queries written to the
    socket, the disconnect requests and the console lines, after each
    socket event, typed command or button tap. */
module Session {
  import opened Strings
  import opened Commands

  /** What the protobuf decoder makes of a binary frame: the payload of a
      `Pokemon_WebSocketMessage` (its list already rendered to text by the
      array's `description`), or the thrown error, rendered to text. */
  datatype DecodeResult =
    | PokemonList(description: string)
    | ErrorMessage(message: string)
    | NoPayload
    | Failure(error: string)

  /** The socket events the screen handles; `Other` stands for the rest
      (ping, pong, viability changes, reconnect suggestions, peer closes). */
  datatype Event =
    | Connected
    | Disconnected
    | Cancelled
    | Error(description: Option<string>)
    | Text(text: string)
    | Binary(decoded: DecodeResult)
    | Other

  datatype State = State(
    connected: bool,       // isConnected
    response: string,      // responseLabel.text
    sent: seq<Query>,      // queries passed to socket.write, oldest first
    disconnects: nat,      // calls of socket.disconnect()
    console: seq<string>)  // lines printed, oldest first

  /** The screen as created: not connected, nothing shown, sent or printed. */
  const Initial := State(false, "", [], 0, [])

  const DecodeErrorPrefix := "Error deserializing protobuf message: "

  /** `String(describing: error?.localizedDescription)`: "nil" when there is no
      error, otherwise the description wrapped as an optional's debug text. */
  function Describe(d: Option<string>): (r: string)
    ensures r != ""
    ensures d.Some? ==> |r| == |d.value| + 12 && r[10..|r| - 2] == d.value
  {
    match d
    case None => "nil"
    case Some(t) => "Optional(\"" + t + "\")"
  }

  /** True when the event closes the connection. */
  predicate Closes(e: Event) {
    e.Disconnected? || e.Cancelled? || e.Error?
  }

  /** `handleWebSocketEvent`. Events never write to the socket or print, and
      only `connected` and the three closing events touch the flag. */
  function Deliver(s: State, e: Event): (r: State)
    ensures r.sent == s.sent && r.disconnects == s.disconnects && r.console == s.console
    ensures e.Connected? ==> r.connected
    ensures Closes(e) ==> !r.connected
    ensures !e.Connected? && !Closes(e) ==> r.connected == s.connected
    ensures e.Connected? || e.Disconnected? || e.Cancelled? ==> r.response == s.response
    ensures e.Text? ==> r.response == e.text
    ensures e.Binary? && e.decoded.PokemonList? ==> r.response == e.decoded.description
    ensures e.Binary? && e.decoded.ErrorMessage? ==> r.response == e.decoded.message
    ensures e.Binary? && e.decoded.Failure? ==> r.response == DecodeErrorPrefix + e.decoded.error
    ensures e.Error? ==> r.response == Describe(e.description)
    ensures e.Other? || (e.Binary? && e.decoded.NoPayload?) ==> r == s
  {
    match e
    case Connected => s.(connected := true)
    case Disconnected => s.(connected := false)
    case Text(t) => s.(response := t)
    case Binary(d) => (
      match d
      case PokemonList(text) => s.(response := text)
      case ErrorMessage(m) => s.(response := m)
      case NoPayload => s
      case Failure(err) => s.(response := DecodeErrorPrefix + err))
    case Cancelled => s.(connected := false)
    case Error(d) => s.(connected := false, response := Describe(d))
    case Other => s
  }

  /** Every query in the log fills at most one field, with no space in it. */
  predicate AllSelective(sent: seq<Query>) {
    forall q <- sent :: q.Selective()
  }

  /** `sendCommand`. A command never changes the flag or the response; it writes
      at most one query; while disconnected it only prints the guard message. */
  function Submit(s: State, command: string): (r: State)
    ensures r.connected == s.connected && r.response == s.response
    ensures !s.connected ==> r == s.(console := s.console + [NotConnectedMessage])
    ensures |s.sent| <= |r.sent| <= |s.sent| + 1 && r.sent[..|s.sent|] == s.sent
    ensures r.disconnects == s.disconnects + (if s.connected && command == "exit" then 1 else 0)
    ensures AllSelective(s.sent) ==> AllSelective(r.sent)
  {
    if !s.connected then s.(console := s.console + [NotConnectedMessage])
    else
      var c := Parse(command);
      match c
      case ListAll =>
        QueriesSelective(Id, "");
        s.(sent := s.sent + [ListQuery])
      case Get(f, v) =>
        QueriesSelective(f, v);
        s.(sent := s.sent + [QueryFor(f, v)])
      case Exit => s.(disconnects := s.disconnects + 1)
      case Invalid(m) => s.(console := s.console + [m])
  }

  /** `sendButtonTapped`: the field's text, lowered, is submitted unless the
      field is empty or has no text at all. */
  function Tap(s: State, field: Option<string>): (r: State)
    ensures field == None || field == Some("") ==> r == s
    ensures field.Some? && field.value != "" ==> r == Submit(s, Lower(field.value))
  {
    match field
    case None => s
    case Some(t) =>
      var command := Lower(t);
      if command == "" then s else Submit(s, command)
  }

  /** One input to the screen, in the order it arrives. */
  datatype Input = Inbound(event: Event) | Typed(command: string) | Tapped(field: Option<string>)

  function Step(s: State, i: Input): State {
    match i
    case Inbound(e) => Deliver(s, e)
    case Typed(c) => Submit(s, c)
    case Tapped(f) => Tap(s, f)
  }

  /** The state after the inputs, taken one at a time. */
  function Run(s: State, ins: seq<Input>): State
    decreases |ins|
  {
    if ins == [] then s else Step(Run(s, ins[..|ins| - 1]), ins[|ins| - 1])
  }

  predicate ClosesInput(i: Input) {
    i.Inbound? && Closes(i.event)
  }

  /** No closing event arrives after position k. */
  predicate OpenAfter(ins: seq<Input>, k: int) {
    forall j :: 0 <= j < |ins| && k < j ==> !ClosesInput(ins[j])
  }

  /** Some `connected` event came with no closing event after it, or none was
      needed because the screen was connected already and nothing closed it. */
  predicate ConnectedAfter(was: bool, ins: seq<Input>) {
    (exists k :: 0 <= k < |ins| && ins[k] == Inbound(Connected) && OpenAfter(ins, k)) ||
    (was && OpenAfter(ins, -1))
  }

  /** One input sets the flag, clears it, or leaves it alone. */
  lemma StepConnectivity(s: State, i: Input)
    ensures Step(s, i).connected ==
      if i == Inbound(Connected) then true else if ClosesInput(i) then false else s.connected
  {
  }

  lemma ConnectedAfterClose(was: bool, ins: seq<Input>)
    requires ins != [] && ClosesInput(ins[|ins| - 1])
    ensures !ConnectedAfter(was, ins)
  {
    var n := |ins| - 1;
    assert !OpenAfter(ins, -1);
    forall k | 0 <= k < n ensures !OpenAfter(ins, k) {
      assert k < n;
    }
  }

  lemma ConnectedAfterNeutral(was: bool, ins: seq<Input>)
    requires ins != [] && ins[|ins| - 1] != Inbound(Connected) && !ClosesInput(ins[|ins| - 1])
    ensures ConnectedAfter(was, ins) == ConnectedAfter(was, ins[..|ins| - 1])
  {
    var n := |ins| - 1;
    var pre := ins[..n];
    assert forall j :: 0 <= j < n ==> pre[j] == ins[j];
    assert OpenAfter(ins, -1) == OpenAfter(pre, -1);
    if exists k :: 0 <= k < |ins| && ins[k] == Inbound(Connected) && OpenAfter(ins, k) {
      var k :| 0 <= k < |ins| && ins[k] == Inbound(Connected) && OpenAfter(ins, k);
      assert k < n && pre[k] == Inbound(Connected) && OpenAfter(pre, k);
    }
    if exists k :: 0 <= k < |pre| && pre[k] == Inbound(Connected) && OpenAfter(pre, k) {
      var k :| 0 <= k < |pre| && pre[k] == Inbound(Connected) && OpenAfter(pre, k);
      assert ins[k] == Inbound(Connected) && OpenAfter(ins, k);
    }
  }

  /** The screen considers itself connected exactly when the last event that
      decides the matter was `connected`, or when none came and it already was.
      In particular `exit` alone never clears the flag. */
  lemma {:induction false} RunConnectivity(s: State, ins: seq<Input>)
    ensures Run(s, ins).connected <==> ConnectedAfter(s.connected, ins)
  {
    if ins != [] {
      var n := |ins| - 1;
      RunConnectivity(s, ins[..n]);
      StepConnectivity(Run(s, ins[..n]), ins[n]);
      if ins[n] == Inbound(Connected) {
        assert OpenAfter(ins, n);
      } else if ClosesInput(ins[n]) {
        ConnectedAfterClose(s.connected, ins);
      } else {
        ConnectedAfterNeutral(s.connected, ins);
      }
    }
  }

  /** Until a `connected` event arrives, a disconnected screen writes nothing
      to the socket and asks for no disconnect, whatever is typed or tapped. */
  lemma {:induction false} NothingSentUntilConnected(s: State, ins: seq<Input>)
    requires !s.connected
    requires forall k :: 0 <= k < |ins| ==> ins[k] != Inbound(Connected)
    ensures !Run(s, ins).connected
    ensures Run(s, ins).sent == s.sent && Run(s, ins).disconnects == s.disconnects
  {
    if ins != [] {
      var n := |ins| - 1;
      assert forall k :: 0 <= k < n ==> ins[..n][k] == ins[k];
      NothingSentUntilConnected(s, ins[..n]);
    }
  }

  /** Every query the screen ever writes fills at most one field. */
  lemma {:induction false} RunStaysSelective(s: State, ins: seq<Input>)
    requires AllSelective(s.sent)
    ensures AllSelective(Run(s, ins).sent)
  {
    if ins != [] {
      RunStaysSelective(s, ins[..|ins| - 1]);
    }
  }

  /** Typing and tapping never change the response or the flag: only socket
      events do. */
  lemma {:induction false} CommandsLeaveLabel(s: State, ins: seq<Input>)
    requires forall k :: 0 <= k < |ins| ==> !ins[k].Inbound?
    ensures Run(s, ins).response == s.response && Run(s, ins).connected == s.connected
  {
    if ins != [] {
      var n := |ins| - 1;
      assert forall k :: 0 <= k < n ==> ins[..n][k] == ins[k];
      CommandsLeaveLabel(s, ins[..n]);
    }
  }

  /** Connected, `list` writes one query with every field empty and changes nothing else. */
  lemma SubmitList(s: State)
    requires s.connected
    ensures Submit(s, "list") == s.(sent := s.sent + [Query("", "", "")])
  {
  }

  /** Connected, a `get` line writes one query holding the value in the named
      field and "" in the other two, and changes nothing else. */
  lemma SubmitGet(s: State, head: string, f: Field, v: string)
    requires s.connected
    requires HasPrefix(head, "get") && ' ' !in head && ' ' !in v
    ensures Submit(s, GetLine(head, FieldName(f), v)) == s.(sent := s.sent + [QueryFor(f, v)])
  {
    GetLineIff(GetLine(head, FieldName(f), v), f, v);
  }

  /** A rejected line only prints its message: nothing is written, no
      disconnect is asked for, the flag and the response stay. */
  lemma SubmitRejected(s: State, command: string)
    requires Parse(command).Invalid?
    ensures Submit(s, command) ==
      s.(console := s.console + [if s.connected then Parse(command).message else NotConnectedMessage])
  {
  }

  /** Connected, `exit` asks for one disconnect and writes nothing; the flag
      stays set until the socket reports the close. */
  lemma SubmitExit(s: State)
    requires s.connected
    ensures Submit(s, "exit") == s.(disconnects := s.disconnects + 1)
    ensures Run(s, [Typed("exit")]).connected
    ensures !Run(s, [Typed("exit"), Inbound(Disconnected)]).connected
  {
    assert [Typed("exit"), Inbound(Disconnected)][..1] == [Typed("exit")];
    assert [Typed("exit")][..0] == [];
  }

  /** The button lowers the whole line before matching, the value included:
      any capitalisation of a `get` line sends the lowered value. */
  lemma TapGet(s: State, head: string, word: string, v: string, f: Field)
    requires s.connected
    requires ' ' !in head && ' ' !in word && ' ' !in v
    requires HasPrefix(Lower(head), "get") && Lower(word) == FieldName(f)
    ensures Tap(s, Some(GetLine(head, word, v))) == s.(sent := s.sent + [QueryFor(f, Lower(v))])
  {
    var line := GetLine(head, word, v);
    LowerAppend(head + " " + word + " ", v);
    LowerAppend(head + " " + word, " ");
    LowerAppend(head + " ", word);
    LowerAppend(head, " ");
    assert Lower(" ") == " ";
    assert Lower(line) == GetLine(Lower(head), FieldName(f), Lower(v));
    LowerKeepsSpaces(head);
    LowerKeepsSpaces(v);
    assert Lower(line) != "" by { assert |Lower(line)| == |line| > 0; }
    SubmitGet(s, Lower(head), f, Lower(v));
  }

  /** "get name pikachu" while connected writes `{id:"", name:"pikachu", region:""}`. */
  lemma NamedLookup(s: State)
    requires s.connected
    ensures Submit(s, "get name pikachu").sent == s.sent + [Query("", "pikachu", "")]
  {
    assert GetLine("get", "name", "pikachu") == "get name pikachu";
    SubmitGet(s, "get", Name, "pikachu");
  }

  /** "get id" (no value) writes nothing and prints the format error. */
  lemma MissingValue(s: State)
    requires s.connected
    ensures Submit(s, "get id") == s.(console := s.console + [BadFormatMessage])
  {
    assert JoinWithSpace(["get", "id"]) == "get id";
    SplitJoin(["get", "id"]);
  }

  /** After a transport error a `list` is refused by the guard. */
  lemma ErrorThenList(s: State, d: Option<string>)
    ensures Run(s, [Inbound(Error(d)), Typed("list")]).sent == s.sent
    ensures Run(s, [Inbound(Error(d)), Typed("list")]).console == s.console + [NotConnectedMessage]
  {
    var ins := [Inbound(Error(d)), Typed("list")];
    assert ins[..1] == [Inbound(Error(d))] && ins[..1][..0] == [];
    var mid := Run(s, ins[..1]);
    assert mid == Step(Run(s, []), Inbound(Error(d)));
    assert Run(s, ins) == Submit(mid, "list");
  }
}
