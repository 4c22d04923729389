/** The home screen's controller as the object it is: a connection flag and a
    response label it updates in place, and the socket it writes to. Every
    method is proved to move the screen exactly as the functions of module
    Session say. */
module Home {
  import opened Strings
  import opened Commands
  import opened Session

  /** The socket as far as the screen uses it: the queries it was asked to
      write, in order, and how many times it was asked to disconnect. */
  class WebSocket {
    var written: seq<Query>
    var disconnects: nat

    constructor ()
      ensures written == [] && disconnects == 0
    {
      written := [];
      disconnects := 0;
    }

    /** `write(data:)` with the serialized query. */
    method Write(q: Query)
      modifies this
      ensures written == old(written) + [q] && disconnects == old(disconnects)
    {
      written := written + [q];
    }

    /** `disconnect()`: only a request; the close is reported later as an event. */
    method Disconnect()
      modifies this
      ensures disconnects == old(disconnects) + 1 && written == old(written)
    {
      disconnects := disconnects + 1;
    }
  }

  class HomeViewController {
    var isConnected: bool
    var responseText: string   // the text of the response label
    var console: seq<string>   // the lines printed so far
    const socket: WebSocket

    /** The screen's observable state. */
    function Current(): State
      reads this, socket
    {
      State(isConnected, responseText, socket.written, socket.disconnects, console)
    }

    /** `init(socket:)`: starts disconnected, with an empty label. */
    constructor (socket: WebSocket)
      ensures this.socket == socket
      ensures Current() == Initial.(sent := socket.written, disconnects := socket.disconnects)
    {
      this.socket := socket;
      isConnected := false;
      responseText := "";
      console := [];
    }

    /** `sendWebSocketQueryBy`: builds the query from the three fields, each
        "" unless given, and writes it. */
    method SendWebSocketQueryBy(id: string := "", name: string := "", region: string := "")
      modifies socket
      ensures socket.written == old(socket.written) + [Query(id, name, region)]
      ensures socket.disconnects == old(socket.disconnects)
    {
      var query := Query(id, name, region);
      socket.Write(query);
    }

    /** `handleWebSocketEvent`. */
    method HandleWebSocketEvent(e: Event)
      modifies this
      ensures Current() == Deliver(old(Current()), e)
    {
      match e {
        case Connected =>
          isConnected := true;
        case Disconnected =>
          isConnected := false;
        case Text(t) =>
          responseText := t;
        case Binary(d) =>
          match d {
            case PokemonList(text) => responseText := text;
            case ErrorMessage(m) => responseText := m;
            case NoPayload =>
            case Failure(err) => responseText := DecodeErrorPrefix + err;
          }
        case Cancelled =>
          isConnected := false;
        case Error(description) =>
          isConnected := false;
          responseText := Describe(description);
        case Other =>
      }
    }

    /** `sendButtonTapped`: ignores a field with no text or empty text, and
        otherwise sends the lowered text as a command. */
    method SendButtonTapped(text: Option<string>)
      modifies this, socket
      ensures Current() == Tap(old(Current()), text)
    {
      if text.None? {
        return;
      }
      var command := Lower(text.value);
      if command == "" {
        return;
      }
      SendCommand(command);
    }

    /** `sendCommand`. */
    method SendCommand(command: string)
      modifies this, socket
      ensures Current() == Submit(old(Current()), command)
    {
      if !isConnected {
        console := console + [NotConnectedMessage];
        return;
      }
      if command == "list" {
        SendWebSocketQueryBy();
      } else if HasPrefix(command, "get") {
        var components := SplitOnSpace(command);
        if |components| != 3 {
          console := console + [BadFormatMessage];
          return;
        }
        if components[1] == "id" {
          SendWebSocketQueryBy(id := components[2]);
        } else if components[1] == "name" {
          SendWebSocketQueryBy(name := components[2]);
        } else if components[1] == "region" {
          SendWebSocketQueryBy(region := components[2]);
        } else {
          console := console + [InvalidMessage];
          return;
        }
      } else if command == "exit" {
        socket.Disconnect();
      } else {
        console := console + [InvalidMessage];
      }
    }
  }
}
