/** The command grammar of the home screen and the query record it produces
    (`Pokemon_PokemonQuery`). */
module Commands {
  import opened Strings

  /** The outbound query: every field is a string, "" meaning "not given". */
  datatype Query = Query(id: string, name: string, region: string) {

    function FieldValue(f: Field): string {
      match f
      case Id => id
      case Name => name
      case Region => region
    }

    /** At most one field is filled and no field holds a space. */
    predicate Selective() {
      (forall f: Field :: ' ' !in FieldValue(f)) &&
      (forall f: Field, g: Field :: f != g ==> FieldValue(f) == "" || FieldValue(g) == "")
    }
  }

  datatype Field = Id | Name | Region

  /** The second word of a `get` line that selects each field. */
  function FieldName(f: Field): string {
    match f
    case Id => "id"
    case Name => "name"
    case Region => "region"
  }

  /** The field a word selects, if any. */
  function FieldNamed(w: string): (r: Option<Field>)
    ensures r.Some? ==> FieldName(r.value) == w
    ensures r.None? ==> forall f: Field :: FieldName(f) != w
  {
    if w == "id" then Some(Id)
    else if w == "name" then Some(Name)
    else if w == "region" then Some(Region)
    else None
  }

  /** The query `sendWebSocketQueryBy` builds when only field `f` is passed. */
  function QueryFor(f: Field, value: string): (q: Query)
    ensures q.FieldValue(f) == value
    ensures forall g: Field :: g != f ==> q.FieldValue(g) == ""
  {
    match f
    case Id => Query(value, "", "")
    case Name => Query("", value, "")
    case Region => Query("", "", value)
  }

  /** The query of `list`: `sendWebSocketQueryBy()` with every default. */
  const ListQuery := Query("", "", "")

  const NotConnectedMessage := "Error: WebSocket is not connected."
  const BadFormatMessage := "Error: Invalid command format."
  const InvalidMessage := "Error: Invalid command."

  /** What one command line asks for; `Invalid` carries the message printed for it. */
  datatype Command = ListAll | Get(field: Field, value: string) | Exit | Invalid(message: string)

  /** The recognition done by `sendCommand` once connected: `list`, any line
      starting with `get` that splits into three pieces whose middle one names
      a field, `exit`; everything else is rejected. */
  function Parse(command: string): (c: Command)
    ensures c == ListAll <==> command == "list"
    ensures c == Exit <==> command == "exit"
    ensures c.Get? ==> HasPrefix(command, "get") && ' ' !in c.value
    ensures c.Invalid? ==> c.message == BadFormatMessage || c.message == InvalidMessage
    ensures c.Invalid? && !HasPrefix(command, "get") ==> c.message == InvalidMessage
  {
    if command == "list" then ListAll
    else if HasPrefix(command, "get") then
      var parts := SplitOnSpace(command);
      if |parts| != 3 then Invalid(BadFormatMessage)
      else match FieldNamed(parts[1])
        case Some(f) => Get(f, parts[2])
        case None => Invalid(InvalidMessage)
    else if command == "exit" then Exit
    else Invalid(InvalidMessage)
  }

  /** The query `list` sends is selective, and so is every `get` query whose value has no space. */
  lemma QueriesSelective(f: Field, v: string)
    requires ' ' !in v
    ensures ListQuery.Selective() && QueryFor(f, v).Selective()
  {
    assert forall g: Field :: ListQuery.FieldValue(g) == "";
  }

  /** The line `head field value`, three words joined by single spaces. */
  function GetLine(head: string, word: string, value: string): string {
    head + " " + word + " " + value
  }

  lemma GetLineSplits(head: string, word: string, value: string)
    requires ' ' !in head && ' ' !in word && ' ' !in value
    ensures SplitOnSpace(GetLine(head, word, value)) == [head, word, value]
  {
    var parts := [head, word, value];
    assert JoinWithSpace(parts[2..]) == value;
    assert JoinWithSpace(parts[1..]) == word + " " + value;
    assert JoinWithSpace(parts) == GetLine(head, word, value);
    SplitJoin(parts);
  }

  /** A `get` line is recognised exactly when it is a head word starting with
      `get`, a field name and a space-free value, single-spaced. The head only
      has to start with `get`: "getx id 7" asks for id "7". */
  lemma GetLineIff(command: string, f: Field, v: string)
    ensures Parse(command) == Get(f, v) <==>
      exists head :: HasPrefix(head, "get") && ' ' !in head && ' ' !in v &&
        command == GetLine(head, FieldName(f), v)
  {
    if Parse(command) == Get(f, v) {
      var parts := SplitOnSpace(command);
      var head := parts[0];
      JoinSplit(command);
      assert parts[1..][1..] == [parts[2]];
      assert JoinWithSpace(parts[1..]) == parts[1] + " " + parts[2];
      assert command == GetLine(head, parts[1], parts[2]);
      assert ' ' !in head;
      // the space after the head cannot fall inside the leading "get"
      assert command[|head|] == ' ';
      assert forall i :: 0 <= i < 3 ==> command[i] == "get"[i] != ' ';
      assert head[..3] == command[..3];
      assert HasPrefix(head, "get");
    }
    if exists head :: HasPrefix(head, "get") && ' ' !in head && ' ' !in v &&
        command == GetLine(head, FieldName(f), v) {
      var head :| HasPrefix(head, "get") && ' ' !in head && ' ' !in v &&
        command == GetLine(head, FieldName(f), v);
      GetLineSplits(head, FieldName(f), v);
      assert command[..3] == head[..3];
      assert command != "list";
    }
  }

  /** A line starting with `get` that does not have exactly two spaces is
      a format error, whatever else it holds (a double space counts). */
  lemma GetWrongArity(command: string)
    requires HasPrefix(command, "get")
    requires multiset(command)[' '] != 2
    ensures Parse(command) == Invalid(BadFormatMessage)
  {
    SplitCount(command);
    assert command != "list";
  }

  /** A well-shaped `get` line whose middle word names no field is rejected. */
  lemma GetUnknownField(head: string, word: string, value: string)
    requires HasPrefix(head, "get") && ' ' !in head && ' ' !in word && ' ' !in value
    requires FieldNamed(word).None?
    ensures Parse(GetLine(head, word, value)) == Invalid(InvalidMessage)
  {
    GetLineSplits(head, word, value);
    assert GetLine(head, word, value)[..3] == head[..3];
    assert GetLine(head, word, value) != "list";
  }
}
