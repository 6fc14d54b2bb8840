/** The browser's conversation store: the ordered message list, the loading
    flag and the last error, changed only through its five actions. */
module ChatStore {
  import opened Wrappers

  datatype Role = User | Assistant | System

  /** One message of the conversation; `timestamp` is the creation instant in
      milliseconds. */
  datatype Message = Message(id: string, role: Role, content: string, timestamp: nat)

  /** The list `[...messages, m]`. */
  function Appended(messages: seq<Message>, m: Message): (r: seq<Message>)
    ensures |r| == |messages| + 1 && r[..|messages|] == messages && r[|messages|] == m
  {
    messages + [m]
  }

  /** `messages.map(msg => msg.id === id ? { ...msg, content } : msg)`: every
      message carrying `id` gets the new content, each keeping its place,
      and every other message stays as it was. */
  function WithContent(messages: seq<Message>, id: string, content: string): (r: seq<Message>)
    ensures |r| == |messages|
    ensures forall i :: 0 <= i < |r| ==>
              r[i] == if messages[i].id == id then messages[i].(content := content) else messages[i]
  {
    if messages == [] then []
    else
      var head := if messages[0].id == id then messages[0].(content := content) else messages[0];
      [head] + WithContent(messages[1..], id, content)
  }

  /** Updating an id that no message carries changes nothing. */
  lemma WithContentAbsent(messages: seq<Message>, id: string, content: string)
    requires forall i :: 0 <= i < |messages| ==> messages[i].id != id
    ensures WithContent(messages, id, content) == messages
  {
  }

  /** An update keeps every id, role and timestamp where it was: only
      contents change, and only those of the messages carrying `id`. */
  lemma WithContentKeepsShape(messages: seq<Message>, id: string, content: string, i: nat)
    requires i < |messages|
    ensures var r := WithContent(messages, id, content);
            r[i].id == messages[i].id && r[i].role == messages[i].role
            && r[i].timestamp == messages[i].timestamp
            && (r[i].content == if messages[i].id == id then content else messages[i].content)
  {
  }

  /** The messages after a run of `addMessage` calls, one per element of
      `adds`, in that order. */
  function AfterAdds(messages: seq<Message>, adds: seq<Message>): seq<Message>
    decreases |adds|
  {
    if adds == [] then messages else AfterAdds(Appended(messages, adds[0]), adds[1..])
  }

  /** A run of `addMessage` calls leaves the old messages followed by the new
      ones exactly in call order. */
  lemma {:induction false} AddsKeepCallOrder(messages: seq<Message>, adds: seq<Message>)
    ensures AfterAdds(messages, adds) == messages + adds
    decreases |adds|
  {
    if adds != [] {
      AddsKeepCallOrder(Appended(messages, adds[0]), adds[1..]);
      assert messages + [adds[0]] + adds[1..] == messages + adds;
    }
  }

  /** The store's state and its actions. */
  class Store {
    var messages: seq<Message>
    var isLoading: bool
    var error: Option<string>

    /** The initial state: no messages, not loading, no error. */
    constructor ()
      ensures messages == [] && !isLoading && error == None
    {
      messages := [];
      isLoading := false;
      error := None;
    }

    method AddMessage(m: Message)
      modifies this
      ensures messages == Appended(old(messages), m)
      ensures isLoading == old(isLoading) && error == old(error)
    {
      messages := messages + [m];
    }

    method UpdateMessage(id: string, content: string)
      modifies this
      ensures messages == WithContent(old(messages), id, content)
      ensures isLoading == old(isLoading) && error == old(error)
    {
      messages := WithContent(messages, id, content);
    }

    method SetLoading(loading: bool)
      modifies this
      ensures isLoading == loading
      ensures messages == old(messages) && error == old(error)
    {
      isLoading := loading;
    }

    method SetError(e: Option<string>)
      modifies this
      ensures error == e
      ensures messages == old(messages) && isLoading == old(isLoading)
    {
      error := e;
    }

    method ClearMessages()
      modifies this
      ensures messages == []
      ensures isLoading == old(isLoading) && error == old(error)
    {
      messages := [];
    }
  }
}
