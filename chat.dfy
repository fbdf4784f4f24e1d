/**
 Chat messages as the conversation memory of the RAG-with-memory loop holds
 them, and the role filter that get_previous_summary applies to the history.
 */
module Chat {

  /** The role of a message. Only USER and ASSISTANT matter to the query
      rewriter; any other role of the chat library is kept by its name. */
  datatype Role = User | Assistant | OtherRole(name: string)

  /** One chat message: a role and its text content. */
  datatype Message = Message(role: Role, content: string)

  /** The contents of the messages of `h` whose role is `role`, in history
      order: the list comprehension `[str(chat.content) for chat in chat_history
      if chat.role == role]`. */
  function ContentsOf(h: seq<Message>, role: Role): (r: seq<string>)
    ensures |r| <= |h|
  {
    if h == [] then []
    else
      var rest := ContentsOf(h[..|h| - 1], role);
      var last := h[|h| - 1];
      if last.role == role then rest + [last.content] else rest
  }

  /** Every collected content comes from a message of that role, and nothing
      is collected exactly when no message has that role. */
  lemma {:induction false} ContentsOfFrom(h: seq<Message>, role: Role)
    ensures forall k :: 0 <= k < |ContentsOf(h, role)| ==> Message(role, ContentsOf(h, role)[k]) in h
    ensures ContentsOf(h, role) == [] <==> forall j :: 0 <= j < |h| ==> h[j].role != role
  {
    if h != [] {
      var h' := h[..|h| - 1];
      ContentsOfFrom(h', role);
      assert h == h' + [h[|h| - 1]];
    }
  }

  /** Filtering distributes over concatenation of histories. */
  lemma {:induction false} ContentsOfAppend(a: seq<Message>, b: seq<Message>, role: Role)
    ensures ContentsOf(a + b, role) == ContentsOf(a, role) + ContentsOf(b, role)
    decreases |b|
  {
    if b == [] {
      assert a + b == a;
    } else {
      var b' := b[..|b| - 1];
      assert (a + b)[..|a + b| - 1] == a + b';
      assert (a + b)[|a + b| - 1] == b[|b| - 1];
      ContentsOfAppend(a, b', role);
    }
  }

  /** A message of role `role` at position j of the history is the k-th entry
      of the filtered list, where k is the number of messages of that role
      before it: order is kept and nothing is skipped. */
  lemma ContentsOfAt(h: seq<Message>, role: Role, j: nat)
    requires j < |h| && h[j].role == role
    ensures |ContentsOf(h[..j], role)| < |ContentsOf(h, role)|
    ensures ContentsOf(h, role)[|ContentsOf(h[..j], role)|] == h[j].content
  {
    assert h == h[..j + 1] + h[j + 1..];
    ContentsOfAppend(h[..j + 1], h[j + 1..], role);
    assert h[..j + 1][..j] == h[..j];
  }

  /** A message whose role is not `role` contributes nothing to the
      filtered list, wherever it stands in the history. */
  lemma ContentsOfSkips(a: seq<Message>, m: Message, b: seq<Message>, role: Role)
    requires m.role != role
    ensures ContentsOf(a + [m] + b, role) == ContentsOf(a + b, role)
  {
    ContentsOfAppend(a + [m], b, role);
    ContentsOfAppend(a, b, role);
    assert (a + [m])[..|a|] == a;
  }
}
