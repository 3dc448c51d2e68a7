/** One turn of a conversation sent to the AI chat service. */
module Messages {

  /** The two conversation roles the plugin uses (its AIRoleType enumeration). */
  datatype Role = User | Assistant

  datatype Message = Message(role: Role, content: string)

  /** Turns alternate user/assistant, starting with the user. */
  predicate Alternating(msgs: seq<Message>)
  {
    forall i :: 0 <= i < |msgs| ==> (msgs[i].role == User <==> i % 2 == 0)
  }

  /** The turns come in whole (user, assistant) exchanges. */
  predicate StrictPairs(msgs: seq<Message>)
    decreases |msgs|
  {
    |msgs| == 0 ||
    (|msgs| >= 2 && msgs[0].role == User && msgs[1].role == Assistant && StrictPairs(msgs[2..]))
  }

  /** The texts of the turns, in order. */
  function Contents(msgs: seq<Message>): seq<string>
    decreases |msgs|
  {
    if |msgs| == 0 then [] else [msgs[0].content] + Contents(msgs[1..])
  }

  /** How many turns have the given role. */
  function CountRole(msgs: seq<Message>, role: Role): nat
    decreases |msgs|
  {
    if |msgs| == 0 then 0
    else (if msgs[0].role == role then 1 else 0) + CountRole(msgs[1..], role)
  }

  lemma AlternatingTail(msgs: seq<Message>)
    requires Alternating(msgs) && |msgs| >= 2
    ensures Alternating(msgs[2..])
  {
    var t := msgs[2..];
    forall i | 0 <= i < |t|
      ensures t[i].role == User <==> i % 2 == 0
    {
      assert t[i] == msgs[i + 2];
    }
  }

  /** An alternating conversation is made of whole exchanges exactly when it has an even length. */
  lemma {:induction false} AlternatingPairs(msgs: seq<Message>)
    requires Alternating(msgs)
    ensures StrictPairs(msgs) <==> |msgs| % 2 == 0
    decreases |msgs|
  {
    if |msgs| >= 2 {
      AlternatingTail(msgs);
      AlternatingPairs(msgs[2..]);
    }
  }

  /** An alternating conversation of n turns has ceil(n/2) user turns and floor(n/2) assistant turns. */
  lemma {:induction false} AlternatingCounts(msgs: seq<Message>)
    requires Alternating(msgs)
    ensures CountRole(msgs, User) == (|msgs| + 1) / 2
    ensures CountRole(msgs, Assistant) == |msgs| / 2
    decreases |msgs|
  {
    if |msgs| == 1 {
      assert msgs[0].role == User;
    } else if |msgs| >= 2 {
      assert msgs[0].role == User && msgs[1].role == Assistant;
      assert msgs[1..][1..] == msgs[2..];
      AlternatingTail(msgs);
      AlternatingCounts(msgs[2..]);
    }
  }
}
