/** The chat assistant panel: a message list and an input line. Sending
    appends the user's message and a loading placeholder and clears the
    input; when the assistant's reply arrives, every loading placeholder is
    dropped and the reply is appended. */
module Chat {
  import opened Common

  /** The role tag of a message. */
  datatype Role = User | Model | Loading

  datatype ChatMessage = ChatMessage(role: Role, text: string)

  /** The placeholder shown while a reply is awaited. */
  const PLACEHOLDER := ChatMessage(Loading, "...")

  /** The key that sends the input. */
  const ENTER := "Enter"

  /** `[...prev, userMessage, { role: 'loading', text: '...' }]`. */
  function WithPending(prev: seq<ChatMessage>, input: string): (r: seq<ChatMessage>)
    ensures |r| == |prev| + 2 && r[..|prev|] == prev
    ensures r[|prev|] == ChatMessage(User, input) && r[|prev| + 1] == PLACEHOLDER
  {
    prev + [ChatMessage(User, input), PLACEHOLDER]
  }

  /** `s.filter(msg => msg.role !== 'loading')`. */
  function WithoutLoading(s: seq<ChatMessage>): (r: seq<ChatMessage>)
    ensures |r| <= |s|
    ensures forall i :: 0 <= i < |r| ==> r[i].role != Loading
    decreases |s|
  {
    if s == [] then
      []
    else
      var rest := WithoutLoading(s[1..]);
      if s[0].role == Loading then rest else [s[0]] + rest
  }

  /** The list once a reply has arrived: the loading placeholders are gone
      and the reply, from the model, is the last message. */
  function WithReply(prev: seq<ChatMessage>, reply: string): (r: seq<ChatMessage>)
    ensures forall i :: 0 <= i < |r| ==> r[i].role != Loading
    ensures |r| >= 1 && r[|r| - 1] == ChatMessage(Model, reply)
  {
    var kept := WithoutLoading(prev);
    kept + [ChatMessage(Model, reply)]
  }

  /** The positions, from `from` on, of the messages that are not loading
      placeholders, in increasing order. */
  function KeptIndices(s: seq<ChatMessage>, from: nat): (idx: seq<nat>)
    requires from <= |s|
    ensures forall k :: 0 <= k < |idx| ==> from <= idx[k] < |s|
    ensures forall k, l :: 0 <= k < l < |idx| ==> idx[k] < idx[l]
    ensures forall j :: from <= j < |s| ==> (s[j].role != Loading <==> j in idx)
    decreases |s| - from
  {
    if from == |s| then
      []
    else
      var rest := KeptIndices(s, from + 1);
      if s[from].role == Loading then
        rest
      else
        assert forall j :: j in [from] + rest <==> j == from || j in rest;
        [from] + rest
  }

  /** The filter keeps exactly the messages that are not loading
      placeholders, in their original order: the `k`-th message it keeps is
      the message at the `k`-th such position. */
  lemma {:induction false} FilterKeepsOrder(s: seq<ChatMessage>, from: nat)
    requires from <= |s|
    ensures |KeptIndices(s, from)| == |WithoutLoading(s[from..])|
    ensures forall k :: 0 <= k < |KeptIndices(s, from)| ==>
              WithoutLoading(s[from..])[k] == s[KeptIndices(s, from)[k]]
    decreases |s| - from
  {
    var w, idx := WithoutLoading(s[from..]), KeptIndices(s, from);
    if from == |s| {
      assert s[from..] == [];
    } else {
      var t := s[from..];
      assert t[0] == s[from] && t[1..] == s[from + 1..];
      FilterKeepsOrder(s, from + 1);
      var rest, restIdx := WithoutLoading(s[from + 1..]), KeptIndices(s, from + 1);
      if s[from].role == Loading {
        assert w == rest && idx == restIdx;
      } else {
        assert w == [s[from]] + rest && idx == [from] + restIdx;
        PrependKept(s, from, rest, restIdx);
      }
    }
  }

  /** Keeping the message at `from` in front of messages kept in order keeps
      them all in order. */
  lemma PrependKept(s: seq<ChatMessage>, from: nat, rest: seq<ChatMessage>, restIdx: seq<nat>)
    requires from < |s| && |rest| == |restIdx|
    requires forall k :: 0 <= k < |restIdx| ==> restIdx[k] < |s| && rest[k] == s[restIdx[k]]
    ensures forall k :: 0 <= k < |restIdx| + 1 ==>
              ([s[from]] + rest)[k] == s[([from] + restIdx)[k]]
  {
    forall k | 0 < k < |restIdx| + 1
      ensures ([s[from]] + rest)[k] == s[([from] + restIdx)[k]]
    {
      assert ([s[from]] + rest)[k] == rest[k - 1] && ([from] + restIdx)[k] == restIdx[k - 1];
    }
  }

  /** Whatever was pending before, after a reply the list is the
      non-placeholder messages of the previous list, in order, followed by
      the reply; its length is their number plus one. */
  lemma ReplyKeepsOrder(prev: seq<ChatMessage>, reply: string)
    ensures var r := WithReply(prev, reply);
            var idx := KeptIndices(prev, 0);
            && |r| == |idx| + 1
            && r[|idx|] == ChatMessage(Model, reply)
            && (forall k :: 0 <= k < |idx| ==> r[k] == prev[idx[k]])
            && (forall k, l :: 0 <= k < l < |idx| ==> idx[k] < idx[l])
            && (forall j :: 0 <= j < |prev| ==> (prev[j].role != Loading <==> j in idx))
  {
    FilterKeepsOrder(prev, 0);
    assert prev[0..] == prev;
    var kept := WithoutLoading(prev);
    assert WithReply(prev, reply) == kept + [ChatMessage(Model, reply)];
  }

  /** The filter works message by message. */
  lemma {:induction false} WithoutLoadingAppend(a: seq<ChatMessage>, b: seq<ChatMessage>)
    ensures WithoutLoading(a + b) == WithoutLoading(a) + WithoutLoading(b)
    decreases |a|
  {
    if a == [] {
      assert a + b == b;
    } else {
      assert (a + b)[0] == a[0] && (a + b)[1..] == a[1..] + b;
      WithoutLoadingAppend(a[1..], b);
    }
  }

  /** A list without placeholders passes the filter unchanged. */
  lemma {:induction false} WithoutLoadingKeepsClean(s: seq<ChatMessage>)
    requires forall i :: 0 <= i < |s| ==> s[i].role != Loading
    ensures WithoutLoading(s) == s
    decreases |s|
  {
    if s != [] {
      WithoutLoadingKeepsClean(s[1..]);
    }
  }

  /** Two sent messages, each followed by its placeholder, filter down to
      the two messages. */
  lemma TwoPendingPairsFiltered(u1: ChatMessage, u2: ChatMessage)
    requires u1.role != Loading && u2.role != Loading
    ensures WithoutLoading([u1, PLACEHOLDER, u2, PLACEHOLDER]) == [u1, u2]
  {
    var q3 := [PLACEHOLDER];
    var q2 := [u2] + q3;
    var q1 := [PLACEHOLDER] + q2;
    var q0 := [u1] + q1;
    assert q3[1..] == [] && WithoutLoading(q3) == [];
    assert q2[1..] == q3 && WithoutLoading(q2) == [u2];
    assert q1[1..] == q2 && WithoutLoading(q1) == [u2];
    assert q0[1..] == q1 && WithoutLoading(q0) == [u1, u2];
    assert q0 == [u1, PLACEHOLDER, u2, PLACEHOLDER];
  }

  /** Two sends before the first reply: that reply removes both
      placeholders and keeps both user messages, in the order they were
      sent. */
  lemma TwoSendsThenReply(prev: seq<ChatMessage>, first: string, second: string, reply: string)
    ensures WithReply(WithPending(WithPending(prev, first), second), reply)
            == WithoutLoading(prev) + [ChatMessage(User, first), ChatMessage(User, second)] + [ChatMessage(Model, reply)]
  {
    var u1, u2 := ChatMessage(User, first), ChatMessage(User, second);
    var pending := [u1, PLACEHOLDER, u2, PLACEHOLDER];
    var all := WithPending(WithPending(prev, first), second);
    assert all == (prev + [u1, PLACEHOLDER]) + [u2, PLACEHOLDER];
    assert (prev + [u1, PLACEHOLDER]) + [u2, PLACEHOLDER] == prev + pending;
    WithoutLoadingAppend(prev, pending);
    TwoPendingPairsFiltered(u1, u2);
    assert WithReply(all, reply) == WithoutLoading(all) + [ChatMessage(Model, reply)];
  }

  /** A reply that arrives when no placeholder is left (the first reply
      already cleared them) only appends. */
  lemma ReplyToCleanList(s: seq<ChatMessage>, reply: string)
    requires forall i :: 0 <= i < |s| ==> s[i].role != Loading
    ensures WithReply(s, reply) == s + [ChatMessage(Model, reply)]
  {
    WithoutLoadingKeepsClean(s);
  }

  /** The chat panel component: its message list, its input line, and the
      number of replies it is still awaiting. */
  class ChatAssistant {
    var messages: seq<ChatMessage>
    var input: string
    var awaitedReplies: nat

    constructor ()
      ensures messages == [] && input == "" && awaitedReplies == 0
    {
      messages, input, awaitedReplies := [], "", 0;
    }

    /** The input's `onChange`. */
    method SetInput(text: string)
      modifies this
      ensures input == text && messages == old(messages) && awaitedReplies == old(awaitedReplies)
    {
      input := text;
    }

    /** `handleSend` up to the request: a blank input sends nothing and
      changes nothing; otherwise the untrimmed input is appended with a
      placeholder, the input is cleared, and the text captured before
      clearing is returned as the message sent to the assistant. */
    method HandleSend() returns (sent: Option<string>)
      modifies this
      ensures IsBlank(old(input)) ==>
                sent == None && messages == old(messages) && input == old(input)
                && awaitedReplies == old(awaitedReplies)
      ensures !IsBlank(old(input)) ==>
                && sent == Some(old(input))
                && messages == WithPending(old(messages), old(input))
                && input == "" && awaitedReplies == old(awaitedReplies) + 1
    {
      if Trim(input) == [] {
        return None;
      }
      messages := messages + [ChatMessage(User, input), PLACEHOLDER];
      var currentInput := input;
      input := "";
      awaitedReplies := awaitedReplies + 1;
      sent := Some(currentInput);
    }

    /** `handleKeyPress`: only the Enter key sends. */
    method HandleKeyPress(key: string) returns (sent: Option<string>)
      modifies this
      ensures key != ENTER ==>
                sent == None && messages == old(messages) && input == old(input)
                && awaitedReplies == old(awaitedReplies)
      ensures key == ENTER && IsBlank(old(input)) ==>
                sent == None && messages == old(messages) && input == old(input)
                && awaitedReplies == old(awaitedReplies)
      ensures key == ENTER && !IsBlank(old(input)) ==>
                && sent == Some(old(input))
                && messages == WithPending(old(messages), old(input))
                && input == "" && awaitedReplies == old(awaitedReplies) + 1
    {
      sent := None;
      if key == ENTER {
        sent := HandleSend();
      }
    }

    /** The rest of `handleSend`: the assistant's reply arrived. */
    method OnReply(reply: string)
      requires awaitedReplies > 0
      modifies this
      ensures messages == WithReply(old(messages), reply)
      ensures input == old(input) && awaitedReplies == old(awaitedReplies) - 1
    {
      var newMessages := WithoutLoading(messages);
      messages := newMessages + [ChatMessage(Model, reply)];
      awaitedReplies := awaitedReplies - 1;
    }
  }
}
