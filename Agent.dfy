/** The agent's conversation window and its model fallback chain. */
module Agent {
  import opened Common

  /** A message of the conversation: a user request or a model response. */
  datatype Message = Request(text: string) | Response(text: string)

  // ---------------------------------------------------------------
  // Trimming
  // ---------------------------------------------------------------

  /** Python's `s[-m:]`: for a positive m the last m items (all of them when
      there are fewer), but for m == 0 the whole list, and for a negative m
      the list without its first -m items. */
  function TailSlice<T>(s: seq<T>, m: int): (r: seq<T>)
    ensures m > 0 ==> r == s[|s| - Min(m, |s|)..]
    ensures m == 0 ==> r == s
    ensures m < 0 ==> r == s[Min(-m, |s|)..]
  {
    if m > 0 then s[|s| - Min(m, |s|)..] else s[Min(-m, |s|)..]
  }

  /** _trim as written: `messages[-max_messages:]` once the list is longer
      than max_messages. */
  function TrimAsWritten(messages: seq<Message>, maxMessages: int): seq<Message>
  {
    if |messages| > maxMessages then TailSlice(messages, maxMessages) else messages
  }

  /** With a window of zero messages the written trim keeps everything. */
  lemma ZeroWindowKeepsAll(m: Message)
    ensures |TrimAsWritten([m], 0)| == 1
  {
    assert TailSlice([m], 0) == [m];
  }

  /** _trim as intended: keep the most recent max_messages messages (none
      for a window of zero or less). */
  function Trim(messages: seq<Message>, maxMessages: int): (r: seq<Message>)
    ensures |r| <= Max(0, maxMessages)
    ensures |r| <= |messages| && r == messages[|messages| - |r|..]
    ensures |messages| <= maxMessages ==> r == messages
  {
    if |messages| <= maxMessages then messages
    else messages[|messages| - Max(0, maxMessages)..]
  }

  /** For a positive window the intended trim is the written one. */
  lemma TrimAgreesForPositiveWindow(messages: seq<Message>, maxMessages: int)
    requires maxMessages > 0
    ensures Trim(messages, maxMessages) == TrimAsWritten(messages, maxMessages)
  {
    if |messages| > maxMessages {
      assert TailSlice(messages, maxMessages) == messages[|messages| - maxMessages..];
    }
  }

  class ConversationMemory {
    var maxMessages: int
    var messages: seq<Message>

    /** A positive window bounds the list; with max_messages <= 0 the
        written _trim does not bound it. */
    predicate Valid()
      reads this
    {
      maxMessages > 0 ==> |messages| <= maxMessages
    }

    constructor(maxMessages: int)
      ensures Valid() && this.maxMessages == maxMessages && messages == []
    {
      this.maxMessages := maxMessages;
      messages := [];
    }

    /** add_request: append at the end, then trim as written. */
    method AddRequest(text: string)
      requires Valid()
      modifies this
      ensures Valid() && maxMessages == old(maxMessages)
      ensures messages == TrimAsWritten(old(messages) + [Request(text)], maxMessages)
      ensures maxMessages > 0 ==> messages == Trim(old(messages) + [Request(text)], maxMessages)
      ensures maxMessages > 0 ==> messages[|messages| - 1] == Request(text)
      ensures maxMessages == 0 ==> messages == old(messages) + [Request(text)]
    {
      if maxMessages > 0 {
        TrimAgreesForPositiveWindow(messages + [Request(text)], maxMessages);
      }
      messages := TrimAsWritten(messages + [Request(text)], maxMessages);
    }

    /** add_response: append at the end, then trim as written. */
    method AddResponse(text: string)
      requires Valid()
      modifies this
      ensures Valid() && maxMessages == old(maxMessages)
      ensures messages == TrimAsWritten(old(messages) + [Response(text)], maxMessages)
      ensures maxMessages > 0 ==> messages == Trim(old(messages) + [Response(text)], maxMessages)
      ensures maxMessages > 0 ==> messages[|messages| - 1] == Response(text)
      ensures maxMessages == 0 ==> messages == old(messages) + [Response(text)]
    {
      if maxMessages > 0 {
        TrimAgreesForPositiveWindow(messages + [Response(text)], maxMessages);
      }
      messages := TrimAsWritten(messages + [Response(text)], maxMessages);
    }

    /** get_history: a copy of the window. */
    method GetHistory() returns (h: seq<Message>)
      ensures h == messages
    {
      h := messages;
    }

    /** clear. */
    method Clear()
      modifies this
      ensures messages == [] && maxMessages == old(maxMessages)
    {
      messages := [];
    }
  }

  /** A window that has only ever grown by appending keeps, in order, the
      most recent messages that fit: trimming after every append equals one
      trim of the whole conversation. */
  lemma {:induction false} TrimEachEqualsTrimAll(window: seq<Message>, all: seq<Message>, m: Message, maxMessages: int)
    requires window == Trim(all, maxMessages)
    ensures Trim(window + [m], maxMessages) == Trim(all + [m], maxMessages)
  {
    var k := Max(0, maxMessages);
    var a := all + [m];
    if |all| <= maxMessages {
      assert window == all;
    } else {
      assert window == all[|all| - k..];
      if |a| > maxMessages {
        if k == 0 {
          assert Trim(window + [m], maxMessages) == [];
        } else {
          assert window + [m] == all[|all| - k..] + [m];
          assert Trim(window + [m], maxMessages) == (window + [m])[1..];
          assert (all[|all| - k..] + [m])[1..] == a[|a| - k..];
        }
      }
    }
  }

  // ---------------------------------------------------------------
  // Model chain
  // ---------------------------------------------------------------

  const NoModels := "No models configured. Set OPENROUTER_API_KEY and model settings."

  /** get_model_chain: the configured names among primary, first and second
      fallback, in that order; ValueError (Err) when none is set. */
  function ModelChain(primary: string, fallback1: string, fallback2: string): (r: Result<seq<string>, string>)
    ensures r.Err? <==> primary == "" && fallback1 == "" && fallback2 == ""
    ensures r.Err? ==> r.error == NoModels
    ensures r.Ok? ==> r.value != [] && forall name :: name in r.value ==> name != ""
    ensures r.Ok? ==> r.value == (if primary != "" then [primary] else [])
                                 + (if fallback1 != "" then [fallback1] else [])
                                 + (if fallback2 != "" then [fallback2] else [])
    ensures r.Ok? && primary != "" ==> r.value[0] == primary
  {
    var models := (if primary != "" then [primary] else [])
                  + (if fallback1 != "" then [fallback1] else [])
                  + (if fallback2 != "" then [fallback2] else []);
    if models == [] then Err(NoModels) else Ok(models)
  }
}
