/** The chat transcript: sending appends the typed text as a user message
    unless it is blank, clears the input, and schedules one mock reply. */
module Chat {

  datatype Sender = User | Llm
  datatype Message = Message(text: string, sender: Sender)

  /** The fixed text of the scheduled reply. */
  const MockReply: string := "This is a mock LLM response. I'll be able to provide more helpful advice soon!"

  /** The characters `String.prototype.trim` removes: the ECMAScript white
      space characters (Zs included) and line terminators. */
  predicate IsJsWhitespace(c: char)
  {
    c == '\t' || c == '\n' || c == '\U{000B}' || c == '\U{000C}' || c == '\r' || c == ' '
    || c == '\U{00A0}' || c == '\U{1680}' || ('\U{2000}' <= c <= '\U{200A}')
    || c == '\U{2028}' || c == '\U{2029}' || c == '\U{202F}' || c == '\U{205F}'
    || c == '\U{3000}' || c == '\U{FEFF}'
  }

  /** `s` without its leading white space: what is left is a suffix of `s`
      that does not start with white space, and all that was cut is white space. */
  function TrimStart(s: string): (r: string)
    ensures |r| <= |s| && r == s[|s| - |r|..]
    ensures r != [] ==> !IsJsWhitespace(r[0])
    ensures forall i :: 0 <= i < |s| - |r| ==> IsJsWhitespace(s[i])
  {
    if s != [] && IsJsWhitespace(s[0]) then TrimStart(s[1..]) else s
  }

  /** `s` without its trailing white space: a prefix of `s` that does not end
      with white space, all that was cut being white space. */
  function TrimEnd(s: string): (r: string)
    ensures |r| <= |s| && r == s[..|r|]
    ensures r != [] ==> !IsJsWhitespace(r[|r| - 1])
    ensures forall i :: |r| <= i < |s| ==> IsJsWhitespace(s[i])
  {
    if s != [] && IsJsWhitespace(s[|s| - 1]) then TrimEnd(s[..|s| - 1]) else s
  }

  /** `r` is the slice of `s` starting at `i`, with only white space
      before and after it. */
  ghost predicate TrimmedAt(s: string, r: string, i: int)
  {
    && 0 <= i <= |s| - |r|
    && r == s[i..i + |r|]
    && (forall k :: 0 <= k < i ==> IsJsWhitespace(s[k]))
    && (forall k :: i + |r| <= k < |s| ==> IsJsWhitespace(s[k]))
  }

  /** `s.trim()`: the slice of `s` left after cutting the white space at
      both ends, which neither starts nor ends with white space. */
  function Trim(s: string): (r: string)
    ensures |r| <= |s|
    ensures exists i :: TrimmedAt(s, r, i)
    ensures r != [] ==> !IsJsWhitespace(r[0]) && !IsJsWhitespace(r[|r| - 1])
  {
    var t := TrimStart(s);
    var r := TrimEnd(t);
    var i := |s| - |t|;
    assert t == s[i..];
    assert r == t[..|r|];
    assert TrimmedAt(s, r, i);
    r
  }

  /** Every character is white space. */
  ghost predicate IsBlank(s: string)
  {
    forall i :: 0 <= i < |s| ==> IsJsWhitespace(s[i])
  }

  /** `s.trim() === ''` holds exactly when `s` consists of white space only. */
  lemma TrimEmptyIffBlank(s: string)
    ensures Trim(s) == "" <==> IsBlank(s)
  {
    var t := TrimStart(s);
    if t != "" {
      assert !IsJsWhitespace(s[|s| - |t|]);
      assert t[0] == s[|s| - |t|];
    }
  }

  /** The send guard `inputValue.trim() === ''`. */
  function TrimIsEmpty(s: string): (b: bool)
    ensures b <==> IsBlank(s)
  {
    TrimEmptyIffBlank(s);
    Trim(s) == ""
  }

  /** The number of messages from one sender. */
  function Count(ms: seq<Message>, who: Sender): nat
  {
    if ms == [] then 0
    else Count(ms[..|ms| - 1], who) + (if ms[|ms| - 1].sender == who then 1 else 0)
  }

  lemma CountAppend(ms: seq<Message>, m: Message, who: Sender)
    ensures Count(ms + [m], who) == Count(ms, who) + (if m.sender == who then 1 else 0)
  {
    assert (ms + [m])[..|ms|] == ms;
  }

  /** The chat panel's state. `pendingReplies` counts the mock replies
      scheduled by sends and not yet delivered. */
  class ChatInterface {
    var messages: seq<Message>
    var inputValue: string
    var pendingReplies: nat

    /** Each user message has had its reply delivered or has one pending. */
    ghost predicate Valid()
      reads this
    {
      Count(messages, Llm) + pendingReplies == Count(messages, User)
    }

    constructor ()
      ensures Valid() && messages == [] && inputValue == "" && pendingReplies == 0
    {
      messages := [];
      inputValue := "";
      pendingReplies := 0;
    }

    /** Typing in the text area. */
    method ChangeInput(v: string)
      modifies this
      ensures inputValue == v && messages == old(messages) && pendingReplies == old(pendingReplies)
    {
      inputValue := v;
    }

    /** "Send" or Enter: blank input is ignored; otherwise the input, as
        typed, becomes one user message, the input is cleared and one reply
        is scheduled. */
    method SendMessage() returns (sent: bool)
      requires Valid()
      modifies this
      ensures Valid()
      ensures sent <==> !IsBlank(old(inputValue))
      ensures !sent ==> messages == old(messages) && inputValue == old(inputValue)
                        && pendingReplies == old(pendingReplies)
      ensures sent ==> messages == old(messages) + [Message(old(inputValue), User)] && inputValue == ""
                       && pendingReplies == old(pendingReplies) + 1
    {
      if TrimIsEmpty(inputValue) {
        return false;
      }
      CountAppend(messages, Message(inputValue, User), User);
      CountAppend(messages, Message(inputValue, User), Llm);
      messages := messages + [Message(inputValue, User)];
      inputValue := "";
      pendingReplies := pendingReplies + 1;
      sent := true;
    }

    /** A scheduled reply fires: the mock text is appended as an LLM message. */
    method DeliverReply() returns (delivered: bool)
      requires Valid()
      modifies this
      ensures Valid()
      ensures delivered <==> old(pendingReplies) > 0
      ensures delivered ==> messages == old(messages) + [Message(MockReply, Llm)]
                            && pendingReplies == old(pendingReplies) - 1
      ensures !delivered ==> messages == old(messages) && pendingReplies == old(pendingReplies)
      ensures inputValue == old(inputValue)
    {
      if pendingReplies == 0 {
        return false;
      }
      CountAppend(messages, Message(MockReply, Llm), User);
      CountAppend(messages, Message(MockReply, Llm), Llm);
      messages := messages + [Message(MockReply, Llm)];
      pendingReplies := pendingReplies - 1;
      delivered := true;
    }
  }

  /** The test scenario: typing "Hello there!" and sending shows it and
      clears the input; a blank send adds nothing; the reply then follows. */
  method SendScenario() returns (transcript: seq<Message>, input: string)
    ensures transcript == [Message("Hello there!", User), Message(MockReply, Llm)]
    ensures input == ""
  {
    var chat := new ChatInterface();
    chat.ChangeInput("Hello there!");
    assert !IsJsWhitespace("Hello there!"[0]);
    var sent := chat.SendMessage();
    assert chat.messages == [Message("Hello there!", User)] && chat.inputValue == "";
    chat.ChangeInput(" \n");
    sent := chat.SendMessage();
    assert !sent;
    chat.ChangeInput("");
    var delivered := chat.DeliverReply();
    transcript, input := chat.messages, chat.inputValue;
  }
}
