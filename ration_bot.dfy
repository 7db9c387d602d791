/**
 * The chat panel: the message history, the input line, the loading flag around a call to the
 * relay, the clear button and the voice-input toggle.
 */
module RationBot {
  import opened Wrappers

  /** The characters `String.prototype.trim` removes: white space and line terminators. */
  predicate IsTrimmable(c: char)
  {
    var n := c as int;
    n == 0x09 || n == 0x0B || n == 0x0C || n == 0x20 || n == 0xA0 || n == 0xFEFF ||
    n == 0x1680 || 0x2000 <= n <= 0x200A || n == 0x202F || n == 0x205F || n == 0x3000 ||
    n == 0x0A || n == 0x0D || n == 0x2028 || n == 0x2029
  }

  function TrimStart(s: string): (r: string)
    ensures |r| <= |s| && r == s[|s| - |r|..]
    ensures r == [] || !IsTrimmable(r[0])
    ensures forall k :: 0 <= k < |s| - |r| ==> IsTrimmable(s[k])
  {
    if s != [] && IsTrimmable(s[0]) then TrimStart(s[1..]) else s
  }

  function TrimEnd(s: string): (r: string)
    ensures |r| <= |s| && r == s[..|r|]
    ensures r == [] || !IsTrimmable(r[|r| - 1])
    ensures forall k :: |r| <= k < |s| ==> IsTrimmable(s[k])
  {
    if s != [] && IsTrimmable(s[|s| - 1]) then TrimEnd(s[..|s| - 1]) else s
  }

  /** `trim()`: the text without leading and trailing white space. */
  function Trim(s: string): string
  {
    TrimEnd(TrimStart(s))
  }

  /** Everything before position i and from position j on is white space. */
  predicate CutsOnlyBlank(s: string, i: int, j: int)
  {
    && 0 <= i <= j <= |s|
    && (forall k :: 0 <= k < i ==> IsTrimmable(s[k]))
    && (forall k :: j <= k < |s| ==> IsTrimmable(s[k]))
  }

  /** The trimmed text is a slice of the original, and everything cut off on either side is white space. */
  lemma TrimIsInnerSlice(s: string)
    ensures exists i, j :: CutsOnlyBlank(s, i, j) && Trim(s) == s[i..j]
  {
    var t := TrimStart(s);
    var i := |s| - |t|;
    var j := i + |TrimEnd(t)|;
    SliceOfSuffix(s, i, |TrimEnd(t)|);
    BlankAfterTrimEnd(s, t, i);
    assert CutsOnlyBlank(s, i, j);
  }

  /** A prefix of a suffix is a middle slice. */
  lemma SliceOfSuffix(s: string, i: nat, n: nat)
    requires i + n <= |s|
    ensures s[i..][..n] == s[i..i + n]
  {
  }

  /** What TrimEnd cuts off a suffix of `s` is white space in `s` itself. */
  lemma BlankAfterTrimEnd(s: string, t: string, i: nat)
    requires i <= |s| && t == s[i..]
    ensures forall k :: i + |TrimEnd(t)| <= k < |s| ==> IsTrimmable(s[k])
  {
    forall k | i + |TrimEnd(t)| <= k < |s|
      ensures IsTrimmable(s[k])
    {
      assert s[k] == t[k - i];
    }
  }

  /** The trimmed text neither starts nor ends with white space. */
  lemma TrimEndsNonBlank(s: string)
    ensures Trim(s) == [] || (!IsTrimmable(Trim(s)[0]) && !IsTrimmable(Trim(s)[|Trim(s)| - 1]))
  {
    var t := TrimStart(s);
    var r := TrimEnd(t);
    if r != [] {
      assert r[0] == t[0];
    }
  }

  /** Only white space trims to nothing. */
  lemma TrimEmptyIffBlank(s: string)
    ensures Trim(s) == "" <==> forall k :: 0 <= k < |s| ==> IsTrimmable(s[k])
  {
    if Trim(s) == "" {
      assert TrimStart(s) == [];
    }
    if forall k :: 0 <= k < |s| ==> IsTrimmable(s[k]) {
      TrimStartOfBlank(s);
    }
  }

  /** White space alone trims away from the start entirely. */
  lemma {:induction false} TrimStartOfBlank(s: string)
    requires forall k :: 0 <= k < |s| ==> IsTrimmable(s[k])
    ensures TrimStart(s) == []
  {
    if s != [] {
      assert forall k :: 0 <= k < |s[1..]| ==> s[1..][k] == s[k + 1];
      TrimStartOfBlank(s[1..]);
    }
  }

  /** Trimming twice is trimming once. */
  lemma TrimIdempotent(s: string)
    ensures Trim(Trim(s)) == Trim(s)
  {
    var r := Trim(s);
    TrimEndsNonBlank(s);
    if r != [] {
      assert TrimStart(r) == r;
      assert TrimEnd(r) == r;
    }
  }

  datatype Role = User | Bot

  datatype Message = Message(role: Role, content: string)

  /** What the relay call comes back with: an answer, or an error (thrown or returned). */
  datatype Reply = Answer(text: string) | Failed(reason: string)

  /**
   * The text a send would post: an explicitly given non-empty message as it is, untrimmed;
   * otherwise the input line, trimmed.
   */
  function TextToSend(explicit: Option<string>, input: string): (t: string)
    ensures explicit.Some? && explicit.value != "" ==> t == explicit.value
    ensures (explicit.None? || explicit.value == "") ==> t == Trim(input)
  {
    if explicit.Some? && explicit.value != "" then explicit.value else Trim(input)
  }

  class ChatPanel {
    /** Whether the browser offers speech recognition. */
    const hasRecognizer: bool
    var messages: seq<Message>
    var input: string
    var loading: bool
    var listening: bool

    /** Every message the citizen sent has some text. */
    ghost predicate Valid()
      reads this
    {
      forall k :: 0 <= k < |messages| && messages[k].role == User ==> messages[k].content != ""
    }

    constructor (recognizer: bool)
      ensures Valid()
      ensures hasRecognizer == recognizer
      ensures messages == [] && input == "" && !loading && !listening
    {
      hasRecognizer := recognizer;
      messages := [];
      input := "";
      loading := false;
      listening := false;
    }

    method SetInput(text: string)
      requires Valid()
      modifies this
      ensures Valid()
      ensures input == text
      ensures messages == old(messages) && loading == old(loading) && listening == old(listening)
    {
      input := text;
    }

    /** The send button is enabled when nothing is loading and the input is not blank. */
    predicate SendEnabled()
      reads this
    {
      !loading && Trim(input) != ""
    }

    /** The quick-action buttons are shown on an empty history, the clear button otherwise. */
    predicate QuickActionsShown()
      reads this
    {
      |messages| == 0
    }

    /**
     * A send, from the button or Enter (`explicit` is None) or from a quick action, whose
     * buttons exist only on an empty history. A blank text or a call in flight makes it do
     * nothing; otherwise the user message is appended, the input cleared and loading set.
     */
    method Send(explicit: Option<string>) returns (accepted: bool, sent: string)
      requires Valid()
      requires explicit.Some? ==> QuickActionsShown()
      modifies this
      ensures Valid()
      ensures sent == TextToSend(explicit, old(input))
      ensures accepted <==> sent != "" && !old(loading)
      ensures explicit.None? ==> (accepted <==> old(SendEnabled()))
      ensures accepted ==> messages == old(messages) + [Message(User, sent)] && input == "" && loading
      ensures !accepted ==> messages == old(messages) && input == old(input) && loading == old(loading)
      ensures listening == old(listening)
    {
      sent := TextToSend(explicit, input);
      accepted := sent != "" && !loading;
      if accepted {
        messages := messages + [Message(User, sent)];
        input := "";
        loading := true;
      }
    }

    /**
     * The relay's reply: an answer appends one bot message; an error appends nothing. Either
     * way loading ends.
     */
    method Receive(reply: Reply)
      requires Valid()
      requires loading
      modifies this
      ensures Valid()
      ensures reply.Answer? ==> messages == old(messages) + [Message(Bot, reply.text)]
      ensures reply.Failed? ==> messages == old(messages)
      ensures !loading
      ensures input == old(input) && listening == old(listening)
    {
      if reply.Answer? {
        messages := messages + [Message(Bot, reply.text)];
      }
      loading := false;
    }

    method Clear()
      requires Valid()
      modifies this
      ensures Valid()
      ensures messages == []
      ensures input == old(input) && loading == old(loading) && listening == old(listening)
    {
      messages := [];
    }

    /** The microphone button: without a recognizer nothing changes; otherwise listening flips. */
    method ToggleListening()
      requires Valid()
      modifies this
      ensures Valid()
      ensures listening == if hasRecognizer then !old(listening) else old(listening)
      ensures messages == old(messages) && input == old(input) && loading == old(loading)
    {
      if hasRecognizer {
        listening := !listening;
      }
    }

    /** A recognition result: the transcript becomes the input and listening stops. */
    method RecognitionResult(transcript: string)
      requires Valid()
      modifies this
      ensures Valid()
      ensures input == transcript && !listening
      ensures messages == old(messages) && loading == old(loading)
    {
      input := transcript;
      listening := false;
    }

    /** A recognition error stops listening. */
    method RecognitionError()
      requires Valid()
      modifies this
      ensures Valid()
      ensures !listening
      ensures messages == old(messages) && input == old(input) && loading == old(loading)
    {
      listening := false;
    }
  }

  /** The enabled send button always sends: the trimmed input is what gets posted. */
  lemma EnabledSendPostsTrimmedInput(panel: ChatPanel)
    requires panel.SendEnabled()
    ensures TextToSend(None, panel.input) == Trim(panel.input) && TextToSend(None, panel.input) != ""
  {
  }

  /**
   * One exchange from a fresh panel: a non-blank input goes out trimmed, the answer follows
   * it, and the panel is idle again.
   */
  method Exchange(typed: string, answer: string) returns (history: seq<Message>)
    requires Trim(typed) != ""
    ensures history == [Message(User, Trim(typed)), Message(Bot, answer)]
  {
    var panel := new ChatPanel(false);
    panel.SetInput(typed);
    var accepted, sent := panel.Send(None);
    panel.Receive(Answer(answer));
    history := panel.messages;
  }
}
