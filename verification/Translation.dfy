/**
 * The translation of the daemon's event stream into ACP output (crates/visp-acp/src/translate.rs).
 *
 * The functions describe the translator one frame at a time, the class carries it out in place, and
 * the lemmas are about whole streams: which message ids agree, and what does not show at all.
 */
module Translation {
  import opened Collections

  /** A message from the daemon, as far as the translator looks at it. */
  datatype Frame =
    | TextDelta(session: string, agent: string, delta: string)
    | ThinkingBlock(session: string, thinking: string)
    | ToolCall(session: string, callId: string, toolName: string, arguments: string)
    | ToolResult(session: string, callId: string, content: string, isError: bool)
    | UserQuery(session: string, queryId: string, message: string, options: seq<string>)
    | Done(session: string)
    | Error(session: string, code: string, message: string)
    | StatusUpdate(session: string, agent: string, message: string)
    | Suppressed(session: string)   // usage, echoes of user messages, images
    | NoPayload

  datatype StopReason = EndTurn | Cancelled | Refusal

  datatype ToolKind = Read | Search | Edit | Execute | Fetch | Other

  datatype Update =
    | MessageChunk(text: string, messageId: Option<string>)
    | ThoughtChunk(text: string, messageId: Option<string>)
    | ToolStarted(callId: string, title: string, kind: ToolKind)
    | ToolUpdated(callId: string, failed: bool, content: string)

  datatype Outbound =
    | Shown(update: Update)
    | ErrorText(text: string)
    | ApprovalNeeded(query: Frame)
    | QuestionNeeded(query: Frame)
    | FinishTurn(reason: StopReason)

  const CANCELLED_CODE := "Operation cancelled"
  const TOOL_OUTPUT_MAX_CHARS := 8000
  const TOOL_OUTPUT_HEAD := 4000
  const TOOL_OUTPUT_TAIL := 2000

  // ---- Names and texts ----

  /** A number in decimal notation. */
  function Decimal(n: nat): string {
    if n < 10 then ["0123456789"[n]] else Decimal(n / 10) + ["0123456789"[n % 10]]
  }

  function MessageName(seqNo: nat): string {
    "msg-" + Decimal(seqNo)
  }

  /** The last digit, and what is before it. */
  lemma DecimalLast(n: nat)
    ensures var d := Decimal(n);
      d != [] && d[|d| - 1] == "0123456789"[n % 10] && d[..|d| - 1] == if n < 10 then [] else Decimal(n / 10)
    ensures n >= 10 ==> Decimal(n / 10) != []
  {
  }

  lemma DigitInjective(a: nat, b: nat)
    requires a < 10 && b < 10 && "0123456789"[a] == "0123456789"[b]
    ensures a == b
  {
  }

  lemma {:induction false} DecimalInjective(a: nat, b: nat)
    requires Decimal(a) == Decimal(b)
    ensures a == b
  {
    hide Decimal;
    DecimalLast(a);
    DecimalLast(b);
    DigitInjective(a % 10, b % 10);
    if a >= 10 && b >= 10 {
      DecimalInjective(a / 10, b / 10);
    }
  }

  /** Different sequence numbers give different message ids. */
  lemma MessageNameInjective(a: nat, b: nat)
    ensures MessageName(a) == MessageName(b) <==> a == b
  {
    if MessageName(a) == MessageName(b) {
      assert MessageName(a)[4..] == Decimal(a) && MessageName(b)[4..] == Decimal(b);
      DecimalInjective(a, b);
    }
  }

  predicate Contains(text: string, part: string) {
    exists i :: 0 <= i <= |text| && OccursAt(text, part, i)
  }

  predicate OccursAt(text: string, part: string, i: nat) {
    i + |part| <= |text| && text[i..i + |part|] == part
  }

  function KindOf(name: string): ToolKind {
    if name == "read_file" then Read
    else if name in ["grep", "glob"] || "codegraph_" <= name then Search
    else if name in ["write_file", "edit_file"] then Edit
    else if name == "bash" then Execute
    else if name in ["webfetch", "fetch_web"] then Fetch
    else Other
  }

  function TitleOf(name: string, arguments: string): string {
    var args := if |arguments| <= 80 then arguments else arguments[..80];
    if args == "" then name else name + "(" + args + ")"
  }

  function Notice(omitted: nat): string {
    "\n…[输出过长,已截断 " + Decimal(omitted) + " 字符]…\n"
  }

  function Truncated(content: string): string {
    if |content| <= TOOL_OUTPUT_MAX_CHARS then content
    else
      content[..TOOL_OUTPUT_HEAD]
      + Notice(|content| - TOOL_OUTPUT_HEAD - TOOL_OUTPUT_TAIL)
      + content[|content| - TOOL_OUTPUT_TAIL..]
  }

  lemma {:induction false} DecimalShort(n: nat)
    ensures 1 <= |Decimal(n)| <= 1 + n / 10
  {
    if n >= 10 {
      DecimalShort(n / 10);
    }
  }

  predicate EndsOf(content: string, head: string, tail: string) {
    |head| + |tail| <= |content| && content[..|head|] == head && content[|content| - |tail|..] == tail
  }

  lemma NoticeShort(omitted: nat)
    ensures |Notice(omitted)| <= 40 + omitted / 10
  {
    DecimalShort(omitted);
  }

  lemma CutEnds(content: string, n: nat, m: nat)
    requires |content| > n + m + 200
    ensures var head, tail := content[..n], content[|content| - m..];
            && |head| == n && |tail| == m && EndsOf(content, head, tail)
            && |head + Notice(|content| - n - m) + tail| < |content|
  {
    NoticeShort(|content| - n - m);
    hide Notice;
  }

  /**
   * A tool's output is shown in full exactly when it has at most 8000 characters. Of a longer one the
   * first 4000 and the last 2000 characters are shown, with how many are missing in between, and what
   * is shown is shorter than the output.
   */
  lemma TruncatedKeepsEnds(content: string)
    ensures Truncated(content) == content <==> |content| <= 8000
    ensures |content| > 8000 ==>
              && |Truncated(content)| < |content|
              && exists head, tail :: EndsOf(content, head, tail) && |head| == 4000 && |tail| == 2000
                                      && Truncated(content) == head + Notice(|content| - |head| - |tail|) + tail
  {
    hide Notice, EndsOf;
    if |content| > TOOL_OUTPUT_MAX_CHARS {
      CutEnds(content, TOOL_OUTPUT_HEAD, TOOL_OUTPUT_TAIL);
    }
  }

  // ---- One frame ----

  /** The state of the translator: the message id is named by `seqNo`. */
  datatype Ctx = Ctx(parent: string, seqNo: nat, lastAgent: Option<string>)

  function Fresh(parent: string): Ctx {
    Ctx(parent, 0, None)
  }

  /** A piece of text of the parent session, which gets a message id. */
  predicate IsChunk(parent: string, f: Frame) {
    (f.TextDelta? || f.ThinkingBlock? || f.StatusUpdate?) && f.session == parent
  }

  /** Thinking carries no agent name. */
  function Speaker(f: Frame): string {
    match f
    case TextDelta(_, agent, _) => agent
    case StatusUpdate(_, agent, _) => agent
    case _ => ""
  }

  function Spoken(c: Ctx, agent: string): Ctx {
    if c.lastAgent == Some(agent) then c else Ctx(c.parent, c.seqNo + 1, Some(agent))
  }

  function After(c: Ctx, f: Frame): Ctx {
    if IsChunk(c.parent, f) then Spoken(c, Speaker(f))
    else if f.ToolCall? then c.(lastAgent := None)
    else c
  }

  predicate IsCancellation(f: Frame)
    requires f.Error?
  {
    f.code == CANCELLED_CODE || Contains(f.message, "cancelled")
  }

  function Emitted(c: Ctx, f: Frame): seq<Outbound> {
    var id := Some(MessageName(Spoken(c, Speaker(f)).seqNo));
    match f
    case TextDelta(session, _, delta) =>
      if session != c.parent then [] else [Shown(MessageChunk(delta, id))]
    case ThinkingBlock(session, thinking) =>
      if session != c.parent then [] else [Shown(ThoughtChunk(thinking, id))]
    case ToolCall(_, callId, toolName, arguments) =>
      [Shown(ToolStarted(callId, TitleOf(toolName, arguments), KindOf(toolName)))]
    case ToolResult(_, callId, content, isError) =>
      [Shown(ToolUpdated(callId, isError, Truncated(content)))]
    case UserQuery(_, _, _, options) =>
      if options == [] then [ApprovalNeeded(f)] else [QuestionNeeded(f)]
    case Done(session) =>
      if session != c.parent then [] else [FinishTurn(EndTurn)]
    case Error(session, _, message) =>
      if session != c.parent then []
      else if IsCancellation(f) then [FinishTurn(Cancelled)]
      else [ErrorText(message), FinishTurn(Refusal)]
    case StatusUpdate(session, _, message) =>
      if session != c.parent then [] else [Shown(MessageChunk(message, id))]
    case Suppressed(_) => []
    case NoPayload => []
  }

  // ---- A stream of frames ----

  function CtxAfter(parent: string, fs: seq<Frame>): Ctx {
    if fs == [] then Fresh(parent) else After(CtxAfter(parent, fs[..|fs| - 1]), fs[|fs| - 1])
  }

  function Output(parent: string, fs: seq<Frame>): seq<Outbound> {
    if fs == [] then []
    else Output(parent, fs[..|fs| - 1]) + Emitted(CtxAfter(parent, fs[..|fs| - 1]), fs[|fs| - 1])
  }

  lemma {:induction false} SameParent(parent: string, fs: seq<Frame>)
    ensures CtxAfter(parent, fs).parent == parent
  {
    if fs != [] {
      SameParent(parent, fs[..|fs| - 1]);
    }
  }

  lemma CtxNext(parent: string, fs: seq<Frame>, j: nat)
    requires j < |fs|
    ensures CtxAfter(parent, fs[..j + 1]) == After(CtxAfter(parent, fs[..j]), fs[j])
    ensures CtxAfter(parent, fs[..j]).parent == parent
  {
    assert fs[..j + 1][..j] == fs[..j];
    SameParent(parent, fs[..j]);
  }

  // ---- Which message ids agree ----

  /** The message id that the i-th frame of a stream is shown under. */
  function IdOf(parent: string, fs: seq<Frame>, i: nat): Option<string>
    requires i < |fs| && IsChunk(parent, fs[i])
  {
    SameParent(parent, fs[..i]);
    Emitted(CtxAfter(parent, fs[..i]), fs[i])[0].update.messageId
  }

  /** From one chunk to another no tool call comes in between and every parent chunk has the same speaker. */
  ghost predicate Unbroken(parent: string, fs: seq<Frame>, i: nat, j: nat)
    requires i <= j < |fs|
  {
    forall k :: i < k <= j ==> !fs[k].ToolCall? && (IsChunk(parent, fs[k]) ==> Speaker(fs[k]) == Speaker(fs[i]))
  }

  lemma IdIsSeqNo(parent: string, fs: seq<Frame>, i: nat)
    requires i < |fs| && IsChunk(parent, fs[i])
    ensures IdOf(parent, fs, i) == Some(MessageName(CtxAfter(parent, fs[..i + 1]).seqNo))
  {
    CtxNext(parent, fs, i);
  }

  lemma UnbrokenNext(parent: string, fs: seq<Frame>, i: nat, j: nat)
    requires i < j < |fs|
    ensures Unbroken(parent, fs, i, j) <==>
            Unbroken(parent, fs, i, j - 1) && !fs[j].ToolCall?
            && (IsChunk(parent, fs[j]) ==> Speaker(fs[j]) == Speaker(fs[i]))
  {
  }

  /** Where the translator stands after an unbroken, or a broken, stretch that began with a chunk. */
  lemma {:induction false} Stretch(parent: string, fs: seq<Frame>, i: nat, j: nat)
    requires i <= j < |fs| && IsChunk(parent, fs[i])
    ensures var c, d := CtxAfter(parent, fs[..i + 1]), CtxAfter(parent, fs[..j + 1]);
            if Unbroken(parent, fs, i, j) then d == c && d.lastAgent == Some(Speaker(fs[i]))
            else d.seqNo > c.seqNo || (d.seqNo == c.seqNo && d.lastAgent == None)
    decreases j
  {
    hide CtxAfter;
    if i == j {
      CtxNext(parent, fs, j);
      return;
    }
    Stretch(parent, fs, i, j - 1);
    UnbrokenNext(parent, fs, i, j);
    CtxNext(parent, fs, j);
    hide Unbroken, IsChunk, Speaker;
  }

  /** Two parent chunks share a message id exactly when nothing broke the message between them. */
  lemma SameMessageIff(parent: string, fs: seq<Frame>, i: nat, j: nat)
    requires i < j < |fs| && IsChunk(parent, fs[i]) && IsChunk(parent, fs[j])
    ensures IdOf(parent, fs, i) == IdOf(parent, fs, j) <==> Unbroken(parent, fs, i, j)
  {
    IdIsSeqNo(parent, fs, i);
    IdIsSeqNo(parent, fs, j);
    var c, d := CtxAfter(parent, fs[..i + 1]), CtxAfter(parent, fs[..j + 1]);
    MessageNameInjective(c.seqNo, d.seqNo);
    Stretch(parent, fs, i, j);
    Stretch(parent, fs, i, j - 1);
    CtxNext(parent, fs, j);
  }

  /** An id given up is never used again. */
  lemma IdsNeverRecur(parent: string, fs: seq<Frame>, i: nat, j: nat, k: nat)
    requires i < j < k < |fs|
    requires IsChunk(parent, fs[i]) && IsChunk(parent, fs[j]) && IsChunk(parent, fs[k])
    requires IdOf(parent, fs, i) != IdOf(parent, fs, j)
    ensures IdOf(parent, fs, k) != IdOf(parent, fs, i)
  {
    SameMessageIff(parent, fs, i, j);
    SameMessageIff(parent, fs, i, k);
    if Unbroken(parent, fs, i, k) {
      assert Unbroken(parent, fs, i, j);
    }
  }

  /** Every stream starts counting at the same id, so ids do recur from one turn to the next. */
  lemma {:induction false} FirstIdIsOne(parent: string, fs: seq<Frame>, i: nat)
    requires i < |fs| && IsChunk(parent, fs[i])
    requires forall k :: 0 <= k < i ==> !IsChunk(parent, fs[k])
    ensures IdOf(parent, fs, i) == Some("msg-1")
  {
    NothingSpoken(parent, fs, i);
    IdIsSeqNo(parent, fs, i);
    CtxNext(parent, fs, i);
    assert MessageName(1) == "msg-1";
  }

  lemma {:induction false} NothingSpoken(parent: string, fs: seq<Frame>, i: nat)
    requires i <= |fs| && forall k :: 0 <= k < i ==> !IsChunk(parent, fs[k])
    ensures CtxAfter(parent, fs[..i]) == Fresh(parent)
  {
    if i > 0 {
      NothingSpoken(parent, fs, i - 1);
      CtxNext(parent, fs, i - 1);
    }
  }

  // ---- What does not show ----

  /** Text, thinking, status and ends of any session other than the parent. */
  predicate ChildNoise(parent: string, f: Frame) {
    (f.TextDelta? || f.ThinkingBlock? || f.StatusUpdate? || f.Done? || f.Error?) && f.session != parent
  }

  predicate Silent(parent: string, f: Frame) {
    ChildNoise(parent, f) || f.Suppressed? || f.NoPayload?
  }

  function Audible(parent: string): Frame -> bool {
    (f: Frame) => !Silent(parent, f)
  }

  lemma Snoc(parent: string, fs: seq<Frame>, f: Frame)
    ensures CtxAfter(parent, fs + [f]) == After(CtxAfter(parent, fs), f)
    ensures Output(parent, fs + [f]) == Output(parent, fs) + Emitted(CtxAfter(parent, fs), f)
    ensures CtxAfter(parent, fs).parent == parent
  {
    assert (fs + [f])[..|fs|] == fs;
    SameParent(parent, fs);
  }

  /** The silent frames are exactly those that neither show nor influence what is shown later. */
  lemma SilentIff(c: Ctx, f: Frame)
    ensures Silent(c.parent, f) <==> Emitted(c, f) == [] && After(c, f) == c
  {
  }

  /**
   * Child agents' text, thinking, status, Done and Error frames leave no trace, whatever else
   * streams by; nor do the frames that are suppressed for every session.
   */
  lemma {:induction false} SilentFramesLeaveNoTrace(parent: string, fs: seq<Frame>)
    ensures Output(parent, Filter(fs, Audible(parent))) == Output(parent, fs)
    ensures CtxAfter(parent, Filter(fs, Audible(parent))) == CtxAfter(parent, fs)
  {
    hide Emitted, After, Silent, CtxAfter, Output;
    if fs == [] {
      assert Filter(fs, Audible(parent)) == [];
    } else {
      var init, last := fs[..|fs| - 1], fs[|fs| - 1];
      SilentFramesLeaveNoTrace(parent, init);
      SameParent(parent, init);
      assert fs == init + [last];
      FilterConcat(init, [last], Audible(parent));
      FilterSingle(last, Audible(parent));
      var kept := Filter(init, Audible(parent));
      Snoc(parent, init, last);
      if Audible(parent)(last) {
        Snoc(parent, kept, last);
      } else {
        assert kept + [] == kept;
        SilentIff(CtxAfter(parent, init), last);
      }
    }
  }

  // ---- The end of a turn ----

  /** The parent frames that end a turn, and how. */
  function Ruling(parent: string, f: Frame): Option<StopReason> {
    if f.Done? && f.session == parent then Some(EndTurn)
    else if f.Error? && f.session == parent then Some(if IsCancellation(f) then Cancelled else Refusal)
    else None
  }

  // ---- The translator itself ----

  class TranslateCtx {
    const parentSessionId: string
    var messageId: string
    var messageSeq: nat
    var lastAgent: Option<string>

    ghost predicate Valid()
      reads this
    {
      messageId == MessageName(messageSeq)
    }

    ghost function Value(): Ctx
      reads this
    {
      Ctx(parentSessionId, messageSeq, lastAgent)
    }

    constructor (parent: string)
      ensures Valid() && Value() == Fresh(parent)
    {
      parentSessionId := parent;
      messageId, messageSeq, lastAgent := "msg-0", 0, None;
    }

    /** Consecutive text of one agent keeps its id; another agent gets a new one. */
    method EnsureMessageId(agent: string) returns (id: string)
      requires Valid()
      modifies this
      ensures Valid() && Value() == Spoken(old(Value()), agent)
      ensures id == MessageName(messageSeq)
    {
      if lastAgent != Some(agent) {
        messageSeq := messageSeq + 1;
        messageId := MessageName(messageSeq);
        lastAgent := Some(agent);
      }
      id := messageId;
    }

    /** The next text after a tool call starts a new message. */
    method RotateForTool()
      requires Valid()
      modifies this
      ensures Valid() && Value() == old(Value()).(lastAgent := None)
    {
      lastAgent := None;
    }

    method Translate(f: Frame) returns (out: seq<Outbound>)
      requires Valid()
      modifies this
      ensures Valid() && Value() == After(old(Value()), f)
      ensures out == Emitted(old(Value()), f)
    {
      match f
      case TextDelta(session, agent, delta) =>
        if session != parentSessionId {
          return [];
        }
        var id := EnsureMessageId(agent);
        out := [Shown(MessageChunk(delta, Some(id)))];
      case ThinkingBlock(session, thinking) =>
        if session != parentSessionId {
          return [];
        }
        var id := EnsureMessageId("");
        out := [Shown(ThoughtChunk(thinking, Some(id)))];
      case ToolCall(_, callId, toolName, arguments) =>
        RotateForTool();
        out := [Shown(ToolStarted(callId, TitleOf(toolName, arguments), KindOf(toolName)))];
      case ToolResult(_, callId, content, isError) =>
        out := [Shown(ToolUpdated(callId, isError, Truncated(content)))];
      case UserQuery(_, _, _, options) =>
        out := if options == [] then [ApprovalNeeded(f)] else [QuestionNeeded(f)];
      case Done(session) =>
        if session != parentSessionId {
          return [];
        }
        out := [FinishTurn(EndTurn)];
      case Error(session, code, message) =>
        if session != parentSessionId {
          return [];
        }
        if code == CANCELLED_CODE || Contains(message, "cancelled") {
          return [FinishTurn(Cancelled)];
        }
        out := [ErrorText(message), FinishTurn(Refusal)];
      case StatusUpdate(session, agent, message) =>
        if session != parentSessionId {
          return [];
        }
        var id := EnsureMessageId(agent);
        out := [Shown(MessageChunk(message, Some(id)))];
      case Suppressed(_) =>
        out := [];
      case NoPayload =>
        out := [];
    }
  }
}
