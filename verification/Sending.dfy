/**
 * What a turn sends, frame by frame (crates/visp-acp/src/translate.rs and agent.rs), written out for
 * each kind of frame and each answer of the client.
 */
module Sending {
  import opened Collections
  import opened Translation
  import opened Sessions
  import opened Turns

  // ---- One frame ----

  /** The words that tell a cancellation among the errors. */
  ghost predicate SaysCancelled(f: Frame)
    requires f.Error?
  {
    f.code == "Operation cancelled" || exists a, b :: f.message == a + "cancelled" + b
  }

  function KindFor(tool: string): ToolKind {
    match tool
    case "read_file" => Read
    case "grep" | "glob" => Search
    case "write_file" | "edit_file" => Edit
    case "bash" => Execute
    case "webfetch" | "fetch_web" => Fetch
    case _ => if |tool| >= 10 && tool[..10] == "codegraph_" then Search else Other
  }

  /** The name of the tool and the first 80 characters of its arguments, if it has any. */
  function TitleFor(tool: string, arguments: string): string {
    if arguments == "" then tool
    else if |arguments| <= 80 then tool + "(" + arguments + ")"
    else tool + "(" + arguments[..80] + ")"
  }

  /** A tool's output in full, or its first 4000 and last 2000 characters and how many are missing. */
  function OutputFor(content: string): string {
    if |content| <= 8000 then content
    else
      content[..4000] + "\n…[输出过长,已截断 " + Decimal(|content| - 6000) + " 字符]…\n"
      + content[|content| - 2000..]
  }

  /**
   * What is sent for one frame; `id` is the id of the message it belongs to. Text, thinking, status
   * and errors show for the turn's own session only, tools and queries for every session.
   */
  ghost function SentFor(form: bool, sid: string, id: string, f: Frame, a: Answer): seq<Effect> {
    match f
    case TextDelta(session, _, delta) =>
      if session == sid then [Notify(MessageChunk(delta, Some(id)))] else []
    case ThinkingBlock(session, thinking) =>
      if session == sid then [Notify(ThoughtChunk(thinking, Some(id)))] else []
    case StatusUpdate(session, _, message) =>
      if session == sid then [Notify(MessageChunk(message, Some(id)))] else []
    case ToolCall(_, callId, tool, arguments) =>
      [Notify(ToolStarted(callId, TitleFor(tool, arguments), KindFor(tool)))]
    case ToolResult(_, callId, content, isError) =>
      [Notify(ToolUpdated(callId, isError, OutputFor(content)))]
    case UserQuery(_, queryId, message, options) =>
      if options == [] then AnswerApproval(queryId, a) else AnswerQuestion(form, queryId, message, a)
    case Error(session, _, message) =>
      if session == sid && !SaysCancelled(f) then [Notify(MessageChunk(message, None))] else []
    case Done(_) => []
    case Suppressed(_) => []
    case NoPayload => []
  }

  /** An approval is answered with the client's choice, and not at all when the turn is cancelled. */
  function AnswerApproval(queryId: string, a: Answer): seq<Effect> {
    match a
    case Given(index, _) => [Respond(queryId, index, "")]
    case Interrupted => []
  }

  /** A question is put to a client with forms; to any other it is shown, and declined for it. */
  function AnswerQuestion(form: bool, queryId: string, message: string, a: Answer): seq<Effect> {
    if form then
      match a
      case Given(index, text) => [Respond(queryId, index, text)]
      case Interrupted => []
    else
      [Notify(MessageChunk(message, None)),
       Respond(queryId, -1, "[当前客户端不支持交互式提问,已自动跳过] " + message)]
  }

  lemma ContainsIs(text: string, part: string)
    ensures Contains(text, part) <==> exists a, b :: text == a + part + b
  {
    if Contains(text, part) {
      var i :| 0 <= i <= |text| && OccursAt(text, part, i);
      assert text == text[..i] + part + text[i + |part|..];
    }
    if a, b :| text == a + part + b {
      assert text[|a|..|a| + |part|] == part;
      assert OccursAt(text, part, |a|);
    }
  }

  lemma CancelledIs(f: Frame)
    requires f.Error?
    ensures IsCancellation(f) <==> SaysCancelled(f)
  {
    ContainsIs(f.message, "cancelled");
    hide Contains;
  }

  lemma KindIs(tool: string)
    ensures KindOf(tool) == KindFor(tool)
  {
    assert |"codegraph_"| == 10 && "codegraph_"[0] == 'c';
    if "codegraph_" <= tool {
      assert tool[..10] == "codegraph_" && tool[0] == 'c';
      assert |"write_file"| == 10 && "write_file"[0] == 'w' && |"read_file"| == |"edit_file"| == |"fetch_web"| == 9;
    }
  }

  lemma TitleIs(tool: string, arguments: string)
    ensures TitleOf(tool, arguments) == TitleFor(tool, arguments)
  {
  }

  lemma OutputIs(content: string)
    ensures Truncated(content) == OutputFor(content)
  {
    assert |content| - TOOL_OUTPUT_HEAD - TOOL_OUTPUT_TAIL == |content| - 6000;
    hide Decimal;
  }

  /** The translation of a frame, delivered, is what is written out above. */
  lemma FrameSends(form: bool, c: Ctx, f: Frame, a: Answer)
    ensures Delivered(form, Emitted(c, f), a) == SentFor(form, c.parent, MessageName(After(c, f).seqNo), f, a)
  {
    hide KindOf, KindFor, TitleOf, TitleFor, Truncated, OutputFor, MessageName, IsCancellation, SaysCancelled, Contains;
    match f
    case ToolCall(_, _, tool, arguments) =>
      KindIs(tool);
      TitleIs(tool, arguments);
    case ToolResult(_, _, content, _) =>
      OutputIs(content);
    case Error(session, _, message) =>
      CancelledIs(f);
      if session == c.parent && !IsCancellation(f) {
        assert [ErrorText(message), FinishTurn(Refusal)][1..] == [FinishTurn(Refusal)];
      }
    case _ =>
  }

  /** The frames that end a turn, and the reasons they give. */
  lemma RulingIs(sid: string, f: Frame)
    ensures Ruling(sid, f) == Some(EndTurn) <==> f == Done(sid)
    ensures Ruling(sid, f) == Some(Cancelled) <==> f.Error? && f.session == sid && SaysCancelled(f)
    ensures Ruling(sid, f) == Some(Refusal) <==> f.Error? && f.session == sid && !SaysCancelled(f)
  {
    if f.Error? {
      CancelledIs(f);
    }
    hide IsCancellation, SaysCancelled;
  }

  // ---- Messages are numbered from 1 ----

  /** Text, thinking or status of the turn's own session, which belongs to a message. */
  predicate Speaks(sid: string, f: Frame) {
    (f.TextDelta? || f.ThinkingBlock? || f.StatusUpdate?) && f.session == sid
  }

  /** The agent that speaks; thinking has none. */
  function SpokenBy(f: Frame): string {
    match f
    case TextDelta(_, agent, _) => agent
    case StatusUpdate(_, agent, _) => agent
    case _ => ""
  }

  /** The `k`-th frame continues the message of the `j`-th: nothing is said and no tool called in between. */
  ghost predicate Continues(sid: string, fs: seq<Frame>, j: nat, k: nat)
    requires k <= |fs|
  {
    && j < k && Speaks(sid, fs[j])
    && forall m :: j < m < k ==> !Speaks(sid, fs[m]) && !fs[m].ToolCall?
  }

  /** A frame that starts a message: it continues none of the same agent. */
  ghost predicate Starts(sid: string, fs: seq<Frame>, k: nat)
    requires k < |fs|
  {
    Speaks(sid, fs[k]) && forall j :: 0 <= j < k && Continues(sid, fs, j, k) ==> SpokenBy(fs[j]) != SpokenBy(fs[k])
  }

  /** How many messages have started among the first `n` frames. */
  ghost function Started(sid: string, fs: seq<Frame>, n: nat): nat
    requires n <= |fs|
  {
    if n == 0 then 0 else Started(sid, fs, n - 1) + if Starts(sid, fs, n - 1) then 1 else 0
  }

  /** The last agent, as the translator remembers it, is the one whose message can go on. */
  ghost predicate Remembers(sid: string, fs: seq<Frame>, n: nat, last: Option<string>)
    requires n <= |fs|
  {
    && (last.Some? ==> exists j: nat :: Continues(sid, fs, j, n) && SpokenBy(fs[j]) == last.value)
    && (last.None? ==> forall j: nat :: !Continues(sid, fs, j, n))
  }

  lemma OnlyOneContinues(sid: string, fs: seq<Frame>, i: nat, j: nat, n: nat)
    requires n <= |fs| && Continues(sid, fs, i, n) && Continues(sid, fs, j, n)
    ensures i == j
  {
  }

  lemma ContinuesStep(sid: string, fs: seq<Frame>, j: nat, n: nat)
    requires n < |fs|
    ensures Continues(sid, fs, j, n + 1) <==>
            || (j == n && Speaks(sid, fs[n]))
            || (Continues(sid, fs, j, n) && !Speaks(sid, fs[n]) && !fs[n].ToolCall?)
  {
  }

  lemma StartsIff(sid: string, fs: seq<Frame>, n: nat, last: Option<string>)
    requires n < |fs| && Remembers(sid, fs, n, last)
    ensures Starts(sid, fs, n) <==> Speaks(sid, fs[n]) && last != Some(SpokenBy(fs[n]))
  {
    if last.Some? {
      var i: nat :| Continues(sid, fs, i, n) && SpokenBy(fs[i]) == last.value;
      forall j: nat | Continues(sid, fs, j, n)
        ensures j == i
      {
        OnlyOneContinues(sid, fs, i, j, n);
      }
    }
  }

  lemma RemembersStep(sid: string, fs: seq<Frame>, n: nat, last: Option<string>)
    requires n < |fs| && Remembers(sid, fs, n, last)
    ensures Remembers(sid, fs, n + 1, if Speaks(sid, fs[n]) then Some(SpokenBy(fs[n]))
                                      else if fs[n].ToolCall? then None else last)
  {
    if Speaks(sid, fs[n]) {
      assert Continues(sid, fs, n, n + 1);
    } else if !fs[n].ToolCall? && last.Some? {
      var i: nat :| Continues(sid, fs, i, n) && SpokenBy(fs[i]) == last.value;
      assert Continues(sid, fs, i, n + 1);
    } else {
      var next := n + 1;
      forall j: nat
        ensures !Continues(sid, fs, j, next)
      {
        ContinuesStep(sid, fs, j, n);
      }
    }
  }

  /** The translator's number is the number of messages started. */
  lemma {:induction false} NumberIsCount(sid: string, fs: seq<Frame>, n: nat)
    requires n <= |fs|
    ensures var c := CtxAfter(sid, fs[..n]);
            c.parent == sid && c.seqNo == Started(sid, fs, n) && Remembers(sid, fs, n, c.lastAgent)
  {
    hide Starts, Remembers;
    if n == 0 {
      NothingRemembered(sid, fs);
    } else {
      NumberIsCount(sid, fs, n - 1);
      CtxNext(sid, fs, n - 1);
      var c := CtxAfter(sid, fs[..n - 1]);
      StartsIff(sid, fs, n - 1, c.lastAgent);
      RemembersStep(sid, fs, n - 1, c.lastAgent);
      hide CtxAfter;
      assert Speaker(fs[n - 1]) == SpokenBy(fs[n - 1]);
    }
  }

  lemma NothingRemembered(sid: string, fs: seq<Frame>)
    ensures Remembers(sid, fs, 0, None)
  {
  }

  // ---- A turn as a whole ----

  /** All that the first `n` received frames call for, in order; messages are named by their number. */
  ghost function Sent(form: bool, sid: string, rs: seq<Received>, n: nat): seq<Effect>
    requires n <= |rs|
  {
    if n == 0 then []
    else
      Sent(form, sid, rs, n - 1)
      + SentFor(form, sid, "msg-" + Decimal(Started(sid, Frames(rs), n)), rs[n - 1].frame, rs[n - 1].answer)
  }

  lemma {:induction false} TurnSends(form: bool, sid: string, rs: seq<Received>, n: nat)
    requires n <= |rs|
    ensures TurnEffects(form, sid, rs[..n]) == Sent(form, sid, rs, n)
  {
    hide CtxAfter, Emitted, Delivered, After, SentFor, Started, Starts;
    if n > 0 {
      var fs := Frames(rs);
      TurnSends(form, sid, rs, n - 1);
      assert rs[..n][..n - 1] == rs[..n - 1];
      assert Frames(rs[..n - 1]) == fs[..n - 1];
      NumberIsCount(sid, fs, n - 1);
      NumberIsCount(sid, fs, n);
      CtxNext(sid, fs, n - 1);
      FrameSends(form, CtxAfter(sid, fs[..n - 1]), fs[n - 1], rs[n - 1].answer);
    }
  }

  /**
   * In every reachable state every finished turn has sent exactly what its frames call for; one that
   * failed has sent all but a part of what its last frame calls for.
   */
  lemma RunTurnsSend(form: bool, ss: seq<State>, ms: seq<Message>, i: nat, t: Turn)
    requires Run(form, ss, ms) && i <= |ms| && t in ss[i].turns
    ensures t.cause != ByFailure ==> t.effects == Sent(form, t.sid, t.received, |t.received|)
    ensures t.cause == ByFailure ==>
              && t.received != []
              && Sent(form, t.sid, t.received, |t.received| - 1) <= t.effects
              && t.effects < Sent(form, t.sid, t.received, |t.received|)
  {
    hide TurnEffects, Sent, Undecided, Ruling, NothingLost, OnePump, Next;
    RunKeepsInv(form, ss, ms, i);
    assert TurnOk(form, t);
    TurnSends(form, t.sid, t.received, |t.received|);
    assert t.received[..|t.received|] == t.received;
    if t.cause == ByFailure {
      TurnSends(form, t.sid, t.received, |t.received| - 1);
    }
  }

  // ---- Answers to queries ----

  predicate IsAnswer(e: Effect) {
    e.Respond?
  }

  /** A query that is answered: by the client, or for a client without forms. */
  function Answered(form: bool): Received -> bool {
    (r: Received) => r.frame.UserQuery? && (r.answer.Given? || (r.frame.options != [] && !form))
  }

  function ResponseTo(form: bool): Received -> Effect {
    (r: Received) =>
      if !r.frame.UserQuery? then Respond("", 0, "")
      else if r.frame.options != [] && !form
        then Respond(r.frame.queryId, -1, "[当前客户端不支持交互式提问,已自动跳过] " + r.frame.message)
      else if r.answer.Interrupted? then Respond(r.frame.queryId, 0, "")
      else if r.frame.options == [] then Respond(r.frame.queryId, r.answer.index, "")
      else Respond(r.frame.queryId, r.answer.index, r.answer.text)
  }

  lemma FilterPair(a: Effect, b: Effect)
    ensures Filter([a], IsAnswer) == if IsAnswer(a) then [a] else []
    ensures Filter([a, b], IsAnswer) == (if IsAnswer(a) then [a] else []) + if IsAnswer(b) then [b] else []
    ensures Filter([], IsAnswer) == []
  {
    FilterSingle(a, IsAnswer);
    FilterSingle(b, IsAnswer);
    FilterConcat([a], [b], IsAnswer);
    assert [a] + [b] == [a, b];
  }

  lemma OneAnswer(form: bool, sid: string, id: string, r: Received)
    ensures Filter(SentFor(form, sid, id, r.frame, r.answer), IsAnswer)
         == if Answered(form)(r) then [ResponseTo(form)(r)] else []
  {
    var sent := SentFor(form, sid, id, r.frame, r.answer);
    hide TitleFor, KindFor, OutputFor, SaysCancelled, Filter;
    if sent != [] {
      FilterPair(sent[0], sent[|sent| - 1]);
      assert sent == [sent[0]] || sent == [sent[0], sent[1]];
    } else {
      FilterPair(Respond("", 0, ""), Respond("", 0, ""));
    }
  }

  lemma AnswersStep(form: bool, sid: string, rs: seq<Received>, n: nat)
    requires 0 < n <= |rs|
    ensures Filter(Sent(form, sid, rs, n), IsAnswer)
         == Filter(Sent(form, sid, rs, n - 1), IsAnswer)
            + if Answered(form)(rs[n - 1]) then [ResponseTo(form)(rs[n - 1])] else []
  {
    hide SentFor, Started, Answered, ResponseTo, Filter;
    var id := "msg-" + Decimal(Started(sid, Frames(rs), n));
    OneAnswer(form, sid, id, rs[n - 1]);
    FilterConcat(Sent(form, sid, rs, n - 1), SentFor(form, sid, id, rs[n - 1].frame, rs[n - 1].answer), IsAnswer);
  }

  lemma AnsweredStep(form: bool, rs: seq<Received>, n: nat)
    requires 0 < n <= |rs|
    ensures Map(Filter(rs[..n], Answered(form)), ResponseTo(form))
         == Map(Filter(rs[..n - 1], Answered(form)), ResponseTo(form))
            + if Answered(form)(rs[n - 1]) then [ResponseTo(form)(rs[n - 1])] else []
  {
    hide Answered, ResponseTo, Filter;
    assert rs[..n] == rs[..n - 1] + [rs[n - 1]];
    FilterConcat(rs[..n - 1], [rs[n - 1]], Answered(form));
    FilterSingle(rs[n - 1], Answered(form));
  }

  /** The daemon gets one answer for each query that is not cancelled, in order. */
  lemma {:induction false} AnswersInOrder(form: bool, sid: string, rs: seq<Received>, n: nat)
    requires n <= |rs|
    ensures Filter(Sent(form, sid, rs, n), IsAnswer) == Map(Filter(rs[..n], Answered(form)), ResponseTo(form))
  {
    hide SentFor, Started, Answered, ResponseTo;
    if n == 0 {
      assert Filter(Sent(form, sid, rs, 0), IsAnswer) == [];
      assert Filter(rs[..0], Answered(form)) == [];
    } else {
      hide Sent, Filter, Map;
      AnswersInOrder(form, sid, rs, n - 1);
      AnswersStep(form, sid, rs, n);
      AnsweredStep(form, rs, n);
    }
  }
}
