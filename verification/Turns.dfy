/**
 * The turns of the ACP agent as a state machine (crates/visp-acp/src/agent.rs): prompts, cancel
 * requests and frames from the daemon arrive in any order while the pump of a prompt is at work.
 * Module Agent holds the pump loop itself.
 */
module Turns {
  import opened Collections
  import opened Translation
  import opened Sessions

  datatype Block = Text(text: string) | NotText

  /** How the client answered a query, or that it was cancelled first. */
  datatype Answer = Given(index: int, text: string) | Interrupted

  /** A frame taken from the daemon together with the client's answer, should it be asked. */
  datatype Received = Received(frame: Frame, answer: Answer)

  /** What a pump sends: updates to the client, answers to the daemon. */
  datatype Effect = Notify(update: Update) | Respond(queryId: string, index: int, text: string)

  const SKIPPED := "[当前客户端不支持交互式提问,已自动跳过] "

  // ---- One frame ----

  function EffectsOf(form: bool, o: Outbound, a: Answer): seq<Effect> {
    match o
    case Shown(update) => [Notify(update)]
    case ErrorText(text) => [Notify(MessageChunk(text, None))]
    case ApprovalNeeded(q) =>
      if a.Interrupted? || !q.UserQuery? then [] else [Respond(q.queryId, a.index, "")]
    case QuestionNeeded(q) =>
      if !q.UserQuery? then []
      else if !form then [Notify(MessageChunk(q.message, None)), Respond(q.queryId, -1, SKIPPED + q.message)]
      else if a.Interrupted? then []
      else [Respond(q.queryId, a.index, a.text)]
    case FinishTurn(_) => []
  }

  /** What is sent for the translation of one frame; nothing after the turn is finished. */
  function Delivered(form: bool, out: seq<Outbound>, a: Answer): seq<Effect> {
    if out == [] || out[0].FinishTurn? then [] else EffectsOf(form, out[0], a) + Delivered(form, out[1..], a)
  }

  function Verdict(out: seq<Outbound>): Option<StopReason> {
    if out == [] then None else if out[0].FinishTurn? then Some(out[0].reason) else Verdict(out[1..])
  }

  /** A turn is finished by the parent's Done and Error frames and by nothing else. */
  lemma VerdictIsRuling(c: Ctx, f: Frame)
    ensures Verdict(Emitted(c, f)) == Ruling(c.parent, f)
  {
    var out := Emitted(c, f);
    if |out| == 2 {
      assert out[1..] == [FinishTurn(Refusal)];
    }
  }

  // ---- A turn as a whole ----

  function Frames(rs: seq<Received>): seq<Frame> {
    Map(rs, (r: Received) => r.frame)
  }

  /** All that is sent during a turn that has received `rs`. */
  function TurnEffects(form: bool, sid: string, rs: seq<Received>): seq<Effect> {
    if rs == [] then []
    else
      var init, last := rs[..|rs| - 1], rs[|rs| - 1];
      TurnEffects(form, sid, init) + Delivered(form, Emitted(CtxAfter(sid, Frames(init)), last.frame), last.answer)
  }

  datatype Cause = ByFrame | ByClose | ByTimeout | ByFailure

  /** A finished turn; `reason` is the answer to the prompt, which a failed pump does not give. */
  datatype Turn = Turn(sid: string, received: seq<Received>, effects: seq<Effect>, reason: Option<StopReason>,
    cause: Cause)

  ghost predicate Undecided(sid: string, rs: seq<Received>) {
    forall r :: r in rs ==> Ruling(sid, r.frame) == None
  }

  /**
   * A turn shows the translation of what it received, and its stop reason comes from the first Done
   * or Error of its session, with which it ends; without one it is refused when the daemon is gone
   * and cancelled when a cancel request is not honoured in time. A turn whose pump fails has sent a
   * part of what its last frame called for, and its prompt is never answered.
   */
  ghost predicate TurnOk(form: bool, t: Turn) {
    match t.cause
    case ByFrame =>
      && t.effects == TurnEffects(form, t.sid, t.received)
      && t.received != [] && Undecided(t.sid, t.received[..|t.received| - 1])
      && t.reason.Some? && Ruling(t.sid, t.received[|t.received| - 1].frame) == t.reason
    case ByClose =>
      t.effects == TurnEffects(form, t.sid, t.received) && Undecided(t.sid, t.received) && t.reason == Some(Refusal)
    case ByTimeout =>
      t.effects == TurnEffects(form, t.sid, t.received) && Undecided(t.sid, t.received) && t.reason == Some(Cancelled)
    case ByFailure =>
      && t.received != [] && Undecided(t.sid, t.received[..|t.received| - 1]) && t.reason == None
      && t.effects < TurnEffects(form, t.sid, t.received)
      && TurnEffects(form, t.sid, t.received[..|t.received| - 1]) <= t.effects
  }

  // ---- The state machine ----

  /** The pump of one prompt; `token` is the cancellation token of its turn. */
  datatype PumpTask = PumpTask(sid: string, ctx: Ctx, token: nat, received: seq<Received>, effects: seq<Effect>)

  datatype State = State(
    sessions: map<string, string>,
    inflight: Option<string>,
    pumps: seq<PumpTask>,
    inbound: seq<Frame>,
    closed: bool,
    token: nat,              // tokens are numbered; 0 stands for none
    cancelled: set<nat>,
    cancelRequested: bool,
    // history
    arrived: seq<Frame>,
    dropped: seq<Frame>,
    turns: seq<Turn>)

  const INITIAL := State(map[], None, [], [], false, 0, {}, false, [], [], [])

  datatype Message =
    | NewSession(id: string)
    | Prompt(id: string, blocks: seq<Block>, delivered: bool)   // whether the input got through to the daemon
    | CancelRequest(id: string)
    | Arrive(frame: Frame)
    | Close
    | Poll(i: nat, answer: Answer)
    | TimeOut(i: nat)
    | Break(i: nat, answer: Answer, sent: nat)   // as Poll, but only the first `sent` messages can be sent

  /** Text blocks joined; nothing but text, and not nothing. */
  function PromptText(blocks: seq<Block>): Option<string> {
    if HasOther(blocks) || Joined(blocks) == "" then None else Some(Joined(blocks))
  }

  predicate HasOther(blocks: seq<Block>) {
    exists b :: b in blocks && b.NotText?
  }

  function Joined(blocks: seq<Block>): string {
    if blocks == [] then ""
    else Joined(blocks[..|blocks| - 1]) + match blocks[|blocks| - 1] { case Text(text) => text case NotText => "" }
  }

  function BeginPrompt(s: State, id: string, blocks: seq<Block>, delivered: bool): State {
    if Admit(s.sessions, s.inflight, id) != Admitted then s
    else
      var admitted := s.(inflight := Some(id));
      if PromptText(blocks).None? || !delivered then admitted
      else admitted.(pumps := s.pumps + [PumpTask(id, Fresh(id), s.token + 1, [], [])],
                     token := s.token + 1, cancelRequested := false)
  }

  function FinishPump(s: State, i: nat, task: PumpTask, reason: StopReason, cause: Cause): State
    requires i < |s.pumps|
  {
    s.(inflight := Released(s.inflight, task.sid),
       pumps := s.pumps[..i] + s.pumps[i + 1..],
       turns := s.turns + [Turn(task.sid, task.received, task.effects, Some(reason), cause)])
  }

  /** The pump after it has taken the next frame. */
  function Advanced(form: bool, task: PumpTask, r: Received): PumpTask {
    task.(ctx := After(task.ctx, r.frame), received := task.received + [r],
          effects := task.effects + Delivered(form, Emitted(task.ctx, r.frame), r.answer))
  }

  /** A pump takes the next frame: it is routed, translated and delivered. */
  function Dispatch(form: bool, s: State, i: nat, answer: Answer): State
    requires i < |s.pumps| && s.inbound != []
  {
    var f, task := s.inbound[0], s.pumps[i];
    var rest := s.(inbound := s.inbound[1..]);
    if RouteOf(f, s.inflight) == Drop then rest.(dropped := s.dropped + [f])
    else
      var a := if task.token in s.cancelled then Interrupted else answer;
      var next := Advanced(form, task, Received(f, a));
      match Verdict(Emitted(task.ctx, f))
      case None => rest.(pumps := s.pumps[i := next])
      case Some(reason) => FinishPump(rest, i, next, reason, ByFrame)
  }

  /** What is sent for the next frame, if a pump takes it now. */
  function Outgoing(form: bool, s: State, i: nat, answer: Answer): seq<Effect>
    requires i < |s.pumps| && s.inbound != []
  {
    var task := s.pumps[i];
    if RouteOf(s.inbound[0], s.inflight) == Drop then []
    else Delivered(form, Emitted(task.ctx, s.inbound[0]), if task.token in s.cancelled then Interrupted else answer)
  }

  /** A send fails while the next frame is delivered: the pump is gone, and nobody ends its prompt. */
  function Fail(form: bool, s: State, i: nat, answer: Answer, sent: nat): State
    requires i < |s.pumps| && s.inbound != [] && sent < |Outgoing(form, s, i, answer)|
  {
    var task := s.pumps[i];
    var r := Received(s.inbound[0], if task.token in s.cancelled then Interrupted else answer);
    s.(inbound := s.inbound[1..],
       pumps := s.pumps[..i] + s.pumps[i + 1..],
       turns := s.turns + [Turn(task.sid, task.received + [r], task.effects + Outgoing(form, s, i, answer)[..sent],
         None, ByFailure)])
  }

  predicate Fails(form: bool, s: State, m: Message) {
    m.Break? && m.i < |s.pumps| && s.inbound != [] && m.sent < |Outgoing(form, s, m.i, m.answer)|
  }

  function Next(form: bool, s: State, m: Message): State {
    match m
    case NewSession(id) => s.(sessions := s.sessions[id := id])
    case Prompt(id, blocks, delivered) => BeginPrompt(s, id, blocks, delivered)
    case CancelRequest(_) => s.(cancelled := if s.token == 0 then s.cancelled else s.cancelled + {s.token},
      cancelRequested := true)
    case Arrive(f) => if s.closed then s else s.(inbound := s.inbound + [f], arrived := s.arrived + [f])
    case Close => s.(closed := true)
    case Poll(i, answer) =>
      if i >= |s.pumps| then s
      else if s.inbound != [] then Dispatch(form, s, i, answer)
      else if s.closed then FinishPump(s, i, s.pumps[i], Refusal, ByClose)
      else s
    case TimeOut(i) =>
      if i < |s.pumps| && s.inbound == [] && !s.closed && s.cancelRequested
      then FinishPump(s, i, s.pumps[i], Cancelled, ByTimeout) else s
    case Break(i, answer, sent) => if Fails(form, s, m) then Fail(form, s, i, answer, sent) else s
  }

  // ---- What every step keeps ----

  ghost predicate TaskOk(form: bool, task: PumpTask) {
    && task.ctx == CtxAfter(task.sid, Frames(task.received))
    && task.effects == TurnEffects(form, task.sid, task.received)
    && Undecided(task.sid, task.received)
  }

  /** The frames that finished turns took, in order. */
  function Taken(turns: seq<Turn>): seq<Frame> {
    if turns == [] then [] else Taken(turns[..|turns| - 1]) + Frames(turns[|turns| - 1].received)
  }

  function Held(pumps: seq<PumpTask>): seq<Frame> {
    if pumps == [] then [] else Frames(pumps[0].received)
  }

  /**
   * At most one pump is at work, and then the prompt in flight is its own. No frame is dropped: each
   * has been taken by exactly one turn, in order of arrival, or is still to come.
   */
  ghost predicate TurnInv(form: bool, s: State) {
    OnePump(form, s) && TurnsOk(form, s.turns) && NothingLost(s)
  }

  ghost predicate OnePump(form: bool, s: State) {
    |s.pumps| <= 1 && (s.pumps != [] ==> s.inflight == Some(s.pumps[0].sid) && TaskOk(form, s.pumps[0]))
  }

  ghost predicate TurnsOk(form: bool, turns: seq<Turn>) {
    forall t :: t in turns ==> TurnOk(form, t)
  }

  ghost predicate NothingLost(s: State) {
    s.dropped == [] && s.arrived == Taken(s.turns) + Held(s.pumps) + s.inbound
  }

  lemma FramesSnoc(rs: seq<Received>, r: Received)
    ensures Frames(rs + [r]) == Frames(rs) + [r.frame]
  {
  }

  lemma TakenSnoc(turns: seq<Turn>, t: Turn)
    ensures Taken(turns + [t]) == Taken(turns) + Frames(t.received)
  {
    assert (turns + [t])[..|turns|] == turns;
  }

  lemma EffectsSnoc(form: bool, sid: string, rs: seq<Received>, r: Received)
    ensures TurnEffects(form, sid, rs + [r]) ==
            TurnEffects(form, sid, rs) + Delivered(form, Emitted(CtxAfter(sid, Frames(rs)), r.frame), r.answer)
  {
    assert (rs + [r])[..|rs|] == rs;
  }

  lemma TaskNext(form: bool, task: PumpTask, r: Received)
    requires TaskOk(form, task)
    ensures task.ctx.parent == task.sid
    ensures var next := Advanced(form, task, r);
            && next.ctx == CtxAfter(next.sid, Frames(next.received))
            && next.effects == TurnEffects(form, next.sid, next.received)
            && (Undecided(next.sid, next.received) <==> Ruling(task.sid, r.frame) == None)
  {
    FramesSnoc(task.received, r);
    Snoc(task.sid, Frames(task.received), r.frame);
    EffectsSnoc(form, task.sid, task.received, r);
    var rs := task.received + [r];
    assert forall x :: x in rs <==> x in task.received || x == r;
  }

  lemma DispatchShape(form: bool, s: State, answer: Answer)
    requires |s.pumps| == 1 && s.inbound != [] && s.inflight == Some(s.pumps[0].sid)
    ensures var f, task := s.inbound[0], s.pumps[0];
            var next := Advanced(form, task, Received(f, if task.token in s.cancelled then Interrupted else answer));
            var verdict := Verdict(Emitted(task.ctx, f));
            Dispatch(form, s, 0, answer) ==
              if verdict.None? then s.(inbound := s.inbound[1..], pumps := [next])
              else s.(inbound := s.inbound[1..], pumps := [], inflight := None,
                      turns := s.turns + [Turn(task.sid, next.received, next.effects, verdict, ByFrame)])
  {
    hide Emitted, After, Delivered, Verdict;
    var next := Advanced(form, s.pumps[0],
                         Received(s.inbound[0], if s.pumps[0].token in s.cancelled then Interrupted else answer));
    assert s.pumps[0 := next] == [next];
  }

  lemma FinishedTurnOk(form: bool, task: PumpTask, r: Received, reason: StopReason)
    requires TaskOk(form, task) && Ruling(task.sid, r.frame) == Some(reason)
    ensures var next := Advanced(form, task, r);
      TurnOk(form, Turn(task.sid, next.received, next.effects, Some(reason), ByFrame))
  {
    TaskNext(form, task, r);
    hide Emitted, After, Delivered, Ruling, Undecided;
    assert (task.received + [r])[..|task.received|] == task.received;
  }

  lemma DispatchKeepsInv(form: bool, s: State, answer: Answer)
    requires TurnInv(form, s) && s.pumps != [] && s.inbound != []
    ensures TurnInv(form, Dispatch(form, s, 0, answer))
  {
    hide Emitted, After, Ruling, TurnEffects, CtxAfter, Frames, Delivered, Verdict, Dispatch, Taken, Undecided, TurnOk;
    var f, task := s.inbound[0], s.pumps[0];
    var r := Received(f, if task.token in s.cancelled then Interrupted else answer);
    DispatchShape(form, s, answer);
    TaskNext(form, task, r);
    VerdictIsRuling(task.ctx, f);
    FramesSnoc(task.received, r);
    var verdict, next := Verdict(Emitted(task.ctx, f)), Advanced(form, task, r);
    if verdict.Some? {
      FinishedTurnOk(form, task, r, verdict.value);
      TakenSnoc(s.turns, Turn(task.sid, next.received, next.effects, verdict, ByFrame));
    }
    StillNothingLost(Taken(s.turns), Frames(task.received), s.inbound);
  }

  lemma StillNothingLost(taken: seq<Frame>, held: seq<Frame>, inbound: seq<Frame>)
    requires inbound != []
    ensures taken + held + inbound == taken + (held + [inbound[0]]) + inbound[1..]
    ensures taken + held + inbound == taken + (held + [inbound[0]]) + [] + inbound[1..]
  {
  }

  lemma FinishShape(s: State, reason: StopReason, cause: Cause)
    requires |s.pumps| == 1 && s.inflight == Some(s.pumps[0].sid)
    ensures var task := s.pumps[0];
            FinishPump(s, 0, task, reason, cause) ==
              s.(inflight := None, pumps := [],
                turns := s.turns + [Turn(task.sid, task.received, task.effects, Some(reason), cause)])
  {
  }

  lemma EndKeepsInv(form: bool, s: State, reason: StopReason, cause: Cause)
    requires TurnInv(form, s) && s.pumps != []
    requires (cause == ByClose && reason == Refusal) || (cause == ByTimeout && reason == Cancelled)
    ensures TurnInv(form, FinishPump(s, 0, s.pumps[0], reason, cause))
  {
    hide FinishPump, TurnEffects, CtxAfter, Frames, Taken, Undecided;
    var task := s.pumps[0];
    FinishShape(s, reason, cause);
    var t := Turn(task.sid, task.received, task.effects, Some(reason), cause);
    TakenSnoc(s.turns, t);
    assert TurnOk(form, t);
    hide TurnOk, TaskOk;
    assert Taken(s.turns) + Frames(task.received) + [] == Taken(s.turns) + Frames(task.received);
  }

  lemma FailShape(form: bool, s: State, answer: Answer, sent: nat)
    requires |s.pumps| == 1 && s.inbound != [] && s.inflight == Some(s.pumps[0].sid)
    requires sent < |Outgoing(form, s, 0, answer)|
    ensures var task := s.pumps[0];
            var r := Received(s.inbound[0], if task.token in s.cancelled then Interrupted else answer);
            var out := Delivered(form, Emitted(task.ctx, s.inbound[0]), r.answer);
            && sent < |out|
            && Fail(form, s, 0, answer, sent) ==
                 s.(inbound := s.inbound[1..], pumps := [],
                    turns := s.turns + [Turn(task.sid, task.received + [r], task.effects + out[..sent], None,
                      ByFailure)])
  {
    hide Emitted, Delivered;
  }

  lemma FailedTurnOk(form: bool, task: PumpTask, r: Received, sent: nat)
    requires TaskOk(form, task)
    requires sent < |Delivered(form, Emitted(task.ctx, r.frame), r.answer)|
    ensures var out := Delivered(form, Emitted(task.ctx, r.frame), r.answer);
            TurnOk(form, Turn(task.sid, task.received + [r], task.effects + out[..sent], None, ByFailure))
  {
    hide Emitted, Delivered, Ruling, Undecided, TurnEffects;
    TaskNext(form, task, r);
    var out := Delivered(form, Emitted(task.ctx, r.frame), r.answer);
    assert (task.received + [r])[..|task.received|] == task.received;
    PartSent(task.effects, out, sent);
    hide After, CtxAfter, Frames;
  }

  lemma PartSent(before: seq<Effect>, out: seq<Effect>, sent: nat)
    requires sent < |out|
    ensures before <= before + out[..sent] < before + out
  {
  }

  lemma FailKeepsInv(form: bool, s: State, answer: Answer, sent: nat)
    requires TurnInv(form, s) && s.pumps != [] && s.inbound != [] && sent < |Outgoing(form, s, 0, answer)|
    ensures TurnInv(form, Fail(form, s, 0, answer, sent))
  {
    hide Emitted, TurnEffects, CtxAfter, Frames, Delivered, Fail, Outgoing, Taken, Undecided, TurnOk;
    var task := s.pumps[0];
    var r := Received(s.inbound[0], if task.token in s.cancelled then Interrupted else answer);
    FailShape(form, s, answer, sent);
    FailedTurnOk(form, task, r, sent);
    FramesSnoc(task.received, r);
    var out := Delivered(form, Emitted(task.ctx, r.frame), r.answer);
    TakenSnoc(s.turns, Turn(task.sid, task.received + [r], task.effects + out[..sent], None, ByFailure));
    StillNothingLost(Taken(s.turns), Frames(task.received), s.inbound);
  }

  lemma PromptKeepsInv(form: bool, s: State, id: string, blocks: seq<Block>, delivered: bool)
    requires TurnInv(form, s)
    ensures TurnInv(form, BeginPrompt(s, id, blocks, delivered))
  {
    hide TurnOk, Taken, PromptText;
    assert Frames([]) == [];
  }

  lemma NextKeepsInv(form: bool, s: State, m: Message)
    requires TurnInv(form, s)
    ensures TurnInv(form, Next(form, s, m))
  {
    hide Dispatch, FinishPump, Fail, Outgoing, TurnOk, Taken, TaskOk, BeginPrompt;
    match m
    case Prompt(id, blocks, delivered) =>
      PromptKeepsInv(form, s, id, blocks, delivered);
    case Poll(i, answer) =>
      if i < |s.pumps| {
        if s.inbound != [] {
          DispatchKeepsInv(form, s, answer);
        } else if s.closed {
          EndKeepsInv(form, s, Refusal, ByClose);
        }
      }
    case TimeOut(i) =>
      if i < |s.pumps| && s.inbound == [] && !s.closed && s.cancelRequested {
        EndKeepsInv(form, s, Cancelled, ByTimeout);
      }
    case Break(i, answer, sent) =>
      if Fails(form, s, m) {
        FailKeepsInv(form, s, answer, sent);
      }
    case _ =>
  }

  ghost predicate Run(form: bool, ss: seq<State>, ms: seq<Message>) {
    && |ss| == |ms| + 1 && ss[0] == INITIAL
    && forall i :: 0 <= i < |ms| ==> ss[i + 1] == Next(form, ss[i], ms[i])
  }

  /** Every reachable state has the invariant. */
  lemma {:induction false} RunKeepsInv(form: bool, ss: seq<State>, ms: seq<Message>, i: nat)
    requires Run(form, ss, ms) && i <= |ms|
    ensures TurnInv(form, ss[i])
  {
    hide Next;
    if i > 0 {
      RunKeepsInv(form, ss, ms, i - 1);
      NextKeepsInv(form, ss[i - 1], ms[i - 1]);
    }
  }

  // ---- Noninterference of whole turns ----

  function Heard(sid: string): Received -> bool {
    (r: Received) => !Silent(sid, r.frame)
  }

  /** A turn sends the same, and ends the same way, without the frames that leave no trace. */
  lemma {:induction false} SilentReceivedLeavesNoTrace(form: bool, sid: string, rs: seq<Received>)
    ensures TurnEffects(form, sid, Filter(rs, Heard(sid))) == TurnEffects(form, sid, rs)
    ensures CtxAfter(sid, Frames(Filter(rs, Heard(sid)))) == CtxAfter(sid, Frames(rs))
    ensures Undecided(sid, Filter(rs, Heard(sid))) <==> Undecided(sid, rs)
  {
    hide Emitted, After, Silent, CtxAfter, TurnEffects, Frames, Undecided, Delivered;
    if rs == [] {
      assert Filter(rs, Heard(sid)) == [];
    } else {
      var init, last := rs[..|rs| - 1], rs[|rs| - 1];
      SilentReceivedLeavesNoTrace(form, sid, init);
      assert rs == init + [last];
      FilterConcat(init, [last], Heard(sid));
      FilterSingle(last, Heard(sid));
      var kept := Filter(init, Heard(sid));
      ReceivedSnoc(form, sid, init, last);
      if Heard(sid)(last) {
        ReceivedSnoc(form, sid, kept, last);
      } else {
        assert kept + [] == kept;
        SilentEffects(form, CtxAfter(sid, Frames(init)), last);
      }
    }
  }

  /** Taking its silent frames away turns a correct turn into a correct turn that sends and answers the same. */
  lemma SilentFramesDoNotDecide(form: bool, t: Turn)
    requires TurnOk(form, t)
    ensures TurnOk(form, t.(received := Filter(t.received, Heard(t.sid))))
  {
    hide TurnEffects, CtxAfter, Frames, Heard, Undecided, Ruling;
    SilentReceivedLeavesNoTrace(form, t.sid, t.received);
    if t.cause == ByFrame || t.cause == ByFailure {
      var init, last := t.received[..|t.received| - 1], t.received[|t.received| - 1];
      assert t.received == init + [last];
      SilentReceivedLeavesNoTrace(form, t.sid, init);
      LastIsHeard(form, t, init, last);
      FilteredLast(t.received, init, last, Heard(t.sid));
    }
  }

  lemma FilteredLast(rs: seq<Received>, init: seq<Received>, last: Received, p: Received -> bool)
    requires rs == init + [last] && p(last)
    ensures var kept := Filter(rs, p); kept != [] && kept[|kept| - 1] == last && kept[..|kept| - 1] == Filter(init, p)
  {
    FilterConcat(init, [last], p);
    FilterSingle(last, p);
  }

  lemma LastIsHeard(form: bool, t: Turn, init: seq<Received>, last: Received)
    requires TurnOk(form, t) && (t.cause == ByFrame || t.cause == ByFailure) && t.received == init + [last]
    ensures Heard(t.sid)(last)
  {
    ReceivedSnoc(form, t.sid, init, last);
    assert t.received[..|t.received| - 1] == init;
    hide Undecided, TurnEffects, CtxAfter, Frames;
    if Silent(t.sid, last.frame) {
      SilentEffects(form, CtxAfter(t.sid, Frames(init)), last);
    }
  }

  /**
   * Two turns of a session that heard the same sent the same, and were decided by a frame both or
   * neither, the same way. What a child thinks, says or reports, and how it ends, is not heard; its
   * tool calls are, which are shown and start a new message.
   */
  lemma SameHeardSameTurn(form: bool, t: Turn, u: Turn)
    requires TurnOk(form, t) && TurnOk(form, u) && t.sid == u.sid && t.cause != ByFailure && u.cause != ByFailure
    requires Filter(t.received, Heard(t.sid)) == Filter(u.received, Heard(u.sid))
    ensures t.effects == u.effects && (t.cause == ByFrame <==> u.cause == ByFrame)
    ensures t.cause == ByFrame ==> t.reason == u.reason
  {
    SilentReceivedLeavesNoTrace(form, t.sid, t.received);
    SilentReceivedLeavesNoTrace(form, u.sid, u.received);
    SilentFramesDoNotDecide(form, t);
    SilentFramesDoNotDecide(form, u);
    DecidedIff(form, t);
    DecidedIff(form, u);
    hide TurnEffects, Heard, Undecided;
  }

  lemma DecidedIff(form: bool, t: Turn)
    requires TurnOk(form, t) && t.cause != ByFailure
    ensures t.cause == ByFrame <==> !Undecided(t.sid, t.received)
  {
    if t.cause == ByFrame {
      assert t.received[|t.received| - 1] in t.received;
    }
  }

  lemma ReceivedSnoc(form: bool, sid: string, rs: seq<Received>, r: Received)
    ensures CtxAfter(sid, Frames(rs)).parent == sid
    ensures CtxAfter(sid, Frames(rs + [r])) == After(CtxAfter(sid, Frames(rs)), r.frame)
    ensures TurnEffects(form, sid, rs + [r]) ==
            TurnEffects(form, sid, rs) + Delivered(form, Emitted(CtxAfter(sid, Frames(rs)), r.frame), r.answer)
    ensures Undecided(sid, rs + [r]) <==> Undecided(sid, rs) && Ruling(sid, r.frame) == None
  {
    FramesSnoc(rs, r);
    Snoc(sid, Frames(rs), r.frame);
    EffectsSnoc(form, sid, rs, r);
    assert forall x :: x in rs + [r] <==> x in rs || x == r;
  }

  lemma SilentEffects(form: bool, c: Ctx, r: Received)
    requires Silent(c.parent, r.frame)
    ensures After(c, r.frame) == c && Delivered(form, Emitted(c, r.frame), r.answer) == []
      && Ruling(c.parent, r.frame) == None
  {
  }

  // ---- A prompt that never ends ----

  /** A prompt is in flight that no pump will ever end. */
  ghost predicate Wedged(s: State) {
    s.inflight.Some? && s.pumps == []
  }

  /**
   * The agent gets stuck exactly when it admits a prompt that it then cannot use (one without text,
   * one with other content than text, or one that does not get through to the daemon), or when a
   * send fails while a pump delivers a frame.
   */
  lemma GetsStuckIff(form: bool, s: State, m: Message)
    requires TurnInv(form, s) && !Wedged(s)
    ensures Wedged(Next(form, s, m)) <==>
            || (m.Prompt? && Admit(s.sessions, s.inflight, m.id) == Admitted
                && (PromptText(m.blocks).None? || !m.delivered))
            || Fails(form, s, m)
  {
    hide PromptText, Emitted, After, Delivered, Verdict, TaskOk, Taken, TurnOk, Outgoing;
  }

  /** Once stuck, always stuck: the prompt stays in flight and no pump ever starts again, so no turn ends. */
  lemma {:induction false} StuckForever(form: bool, ss: seq<State>, ms: seq<Message>, i: nat, j: nat)
    requires Run(form, ss, ms) && i <= j <= |ms| && Wedged(ss[i])
    ensures Wedged(ss[j]) && ss[j].inflight == ss[i].inflight && ss[j].turns == ss[i].turns
    ensures j < |ms| && ms[j].Prompt?
      ==> Admit(ss[j].sessions, ss[j].inflight, ms[j].id) != Admitted && ss[j + 1] == ss[j]
    decreases j
  {
    if i < j {
      StuckForever(form, ss, ms, i, j - 1);
    }
  }

  // ---- Late frames ----

  /**
   * The route that drops late frames is never taken: a pump that polls always finds its own prompt in
   * flight. What arrives between two turns waits for the next one.
   */
  lemma NeverRoutedToDrop(form: bool, s: State, i: nat)
    requires TurnInv(form, s) && i < |s.pumps| && s.inbound != []
    ensures RouteOf(s.inbound[0], s.inflight) != Drop
  {
  }

  /** A number of rounds of the pump with nothing else happening in between. */
  function Polls(form: bool, s: State, answers: seq<Answer>): State {
    if answers == [] then s
    else Next(form, Polls(form, s, answers[..|answers| - 1]), Poll(0, answers[|answers| - 1]))
  }

  /** The position of the first frame that ends a turn of `sid`, or the number of frames. */
  function FirstEnd(sid: string, fs: seq<Frame>): (k: nat)
    ensures k <= |fs| && (forall j :: 0 <= j < k ==> Ruling(sid, fs[j]) == None)
      && (k < |fs| ==> Ruling(sid, fs[k]).Some?)
  {
    if fs == [] || Ruling(sid, fs[0]).Some? then 0 else 1 + FirstEnd(sid, fs[1..])
  }

  /** The pump has taken the first `n` of the frames that were there. */
  ghost predicate Ongoing(s: State, n: nat, r: State) {
    && |s.pumps| == 1 && |r.pumps| == 1 && n <= |s.inbound|
    && r.pumps[0].sid == s.pumps[0].sid && Frames(r.pumps[0].received) == Frames(s.pumps[0].received) + s.inbound[..n]
    && r.inflight == s.inflight && r.turns == s.turns && r.inbound == s.inbound[n..] && r.closed == s.closed
  }

  /** The pump has finished its turn, with the `n`-th of the frames that were there as its last. */
  ghost predicate Ended(s: State, n: nat, cause: Cause, r: State) {
    && |s.pumps| == 1 && n <= |s.inbound| && r.pumps == [] && r.inflight == None && r.inbound == s.inbound[n..]
    && r.closed == s.closed
    && |r.turns| == |s.turns| + 1 && r.turns[..|s.turns|] == s.turns
    && var t := r.turns[|s.turns|];
    && t.sid == s.pumps[0].sid && t.cause == cause && Frames(t.received) == Frames(s.pumps[0].received) + s.inbound[..n]
  }

  /** One round, from what is left after `n` frames. */
  lemma OnePoll(form: bool, s: State, n: nat, r: State, answer: Answer)
    requires TurnInv(form, r) && Ongoing(s, n, r)
    ensures var next := Next(form, r, Poll(0, answer));
            if n < |s.inbound| then
              match Ruling(s.pumps[0].sid, s.inbound[n])
              case None => Ongoing(s, n + 1, next)
              case Some(reason) => Ended(s, n + 1, ByFrame, next) && next.turns[|s.turns|].reason == Some(reason)
            else if s.closed then Ended(s, n, ByClose, next) && next.turns[|s.turns|].reason == Some(Refusal)
            else next == r
  {
    hide Emitted, After, Delivered, Verdict, Ruling, Frames, TurnEffects, CtxAfter, Undecided, NothingLost, TurnsOk,
      Dispatch, FinishPump;
    var task := r.pumps[0];
    if n < |s.inbound| {
      var rec := Received(r.inbound[0], if task.token in r.cancelled then Interrupted else answer);
      DispatchShape(form, r, answer);
      TaskNext(form, task, rec);
      VerdictIsRuling(task.ctx, r.inbound[0]);
      FramesSnoc(task.received, rec);
      assert s.inbound[..n + 1] == s.inbound[..n] + [s.inbound[n]];
    } else if s.closed {
      FinishShape(r, Refusal, ByClose);
    }
  }

  /** What a number of undisturbed rounds comes to. */
  lemma {:induction false} PollsOutcome(form: bool, s: State, answers: seq<Answer>)
    requires TurnInv(form, s) && |s.pumps| == 1
    ensures var k, n, r := FirstEnd(s.pumps[0].sid, s.inbound), |answers|, Polls(form, s, answers);
            && TurnInv(form, r)
            && if n <= k then Ongoing(s, n, r)
               else if k < |s.inbound| then
                 Ended(s, k + 1, ByFrame, r) && r.turns[|s.turns|].reason == Ruling(s.pumps[0].sid, s.inbound[k])
               else if s.closed then Ended(s, k, ByClose, r)
               else Ongoing(s, k, r)
    decreases |answers|
  {
    hide TurnInv, Ruling, Frames, Next;
    if answers == [] {
      assert Ongoing(s, 0, s);
    } else {
      var n := |answers| - 1;
      var before := Polls(form, s, answers[..n]);
      PollsOutcome(form, s, answers[..n]);
      NextKeepsInv(form, before, Poll(0, answers[n]));
      var k := FirstEnd(s.pumps[0].sid, s.inbound);
      hide Ongoing, Ended;
      if n <= k {
        OnePoll(form, s, n, before, answers[n]);
      } else if k == |s.inbound| && !s.closed {
        OnePoll(form, s, k, before, answers[n]);
      } else {
        NoPumpNoPoll(form, s, if k < |s.inbound| then k + 1 else k, before, answers[n]);
      }
    }
  }

  lemma NoPumpNoPoll(form: bool, s: State, n: nat, r: State, answer: Answer)
    requires Ended(s, n, ByFrame, r) || Ended(s, n, ByClose, r)
    ensures Next(form, r, Poll(0, answer)) == r
  {
  }

  lemma PromptStarts(form: bool, s: State, id: string, blocks: seq<Block>)
    requires TurnInv(form, s) && s.inflight == None && id in s.sessions && PromptText(blocks).Some?
    ensures var s1 := Next(form, s, Prompt(id, blocks, true));
            && TurnInv(form, s1) && |s1.pumps| == 1 && s1.pumps[0].sid == id && Frames(s1.pumps[0].received) == []
            && s1.inbound == s.inbound && s1.turns == s.turns
  {
    hide PromptText, TaskOk, TurnsOk, NothingLost;
    NextKeepsInv(form, s, Prompt(id, blocks, true));
    assert Frames([]) == [];
  }

  /** Compared with `s`, one more turn is finished, by a frame. */
  predicate FinishedByFrame(s: State, r: State) {
    |r.turns| == |s.turns| + 1 && r.turns[|s.turns|].cause == ByFrame
  }

  /**
   * Frames left from an earlier turn that was given up decide the session's next turn: with nothing
   * new arriving, a turn is finished by a frame from before its prompt exactly when there is a Done
   * or Error of the session among them, and enough rounds to get to it. The first one decides.
   */
  lemma LateEndIff(form: bool, s: State, id: string, blocks: seq<Block>, answers: seq<Answer>)
    requires TurnInv(form, s) && s.inflight == None && id in s.sessions && PromptText(blocks).Some?
    ensures var r := Polls(form, Next(form, s, Prompt(id, blocks, true)), answers);
            FinishedByFrame(s, r) <==> exists k ::
              0 <= k < |answers| && k < |s.inbound| && Ruling(id, s.inbound[k]).Some?
    ensures var r, k := Polls(form, Next(form, s, Prompt(id, blocks, true)), answers), FirstEnd(id, s.inbound);
            FinishedByFrame(s, r) ==>
              && r.inflight == None && k < |s.inbound| && r.inbound == s.inbound[k + 1..]
              && var t := r.turns[|s.turns|];
              && t.sid == id && Frames(t.received) == s.inbound[..k + 1] && t.reason == Ruling(id, s.inbound[k])
  {
    hide TurnInv, Ruling, Next, Polls, PromptText, Frames;
    var s1 := Next(form, s, Prompt(id, blocks, true));
    PromptStarts(form, s, id, blocks);
    PollsOutcome(form, s1, answers);
    var k := FirstEnd(id, s.inbound);
    assert forall j :: 0 <= j < |s.inbound| && Ruling(id, s.inbound[j]).Some? ==> k <= j;
  }

  // ---- Late frames while others arrive ----

  function Steps(form: bool, s: State, ms: seq<Message>): State {
    if ms == [] then s else Next(form, Steps(form, s, ms[..|ms| - 1]), ms[|ms| - 1])
  }

  /** The pump is at work; what was there at first is what it has taken or what comes next. */
  ghost predicate StillAtWork(s: State, id: string, r: State) {
    && |r.pumps| == 1 && r.pumps[0].sid == id && r.turns == s.turns
    && s.inbound <= Frames(r.pumps[0].received) + r.inbound
  }

  /** Its turn is over; if no frame ended it, it took all that was there at first. */
  ghost predicate Settled(s: State, id: string, r: State) {
    && |r.turns| > |s.turns| && r.turns[..|s.turns|] == s.turns
    && var t := r.turns[|s.turns|];
    && t.sid == id && (Frames(t.received) <= s.inbound || s.inbound <= Frames(t.received))
    && (t.cause == ByClose || t.cause == ByTimeout ==> s.inbound <= Frames(t.received))
  }

  lemma Comparable(first: seq<Frame>, taken: seq<Frame>, rest: seq<Frame>)
    requires first <= taken + rest
    ensures taken <= first || first <= taken
    ensures rest == [] ==> first <= taken
  {
  }

  lemma TakeOneMore(first: seq<Frame>, taken: seq<Frame>, rest: seq<Frame>)
    requires first <= taken + rest && rest != []
    ensures first <= (taken + [rest[0]]) + rest[1..]
    ensures taken + [rest[0]] <= first || first <= taken + [rest[0]]
  {
    assert taken + rest == (taken + [rest[0]]) + rest[1..];
  }

  lemma WorkStep(form: bool, s: State, id: string, r: State, m: Message)
    requires TurnInv(form, r) && StillAtWork(s, id, r)
    ensures StillAtWork(s, id, Next(form, r, m)) || Settled(s, id, Next(form, r, m))
  {
    hide *;
    PumpOwns(form, s, id, r);
    match m
    case Poll(i, answer) =>
      PollWork(form, s, id, r, i, answer);
    case Break(i, answer, sent) =>
      BreakWork(form, s, id, r, i, answer, sent);
    case _ =>
      OtherWork(form, s, id, r, m);
  }

  lemma PumpOwns(form: bool, s: State, id: string, r: State)
    requires TurnInv(form, r) && StillAtWork(s, id, r)
    ensures |r.pumps| == 1 && r.inflight == Some(r.pumps[0].sid)
  {
  }

  lemma PollWork(form: bool, s: State, id: string, r: State, i: nat, answer: Answer)
    requires StillAtWork(s, id, r) && r.inflight == Some(r.pumps[0].sid)
    ensures var u := Next(form, r, Poll(i, answer)); StillAtWork(s, id, u) || Settled(s, id, u)
  {
    hide Emitted, After, Delivered, Verdict, Frames, Dispatch, FinishPump;
    var task := r.pumps[0];
    Comparable(s.inbound, Frames(task.received), r.inbound);
    if i == 0 && r.inbound != [] {
      DispatchShape(form, r, answer);
      FramesSnoc(task.received, Received(r.inbound[0], if task.token in r.cancelled then Interrupted else answer));
      TakeOneMore(s.inbound, Frames(task.received), r.inbound);
    } else if i == 0 && r.closed {
      FinishShape(r, Refusal, ByClose);
    }
  }

  lemma BreakWork(form: bool, s: State, id: string, r: State, i: nat, answer: Answer, sent: nat)
    requires StillAtWork(s, id, r) && r.inflight == Some(r.pumps[0].sid)
    ensures var u := Next(form, r, Break(i, answer, sent)); StillAtWork(s, id, u) || Settled(s, id, u)
  {
    hide Emitted, Delivered, Frames, Fail, Outgoing;
    var task := r.pumps[0];
    if Fails(form, r, Break(i, answer, sent)) {
      FailShape(form, r, answer, sent);
      FramesSnoc(task.received, Received(r.inbound[0], if task.token in r.cancelled then Interrupted else answer));
      TakeOneMore(s.inbound, Frames(task.received), r.inbound);
    }
  }

  lemma OtherWork(form: bool, s: State, id: string, r: State, m: Message)
    requires StillAtWork(s, id, r) && r.inflight == Some(r.pumps[0].sid) && !m.Poll? && !m.Break?
    ensures StillAtWork(s, id, Next(form, r, m)) || Settled(s, id, Next(form, r, m))
  {
    hide Frames, FinishPump, PromptText;
    var task := r.pumps[0];
    Comparable(s.inbound, Frames(task.received), r.inbound);
    if m.TimeOut? && m.i == 0 && r.inbound == [] && !r.closed && r.cancelRequested {
      FinishShape(r, Cancelled, ByTimeout);
    }
    if m.Arrive? {
      assert Frames(task.received) + (r.inbound + [m.frame]) == (Frames(task.received) + r.inbound) + [m.frame];
    }
  }

  lemma TurnsStay(form: bool, r: State, m: Message)
    ensures r.turns <= Next(form, r, m).turns
  {
    hide Emitted, After, Delivered, Verdict, Outgoing, PromptText;
  }

  lemma {:induction false} WorkOrSettled(form: bool, s: State, id: string, r: State, ms: seq<Message>)
    requires TurnInv(form, r) && StillAtWork(s, id, r)
    ensures TurnInv(form, Steps(form, r, ms))
    ensures StillAtWork(s, id, Steps(form, r, ms)) || Settled(s, id, Steps(form, r, ms))
  {
    hide TurnInv, StillAtWork, Settled, Next;
    if ms != [] {
      var before := Steps(form, r, ms[..|ms| - 1]);
      WorkOrSettled(form, s, id, r, ms[..|ms| - 1]);
      NextKeepsInv(form, before, ms[|ms| - 1]);
      if StillAtWork(s, id, before) {
        WorkStep(form, s, id, before, ms[|ms| - 1]);
      } else {
        TurnsStay(form, before, ms[|ms| - 1]);
        SettledStays(s, id, before, Next(form, before, ms[|ms| - 1]));
      }
    }
  }

  lemma SettledStays(s: State, id: string, r: State, u: State)
    requires Settled(s, id, r) && r.turns <= u.turns
    ensures Settled(s, id, u)
  {
    assert u.turns[|s.turns|] == r.turns[|s.turns|];
  }

  /** A finished turn that took at most, or at least, the given frames, and the first end among them. */
  lemma DecidedByFirstEnd(form: bool, t: Turn, first: seq<Frame>)
    requires TurnOk(form, t) && t.cause != ByFailure
    requires Frames(t.received) <= first || first <= Frames(t.received)
    requires t.cause != ByFrame ==> first <= Frames(t.received)
    ensures var k := FirstEnd(t.sid, first);
            && (t.cause == ByFrame && |t.received| <= |first| <==> k < |first|)
            && (k < |first| ==> Frames(t.received) == first[..k + 1] && t.reason == Ruling(t.sid, first[k]))
  {
    var k, fs, n := FirstEnd(t.sid, first), Frames(t.received), |t.received|;
    hide Ruling, TurnEffects, FirstEnd, Frames, Undecided;
    FramesAt(t.received);
    TurnRules(form, t);
    if t.cause == ByFrame {
      if k < |first| && k < n - 1 {
        NoneBefore(t.sid, t.received, n - 1, k);
        assert false;
      }
      if k < |first| {
        assert k == n - 1 && fs[k] == first[k];
        assert fs == first[..k + 1];
      }
    } else if k < |first| {
      NoneBefore(t.sid, t.received, n, k);
      assert false;
    }
  }

  lemma TurnRules(form: bool, t: Turn)
    requires TurnOk(form, t) && t.cause != ByFailure
    ensures t.cause == ByFrame ==>
              |t.received| > 0 && t.reason.Some? && t.reason == Ruling(t.sid, t.received[|t.received| - 1].frame)
    ensures var n := if t.cause == ByFrame then |t.received| - 1 else |t.received|; Undecided(t.sid, t.received[..n])
  {
    assert t.received[..|t.received|] == t.received;
  }

  lemma FramesAt(rs: seq<Received>)
    ensures |Frames(rs)| == |rs| && forall j :: 0 <= j < |rs| ==> Frames(rs)[j] == rs[j].frame
  {
  }

  lemma NoneBefore(sid: string, rs: seq<Received>, n: nat, k: nat)
    requires k < n <= |rs| && Undecided(sid, rs[..n])
    ensures Ruling(sid, rs[k].frame) == None
  {
    NoneYet(sid, rs[..n], k);
  }

  lemma NoneYet(sid: string, rs: seq<Received>, k: nat)
    requires Undecided(sid, rs) && k < |rs|
    ensures Ruling(sid, rs[k].frame) == None
  {
  }

  /**
   * Whatever arrives or happens while the turn goes on, unless a send fails: a prompt's turn is
   * decided by a frame from before the prompt exactly when there is a Done or Error of the session
   * among them; the first one decides, and the turn takes nothing after it.
   */
  lemma LateFramesDecideIff(form: bool, s: State, id: string, blocks: seq<Block>, ms: seq<Message>)
    requires TurnInv(form, s) && s.inflight == None && id in s.sessions && PromptText(blocks).Some?
    requires var r := Steps(form, Next(form, s, Prompt(id, blocks, true)), ms);
             |r.turns| > |s.turns| && r.turns[|s.turns|].cause != ByFailure
    ensures var t := Steps(form, Next(form, s, Prompt(id, blocks, true)), ms).turns[|s.turns|];
            var k := FirstEnd(id, s.inbound);
            && t.sid == id
            && (t.cause == ByFrame && |t.received| <= |s.inbound| <==> exists j ::
                0 <= j < |s.inbound| && Ruling(id, s.inbound[j]).Some?)
            && (k < |s.inbound| ==> Frames(t.received) == s.inbound[..k + 1] && t.reason == Ruling(id, s.inbound[k]))
  {
    hide *;
    PromptAtWork(form, s, id, blocks);
    var s1 := Next(form, s, Prompt(id, blocks, true));
    WorkOrSettled(form, s, id, s1, ms);
    SettledDecides(form, s, id, Steps(form, s1, ms));
  }

  lemma PromptAtWork(form: bool, s: State, id: string, blocks: seq<Block>)
    requires TurnInv(form, s) && s.inflight == None && id in s.sessions && PromptText(blocks).Some?
    ensures var r := Next(form, s, Prompt(id, blocks, true)); TurnInv(form, r) && StillAtWork(s, id, r)
  {
    hide Next, PromptText, TaskOk, NothingLost, TurnsOk;
    PromptStarts(form, s, id, blocks);
  }

  lemma SettledDecides(form: bool, s: State, id: string, r: State)
    requires TurnInv(form, r) && (StillAtWork(s, id, r) || Settled(s, id, r))
    requires |r.turns| > |s.turns| && r.turns[|s.turns|].cause != ByFailure
    ensures var t, k := r.turns[|s.turns|], FirstEnd(id, s.inbound);
            && t.sid == id
            && (t.cause == ByFrame && |t.received| <= |s.inbound| <==> exists j ::
                0 <= j < |s.inbound| && Ruling(id, s.inbound[j]).Some?)
            && (k < |s.inbound| ==> Frames(t.received) == s.inbound[..k + 1] && t.reason == Ruling(id, s.inbound[k]))
  {
    hide Ruling, FirstEnd, TurnOk, OnePump, NothingLost, Frames;
    assert r.turns[|s.turns|] in r.turns;
    DecidedByFirstEnd(form, r.turns[|s.turns|], s.inbound);
  }

  // ---- Whose cancel it was ----

  /** The request's session makes no difference. */
  lemma CancelNamesNobody(form: bool, s: State, a: string, b: string)
    ensures Next(form, s, CancelRequest(a)) == Next(form, s, CancelRequest(b))
  {
  }

  predicate StartsPump(s: State, m: Message) {
    m.Prompt? && Admit(s.sessions, s.inflight, m.id) == Admitted && PromptText(m.blocks).Some? && m.delivered
  }

  /** A cancel request at step `i` with no start of a pump between it and step `j`. */
  ghost predicate CancelSince(ss: seq<State>, ms: seq<Message>, i: int, j: nat) {
    && 0 <= i < j <= |ms| <= |ss| && ms[i].CancelRequest?
    && forall k :: i < k < j ==> !StartsPump(ss[k], ms[k])
  }

  /** A cancel is pending exactly when a cancel request, for whichever session, came after the last start of a pump. */
  lemma {:induction false} CancelPendingIff(form: bool, ss: seq<State>, ms: seq<Message>, j: nat)
    requires Run(form, ss, ms) && j <= |ms|
    ensures ss[j].cancelRequested <==> exists i :: CancelSince(ss, ms, i, j)
  {
    hide PromptText, Next, StartsPump, CancelSince;
    if j == 0 {
      NoneSince(ss, ms);
    } else {
      CancelPendingIff(form, ss, ms, j - 1);
      CancelStep(form, ss[j - 1], ms[j - 1]);
      var before := j - 1;
      forall i
        ensures CancelSince(ss, ms, i, j) <==>
                || (i == before && ms[before].CancelRequest?)
                || (CancelSince(ss, ms, i, before) && !StartsPump(ss[before], ms[before]))
      {
        SinceStep(ss, ms, i, before);
      }
      PromptNoCancel(ss[before], ms[before]);
      if ms[before].CancelRequest? {
        assert CancelSince(ss, ms, before, j);
      }
    }
  }

  lemma NoneSince(ss: seq<State>, ms: seq<Message>)
    ensures forall i :: !CancelSince(ss, ms, i, 0)
  {
  }

  lemma SinceStep(ss: seq<State>, ms: seq<Message>, i: int, j: nat)
    requires j < |ms| < |ss|
    ensures CancelSince(ss, ms, i, j + 1) <==>
            || (i == j && ms[j].CancelRequest?)
            || (CancelSince(ss, ms, i, j) && !StartsPump(ss[j], ms[j]))
  {
    hide StartsPump;
  }

  lemma PromptNoCancel(s: State, m: Message)
    ensures StartsPump(s, m) ==> !m.CancelRequest?
  {
  }

  lemma CancelStep(form: bool, s: State, m: Message)
    ensures Next(form, s, m).cancelRequested == (m.CancelRequest? || (s.cancelRequested && !StartsPump(s, m)))
  {
    hide PromptText, Emitted, After, Delivered, Verdict, Outgoing;
  }

  /**
   * A step gives a turn up exactly when a time-out finds nothing waiting, the stream open, and a cancel
   * request since the turn's prompt; that request may have named another session.
   */
  lemma GivenUpIff(form: bool, ss: seq<State>, ms: seq<Message>, j: nat)
    requires Run(form, ss, ms) && j < |ms|
    ensures (|ss[j + 1].turns| > |ss[j].turns| && ss[j + 1].turns[|ss[j].turns|].cause == ByTimeout) <==>
            && ms[j].TimeOut? && ms[j].i < |ss[j].pumps| && ss[j].inbound == [] && !ss[j].closed
            && exists i :: CancelSince(ss, ms, i, j)
  {
    CancelPendingIff(form, ss, ms, j);
    TimeOutIff(form, ss[j], ms[j]);
    hide Next, CancelSince;
  }

  lemma TimeOutIff(form: bool, s: State, m: Message)
    ensures var r := Next(form, s, m);
            (|r.turns| > |s.turns| && r.turns[|s.turns|].cause == ByTimeout) <==>
            m.TimeOut? && m.i < |s.pumps| && s.inbound == [] && !s.closed && s.cancelRequested
  {
    hide PromptText, Emitted, After, Delivered, Verdict, Outgoing;
  }
}
