/**
 * The ACP agent (crates/visp-acp/src/agent.rs): the handlers of session and prompt requests and the
 * pump that serves a prompt. Each handler, and each round of the pump, is proved to be a step of the
 * state machine in module Turns.
 */
module Agent {
  import opened Collections
  import opened Translation
  import opened Sessions
  import opened Turns

  /** A running pump, with its own translator. */
  class Pump {
    const sid: string
    const ctx: TranslateCtx
    const token: nat
    var effects: seq<Effect>
    ghost var received: seq<Received>

    constructor (sid: string, token: nat)
      ensures Valid() && Value() == PumpTask(sid, Fresh(sid), token, [], [])
      ensures fresh(ctx)
    {
      this.sid, this.token := sid, token;
      ctx := new TranslateCtx(sid);
      effects, received := [], [];
    }

    ghost predicate Valid()
      reads this, ctx
    {
      ctx.Valid()
    }

    ghost function Value(): PumpTask
      reads this, ctx
    {
      PumpTask(sid, ctx.Value(), token, received, effects)
    }
  }

  lemma DeliveredNext(form: bool, out: seq<Outbound>, i: nat, a: Answer)
    requires i < |out| && !out[i].FinishTurn?
    ensures Delivered(form, out[i..], a) == EffectsOf(form, out[i], a) + Delivered(form, out[i + 1..], a)
    ensures Verdict(out[i..]) == Verdict(out[i + 1..])
  {
    assert out[i..][1..] == out[i + 1..];
  }

  // ---- Rounds of a pump ----

  /**
   * What happens around one round of a pump: frames arrive, the stream closes or a cancel request
   * comes in before it; `elapsed` says that the cancel window is over, `lost` which send fails.
   */
  datatype Round = Round(arrived: seq<Frame>, closes: bool, cancel: bool, elapsed: bool, answer: Answer,
    lost: Option<nat>)

  datatype Outcome = Waiting | Answered(reason: StopReason) | Failed

  /** All frames there are to take: those present, and those that arrive before the stream closes. */
  function Stream(inbound: seq<Frame>, closed: bool, rounds: seq<Round>): seq<Frame> {
    if rounds == [] then inbound
    else
      var before, last := rounds[..|rounds| - 1], rounds[|rounds| - 1];
      Stream(inbound, closed, before) + if Closes(closed, before) then [] else last.arrived
  }

  predicate Closes(closed: bool, rounds: seq<Round>) {
    closed || exists r :: r in rounds && r.closes
  }

  /** The single pump is at work; it has taken `taken` and the rest is waiting. */
  ghost predicate AtWork(form: bool, s: State, sid: string, stream: seq<Frame>) {
    && TurnInv(form, s) && |s.pumps| == 1 && s.pumps[0].sid == sid
    && Frames(s.pumps[0].received) + s.inbound == stream
  }

  /** The pump has finished one more turn; what it did not take is still waiting. */
  ghost predicate TurnOver(form: bool, turns: seq<Turn>, s: State, sid: string, stream: seq<Frame>) {
    && TurnInv(form, s) && s.pumps == [] && |s.turns| == |turns| + 1 && s.turns[..|turns|] == turns
    && var t := s.turns[|turns|];
    && TurnOk(form, t) && t.sid == sid && Frames(t.received) + s.inbound == stream
    && (t.cause == ByFailure <==> s.inflight == Some(sid)) && (t.cause != ByFailure <==> s.inflight == None)
  }

  lemma OngoingIsAtWork(form: bool, s: State, sid: string, stream: seq<Frame>, n: nat, r: State)
    requires AtWork(form, s, sid, stream) && TurnInv(form, r) && Ongoing(s, n, r)
    ensures AtWork(form, r, sid, stream) && r.turns == s.turns && |r.inbound| + n == |s.inbound|
  {
    hide TurnInv, Frames;
    TakenAndRest(Frames(s.pumps[0].received), s.inbound, n);
  }

  lemma TakenAndRest(before: seq<Frame>, inbound: seq<Frame>, n: nat)
    requires n <= |inbound|
    ensures (before + inbound[..n]) + inbound[n..] == before + inbound
  {
  }

  lemma EndedIsOver(form: bool, s: State, sid: string, stream: seq<Frame>, n: nat, cause: Cause, r: State)
    requires AtWork(form, s, sid, stream) && TurnInv(form, r) && Ended(s, n, cause, r) && cause != ByFailure
    ensures TurnOver(form, s.turns, r, sid, stream)
  {
    hide TurnOk, Frames, NothingLost, TaskOk;
    TakenAndRest(Frames(s.pumps[0].received), s.inbound, n);
    assert r.turns[|s.turns|] in r.turns;
    CauseMeans(form, r.turns[|s.turns|]);
  }

  lemma CauseMeans(form: bool, t: Turn)
    requires TurnOk(form, t)
    ensures t.cause == ByFailure <==> t.reason == None
  {
    hide TurnEffects, Undecided;
  }

  lemma PollKeepsRest(form: bool, s: State)
    ensures forall answer :: var r := Next(form, s, Poll(0, answer));
      r.closed == s.closed && r.cancelRequested == s.cancelRequested
  {
    hide Emitted, After, Delivered, Verdict;
  }

  lemma NoPumpThen(s: State, n: nat, cause: Cause, r: State)
    requires Ended(s, n, cause, r)
    ensures r.pumps == [] && |r.turns| == |s.turns| + 1 && r.turns[|s.turns|].cause == cause
  {
  }

  lemma PollRound(form: bool, s: State, sid: string, stream: seq<Frame>, answer: Answer)
    requires AtWork(form, s, sid, stream) && (s.inbound != [] || s.closed)
    ensures var r := Next(form, s, Poll(0, answer));
            && r.closed == s.closed && r.cancelRequested == s.cancelRequested
            && if r.pumps == [] then TurnOver(form, s.turns, r, sid, stream)
               else AtWork(form, r, sid, stream) && r.turns == s.turns && |r.inbound| < |s.inbound|
  {
    hide Next, TurnInv, Ongoing, Ended, TurnOver, Ruling, Frames;
    var r := Next(form, s, Poll(0, answer));
    PollKeepsRest(form, s);
    NextKeepsInv(form, s, Poll(0, answer));
    OngoingSelf(s);
    OnePoll(form, s, 0, s, answer);
    if s.inbound != [] && Ruling(sid, s.inbound[0]).None? {
      OngoingIsAtWork(form, s, sid, stream, 1, r);
    } else {
      var cause, n := if s.inbound != [] then ByFrame else ByClose, if s.inbound != [] then 1 else 0;
      EndedIsOver(form, s, sid, stream, n, cause, r);
      NoPumpThen(s, n, cause, r);
    }
  }

  lemma OngoingSelf(s: State)
    requires |s.pumps| == 1
    ensures Ongoing(s, 0, s)
  {
    assert s.inbound[..0] == [];
  }

  lemma BreakRound(form: bool, s: State, sid: string, stream: seq<Frame>, answer: Answer, sent: nat)
    requires AtWork(form, s, sid, stream) && Fails(form, s, Break(0, answer, sent))
    ensures var r := Next(form, s, Break(0, answer, sent));
            TurnOver(form, s.turns, r, sid, stream) && r.turns[|s.turns|].cause == ByFailure
  {
    hide TurnOk, Fail, Outgoing, Taken, TaskOk, Emitted, Delivered, NothingLost, Frames;
    var task, r := s.pumps[0], Next(form, s, Break(0, answer, sent));
    NextKeepsInv(form, s, Break(0, answer, sent));
    FailShape(form, s, answer, sent);
    FramesSnoc(task.received, Received(s.inbound[0], if task.token in s.cancelled then Interrupted else answer));
    assert s.inbound == [s.inbound[0]] + s.inbound[1..];
    assert r.turns[|s.turns|] in r.turns;
  }

  lemma TimeRound(form: bool, s: State, sid: string, stream: seq<Frame>)
    requires AtWork(form, s, sid, stream) && s.inbound == [] && !s.closed && s.cancelRequested
    ensures var r := Next(form, s, TimeOut(0));
            TurnOver(form, s.turns, r, sid, stream) && r.turns[|s.turns|].cause == ByTimeout
  {
    hide TurnOk, FinishPump, Taken, TaskOk, NothingLost, Frames;
    NextKeepsInv(form, s, TimeOut(0));
    FinishShape(s, Cancelled, ByTimeout);
    var r := Next(form, s, TimeOut(0));
    assert r.turns[|s.turns|] in r.turns;
  }

  /** What goes on around the pump does not disturb it. */
  lemma AroundRound(form: bool, s: State, sid: string, stream: seq<Frame>, m: Message)
    requires AtWork(form, s, sid, stream) && (m.Arrive? || m.Close? || m.CancelRequest?)
    ensures var r := Next(form, s, m);
            && AtWork(form, r, sid, stream + if m.Arrive? && !s.closed then [m.frame] else [])
            && r.turns == s.turns && r.pumps == s.pumps && r.closed == (s.closed || m.Close?)
            && r.cancelRequested == (s.cancelRequested || m.CancelRequest?)
            && r.inbound == s.inbound + if m.Arrive? && !s.closed then [m.frame] else []
  {
    hide TurnInv, Frames;
    NextKeepsInv(form, s, m);
  }

  lemma JoinedNone()
    ensures Joined([]) == "" && !HasOther([])
  {
  }

  lemma JoinedNext(blocks: seq<Block>, i: nat)
    requires i < |blocks|
    ensures Joined(blocks[..i + 1]) == Joined(blocks[..i]) + if blocks[i].Text? then blocks[i].text else ""
    ensures HasOther(blocks[..i + 1]) <==> HasOther(blocks[..i]) || blocks[i].NotText?
  {
    assert blocks[..i + 1][..i] == blocks[..i];
    assert forall b :: b in blocks[..i + 1] <==> b in blocks[..i] || b == blocks[i];
  }

  /** What taking the next frame comes to: it is dropped, its delivery fails, or it is delivered. */
  lemma TakeShape(form: bool, s: State, i: nat, answer: Answer, sent: nat)
    requires i < |s.pumps| && s.inbound != []
    ensures var f, task, rest := s.inbound[0], s.pumps[i], s.(inbound := s.inbound[1..]);
            var r := Received(f, if task.token in s.cancelled then Interrupted else answer);
            if RouteOf(f, s.inflight) == Drop then
              Outgoing(form, s, i, answer) == [] && Dispatch(form, s, i, answer) == rest.(dropped := s.dropped + [f])
            else
              var out, next := Outgoing(form, s, i, answer), Advanced(form, task, r);
              var verdict := Verdict(Emitted(task.ctx, f));
              && out == Delivered(form, Emitted(task.ctx, f), r.answer)
              && (sent < |out| ==>
                    Fail(form, s, i, answer, sent) ==
                      rest.(pumps := s.pumps[..i] + s.pumps[i + 1..],
                            turns := s.turns
                              + [Turn(task.sid, next.received, task.effects + out[..sent], None, ByFailure)]))
              && Dispatch(form, s, i, answer) ==
                   if verdict.None? then rest.(pumps := s.pumps[i := next])
                   else rest.(inflight := Released(s.inflight, task.sid), pumps := s.pumps[..i] + s.pumps[i + 1..],
                              turns := s.turns + [Turn(task.sid, next.received, next.effects, verdict, ByFrame)])
  {
    hide Emitted, After, Delivered, Verdict, RouteOf, Released;
  }

  lemma DeliveredEnd(form: bool, out: seq<Outbound>, i: nat, a: Answer)
    requires i == |out| || (i < |out| && out[i].FinishTurn?)
    ensures Delivered(form, out[i..], a) == [] && Verdict(out[i..]) == if i < |out| then Some(out[i].reason) else None
  {
  }

  class AgentState {
    const form: bool   // whether the client can show forms
    const registry: SessionRegistry
    var inbound: seq<Frame>
    var closed: bool
    var cancelRequested: bool
    var cancelToken: nat
    var cancelled: set<nat>
    // history
    ghost var arrived: seq<Frame>
    ghost var dropped: seq<Frame>
    ghost var turns: seq<Turn>

    constructor (form: bool)
      ensures this.form == form && fresh(registry) && Value([]) == INITIAL
    {
      this.form := form;
      registry := new SessionRegistry();
      inbound, closed, cancelRequested, cancelToken, cancelled := [], false, false, 0, {};
      arrived, dropped, turns := [], [], [];
    }

    /** The state together with the pumps at work. */
    ghost function Value(pumps: seq<PumpTask>): State
      reads this, registry
    {
      State(registry.sessions, registry.inflight, pumps, inbound, closed, cancelToken, cancelled, cancelRequested,
            arrived, dropped, turns)
    }

    method OpenSession(id: string, ghost pumps: seq<PumpTask>)
      modifies registry
      ensures Value(pumps) == Next(form, old(Value(pumps)), NewSession(id))
    {
      registry.Register(id, id);
    }

    /** Cancels the current turn, whichever session the request names. */
    method HandleCancel(id: string, ghost pumps: seq<PumpTask>)
      modifies this
      ensures Value(pumps) == Next(form, old(Value(pumps)), CancelRequest(id))
    {
      if cancelToken != 0 {
        cancelled := cancelled + {cancelToken};
      }
      cancelRequested := true;
    }

    /** What the connection to the daemon does on its own. */
    method Inbound(f: Frame, ghost pumps: seq<PumpTask>)
      modifies this
      ensures Value(pumps) == Next(form, old(Value(pumps)), Arrive(f))
    {
      if !closed {
        inbound, arrived := inbound + [f], arrived + [f];
      }
    }

    method PromptTextOf(blocks: seq<Block>) returns (text: Option<string>)
      ensures text == PromptText(blocks)
    {
      hide HasOther, Joined;
      var joined, other := "", false;
      JoinedNone();
      for i := 0 to |blocks|
        invariant joined == Joined(blocks[..i])
        invariant other <==> HasOther(blocks[..i])
      {
        JoinedNext(blocks, i);
        match blocks[i]
        case Text(t) => joined := joined + t;
        case NotText => other := true;
      }
      assert blocks[..|blocks|] == blocks;
      return if other || joined == "" then None else Some(joined);
    }

    /** Admits a prompt and starts its pump; what fails in between leaves the prompt in flight. */
    method OnPrompt(id: string, blocks: seq<Block>, delivered: bool, ghost pumps: seq<PumpTask>)
      returns (pump: Option<Pump>)
      modifies this, registry
      ensures pump.Some? ==> fresh(pump.value) && fresh(pump.value.ctx) && pump.value.Valid()
      ensures Value(if pump.Some? then pumps + [pump.value.Value()] else pumps)
           == Next(form, old(Value(pumps)), Prompt(id, blocks, delivered))
    {
      var answer := registry.TryBeginPrompt(id);
      if answer != Admitted {
        return None;
      }
      var text := PromptTextOf(blocks);
      if text.None? || !delivered {
        return None;
      }
      cancelToken := cancelToken + 1;
      cancelRequested := false;
      var p := new Pump(id, cancelToken);
      pump := Some(p);
    }

    /**
     * Delivers the translation of one frame, up to the end of the turn if it is among it. The send
     * with number `lost` fails, if it comes to that.
     */
    method Deliver(pump: Pump, f: Frame, answer: Answer, lost: Option<nat>)
      returns (reason: Option<StopReason>, failed: bool)
      requires pump.Valid()
      modifies pump, pump.ctx
      ensures pump.Valid() && pump.received == old(pump.received) + [Received(f, answer)]
      ensures failed <==> lost.Some? && lost.value < |Delivered(form, Emitted(old(pump.ctx.Value()), f), answer)|
      ensures !failed ==> pump.Value() == Advanced(form, old(pump.Value()), Received(f, answer))
      ensures !failed ==> reason == Verdict(Emitted(old(pump.ctx.Value()), f))
      ensures failed ==> reason == None
      ensures failed ==>
                var out := Delivered(form, Emitted(old(pump.ctx.Value()), f), answer);
                pump.effects == old(pump.effects) + out[..lost.value]
    {
      hide Emitted, After, EffectsOf, Delivered, Verdict;
      var out := pump.ctx.Translate(f);
      pump.received := pump.received + [Received(f, answer)];
      ghost var before, all := pump.effects, Delivered(form, out, answer);
      var sent: nat := 0;
      assert all[0..] == all && out[0..] == out;
      for i := 0 to |out|
        invariant pump.Valid() && pump.ctx.Value() == After(old(pump.ctx.Value()), f)
        invariant pump.received == old(pump.received) + [Received(f, answer)]
        invariant sent <= |all| && pump.effects == before + all[..sent]
          && Delivered(form, out[i..], answer) == all[sent..]
        invariant lost.Some? ==> sent <= lost.value
        invariant Verdict(out) == Verdict(out[i..])
      {
        if out[i].FinishTurn? {
          DeliveredEnd(form, out, i, answer);
          assert all == all[..sent] + all[sent..];
          return Some(out[i].reason), false;
        }
        DeliveredNext(form, out, i, answer);
        var todo := EffectsOf(form, out[i], answer);
        Segment(all, sent, todo, Delivered(form, out[i + 1..], answer));
        if lost.Some? && lost.value < sent + |todo| {
          pump.effects := pump.effects + todo[..lost.value - sent];
          SegmentPart(all, sent, todo, lost.value);
          return None, true;
        }
        pump.effects := pump.effects + todo;
        sent := sent + |todo|;
      }
      DeliveredEnd(form, out, |out|, answer);
      assert all == all[..sent] + all[sent..];
      return None, false;
    }

    /** Takes the next frame: it is routed and, unless it is dropped, translated and delivered. */
    method TakeFrame(pump: Pump, answer: Answer, lost: Option<nat>, ghost pumps: seq<PumpTask>, ghost i: nat)
      returns (reason: Option<StopReason>, failed: bool)
      requires pump.Valid() && i < |pumps| && pumps[i] == pump.Value() && inbound != []
      modifies this, registry, pump, pump.ctx
      ensures pump.Valid() && (failed ==> lost.Some? && reason == None)
      ensures failed <==> lost.Some? && lost.value < |Outgoing(form, old(Value(pumps)), i, answer)|
      ensures Value(if reason.Some? || failed then pumps[..i] + pumps[i + 1..] else pumps[i := pump.Value()])
           == if failed then Fail(form, old(Value(pumps)), i, answer, lost.value)
             else Dispatch(form, old(Value(pumps)), i, answer)
      ensures reason.Some? || failed ==> |turns| > 0 && turns[|turns| - 1].reason == reason
    {
      hide Emitted, After, Delivered, Verdict, Dispatch, Fail, Outgoing, RouteOf, Released;
      reason, failed := None, false;
      TakeShape(form, Value(pumps), i, answer, if lost.Some? then lost.value else 0);
      var f := inbound[0];
      if RouteOf(f, registry.inflight) == Drop {
        inbound := inbound[1..];
        dropped := dropped + [f];
      } else {
        var a := if pump.token in cancelled then Interrupted else answer;
        reason, failed := Deliver(pump, f, a, lost);
        inbound := inbound[1..];
        if failed {
          turns := turns + [Turn(pump.sid, pump.received, pump.effects, None, ByFailure)];
        } else if reason.Some? {
          registry.EndPrompt(pump.sid);
          turns := turns + [Turn(pump.sid, pump.received, pump.effects, reason, ByFrame)];
        }
      }
    }

    /** One round of a pump's loop: the next frame, the end of the stream, or nothing yet. */
    method PollOnce(pump: Pump, answer: Answer, lost: Option<nat>, ghost pumps: seq<PumpTask>, ghost i: nat)
      returns (reason: Option<StopReason>, failed: bool)
      requires pump.Valid() && i < |pumps| && pumps[i] == pump.Value()
      modifies this, registry, pump, pump.ctx
      ensures pump.Valid() && (failed ==> lost.Some? && reason == None)
      ensures failed ==> Fails(form, old(Value(pumps)), Break(i, answer, lost.value))
      ensures Value(if reason.Some? || failed then pumps[..i] + pumps[i + 1..] else pumps[i := pump.Value()])
           == Next(form, old(Value(pumps)), if failed then Break(i, answer, lost.value) else Poll(i, answer))
      ensures reason.Some? || failed ==> |turns| > 0 && turns[|turns| - 1].reason == reason
    {
      hide Emitted, After, Delivered, Verdict, Dispatch, Fail, Outgoing;
      reason, failed := None, false;
      if inbound != [] {
        reason, failed := TakeFrame(pump, answer, lost, pumps, i);
      } else if closed {
        registry.EndPrompt(pump.sid);
        reason := Some(Refusal);
        turns := turns + [Turn(pump.sid, pump.received, pump.effects, Some(Refusal), ByClose)];
      }
    }

    method CloseStream(ghost pumps: seq<PumpTask>)
      modifies this`closed
      ensures Value(pumps) == Next(form, old(Value(pumps)), Close)
    {
      closed := true;
    }

    /** The cancel window is over and no frame came: the pump gives up, if a cancel was requested. */
    method GiveUp(pump: Pump, ghost pumps: seq<PumpTask>) returns (given: bool)
      requires pumps == [pump.Value()]
      modifies this, registry
      ensures given <==> old(inbound) == [] && !old(closed) && old(cancelRequested)
      ensures Value(if given then [] else pumps) == Next(form, old(Value(pumps)), TimeOut(0))
      ensures given ==> |turns| > 0 && turns[|turns| - 1].reason == Some(Cancelled)
      ensures !given ==> Value(pumps) == old(Value(pumps))
    {
      given := inbound == [] && !closed && cancelRequested;
      if given {
        registry.EndPrompt(pump.sid);
        turns := turns + [Turn(pump.sid, pump.received, pump.effects, Some(Cancelled), ByTimeout)];
      }
    }

    /** What goes on before a round of the pump. */
    method Around(pump: Pump, round: Round, ghost stream: seq<Frame>)
      requires AtWork(form, Value([pump.Value()]), pump.sid, stream)
      modifies this
      ensures AtWork(form, Value([pump.Value()]), pump.sid, stream + if old(closed) then [] else round.arrived)
      ensures turns == old(turns) && closed == (old(closed) || round.closes) && |inbound| >= |old(inbound)|
      ensures old(closed) ==> inbound == old(inbound)
    {
      hide AtWork, Next;
      ghost var task := pump.Value();
      ghost var now := stream;
      for k := 0 to |round.arrived|
        invariant AtWork(form, Value([task]), pump.sid, now)
        invariant now == stream + (if old(closed) then [] else round.arrived[..k])
        invariant turns == old(turns) && closed == old(closed) && |inbound| >= |old(inbound)|
        invariant old(closed) ==> inbound == old(inbound)
      {
        AroundRound(form, Value([task]), pump.sid, now, Arrive(round.arrived[k]));
        Inbound(round.arrived[k], [task]);
        now := now + if old(closed) then [] else [round.arrived[k]];
      }
      if round.closes {
        AroundRound(form, Value([task]), pump.sid, now, Close);
        CloseStream([task]);
        assert now + [] == now;
      }
      if round.cancel {
        AroundRound(form, Value([task]), pump.sid, now, CancelRequest(pump.sid));
        HandleCancel(pump.sid, [task]);
        assert now + [] == now;
      }
      assert round.arrived[..|round.arrived|] == round.arrived;
    }

    /** One round: the pump takes a frame, notices the end of the stream, or gives up. */
    method PlayRound(pump: Pump, round: Round, ghost stream: seq<Frame>) returns (outcome: Outcome)
      requires pump.Valid() && AtWork(form, Value([pump.Value()]), pump.sid, stream)
      modifies this, registry, pump, pump.ctx
      ensures pump.Valid()
      ensures if outcome.Waiting? then
                && AtWork(form, Value([pump.Value()]), pump.sid, stream) && turns == old(turns) && closed == old(closed)
                && |inbound| <= |old(inbound)| && (closed ==> |inbound| < |old(inbound)|)
              else
                && TurnOver(form, old(turns), Value([]), pump.sid, stream) && |turns| == |old(turns)| + 1
                && turns[|old(turns)|].reason == if outcome.Answered? then Some(outcome.reason) else None
    {
      hide AtWork, TurnOver, Next, TurnInv, TurnOk, Frames, Fails;
      ghost var s, task := Value([pump.Value()]), pump.Value();
      outcome := Waiting;
      if inbound != [] || closed {
        PollRound(form, s, pump.sid, stream, round.answer);
        if round.lost.Some? && Fails(form, s, Break(0, round.answer, round.lost.value)) {
          BreakRound(form, s, pump.sid, stream, round.answer, round.lost.value);
        }
        var reason, failed := PollOnce(pump, round.answer, round.lost, [task], 0);
        SinglePump(task, pump.Value());
        if failed || reason.Some? {
          outcome := if failed then Failed else Answered(reason.value);
          OverMeans(form, s.turns, Value([]), pump.sid, stream);
        }
      } else if round.elapsed {
        if cancelRequested {
          TimeRound(form, s, pump.sid, stream);
        }
        var given := GiveUp(pump, [task]);
        if given {
          outcome := Answered(Cancelled);
          OverMeans(form, s.turns, Value([]), pump.sid, stream);
        }
      }
    }

    /**
     * The loop of the pump, with what goes on around its rounds. As long as it waits it is the only
     * pump, has sent the translation of what it took and lost nothing. When it is over it has finished
     * exactly one correct turn, and the prompt is released unless a send failed. It does not wait for
     * more rounds than there are frames once the stream is closed.
     */
    method PromptTask(pump: Pump, rounds: seq<Round>) returns (outcome: Outcome, used: nat)
      requires pump.Valid() && TurnInv(form, Value([pump.Value()]))
      modifies this, registry, pump, pump.ctx
      ensures used <= |rounds| && (outcome.Waiting? ==> used == |rounds|) && pump.Valid()
      ensures var stream := Frames(old(pump.received)) + Stream(old(inbound), old(closed), rounds[..used]);
              if outcome.Waiting? then AtWork(form, Value([pump.Value()]), pump.sid, stream) && turns == old(turns)
              else
                && TurnOver(form, old(turns), Value([]), pump.sid, stream)
                && turns[|old(turns)|].reason == (if outcome.Answered? then Some(outcome.reason) else None)
      ensures outcome.Waiting? && old(closed) ==> |rounds| <= |old(inbound)|
    {
      hide AtWork, TurnOver, Next, Stream, Closes, TurnInv, TurnOk, Frames;
      used := 0;
      outcome := Waiting;
      ghost var stream := Frames(pump.received) + inbound;
      StartAtWork(form, Value([pump.Value()]), pump.sid);
      StreamStart(inbound, closed, rounds);
      while outcome.Waiting? && used < |rounds|
        invariant used <= |rounds| && pump.Valid()
        invariant stream == Frames(old(pump.received)) + Stream(old(inbound), old(closed), rounds[..used])
        invariant outcome.Waiting? ==> AtWork(form, Value([pump.Value()]), pump.sid, stream) && turns == old(turns)
        invariant outcome.Waiting? ==> closed == Closes(old(closed), rounds[..used])
        invariant outcome.Waiting? && old(closed) ==> closed && used + |inbound| <= |old(inbound)|
        invariant !outcome.Waiting? ==>
                    && TurnOver(form, old(turns), Value([]), pump.sid, stream)
                    && |turns| == |old(turns)| + 1
                    && turns[|old(turns)|].reason == (if outcome.Answered? then Some(outcome.reason) else None)
        decreases |rounds| - used
      {
        var round := rounds[used];
        StreamNext(old(inbound), old(closed), rounds, used);
        Around(pump, round, stream);
        stream := stream + if Closes(old(closed), rounds[..used]) then [] else round.arrived;
        used := used + 1;
        outcome := PlayRound(pump, round, stream);
      }
      assert used == |rounds| ==> rounds[..used] == rounds;
    }
  }

  lemma SinglePump(task: PumpTask, next: PumpTask)
    ensures [task][..0] + [task][1..] == [] && [task][0 := next] == [next]
  {
  }

  lemma OverMeans(form: bool, turns: seq<Turn>, s: State, sid: string, stream: seq<Frame>)
    requires TurnOver(form, turns, s, sid, stream)
    ensures |s.turns| == |turns| + 1
  {
  }

  lemma Segment(all: seq<Effect>, sent: nat, todo: seq<Effect>, rest: seq<Effect>)
    requires sent <= |all| && all[sent..] == todo + rest
    ensures sent + |todo| <= |all| && all[sent + |todo|..] == rest && all[..sent] + todo == all[..sent + |todo|]
  {
    assert all == all[..sent] + todo + rest;
  }

  lemma SegmentPart(all: seq<Effect>, sent: nat, todo: seq<Effect>, k: nat)
    requires sent <= k < sent + |todo| <= |all| && all[..sent] + todo == all[..sent + |todo|]
    ensures all[..sent] + todo[..k - sent] == all[..k]
  {
    assert all[..k] == (all[..sent] + todo)[..k];
  }

  lemma StartAtWork(form: bool, s: State, sid: string)
    requires TurnInv(form, s) && |s.pumps| == 1 && s.pumps[0].sid == sid
    ensures AtWork(form, s, sid, Frames(s.pumps[0].received) + s.inbound)
  {
  }

  lemma StreamStart(inbound: seq<Frame>, closed: bool, rounds: seq<Round>)
    ensures rounds[..0] == [] && Stream(inbound, closed, []) == inbound && Closes(closed, []) == closed
  {
  }

  lemma StreamNext(inbound: seq<Frame>, closed: bool, rounds: seq<Round>, k: nat)
    requires k < |rounds|
    ensures Stream(inbound, closed, rounds[..k + 1])
         == Stream(inbound, closed, rounds[..k]) + if Closes(closed, rounds[..k]) then [] else rounds[k].arrived
    ensures Closes(closed, rounds[..k + 1]) == (Closes(closed, rounds[..k]) || rounds[k].closes)
  {
    assert rounds[..k + 1][..k] == rounds[..k];
    assert forall r :: r in rounds[..k + 1] <==> r in rounds[..k] || r == rounds[k];
  }
}
